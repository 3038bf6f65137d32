/**
 * The messages Horizon, Atlas and Maestro exchange: four closed families,
 * one per direction of traffic, the routing envelope around them and the
 * acknowledgement.
 */
module Messages {
  import opened Primitives
  import Spatial
  import Server
  import Health
  import Player

  /*
   * The transfer module is not part of this model: its request and token are
   * carried through unexamined.
   */

  /** A request to move a player to another server. */
  datatype TransferRequest = OpaqueTransferRequest(payload: Json)

  /** A token authorising a transfer. */
  datatype TransferToken = OpaqueTransferToken(payload: Json)

  /** Messages from Horizon to Atlas. */
  datatype HorizonMessage =
    | Register(registration: Server.ServerRegistration)
    | Heartbeat(heartbeat: Server.ServerHeartbeat)
    | HealthResponse(check: Health.HealthCheck)
    | PlayerConnected(playerId: Player.PlayerId, position: Spatial.WorldCoordinate)
    | PlayerDisconnected(playerId: Player.PlayerId, reason: Player.DisconnectReason)
    | PlayerPositionUpdate(playerId: Player.PlayerId, position: Spatial.WorldCoordinate, velocity: Spatial.WorldCoordinate)
    | TransferRequest(request: TransferRequest)
    | TransferComplete(playerId: Player.PlayerId, success: bool, error: Option<string>)
    | TransferAccepted(playerId: Player.PlayerId, tokenId: string)
    | Shutdown(serverId: Server.ServerId, playerCount: uint32)

  /** Messages from Atlas to Horizon. */
  datatype AtlasMessage =
    | RegistrationResponse(response: Server.RegistrationResponse)
    | HealthCheckRequest(request: Health.HealthCheckRequest)
    | InitiateTransfer(playerId: Player.PlayerId, targetServer: Server.ServerInfo, token: TransferToken)
    | AcceptTransfer(token: TransferToken, playerState: Player.PlayerState)
    | CancelTransfer(playerId: Player.PlayerId, reason: string)
    | PrepareShutdown(deadlineSecs: uint32)
    | AdjacentServersUpdate(servers: seq<Server.ServerInfo>)
    | ConfigUpdate(config: Json)

  /** Messages from Atlas to Maestro. */
  datatype AtlasToMaestroMessage =
    | SpawnServer(request: Server.SpawnServerRequest)
    | StopServer(instanceId: string, graceful: bool)
    | GetServerStats(instanceId: string)
    | ScaleCluster(targetCount: uint32)

  /** Messages from Maestro to Atlas. */
  datatype MaestroMessage =
    | SpawnResponse(response: Server.SpawnServerResponse)
    | ServerStopped(instanceId: string, exitCode: Option<int32>)
    | ServerStats(instanceId: string, cpuPercent: real, memoryMb: uint32, running: bool)
    | ClusterScaled(currentCount: uint32, targetCount: uint32)
    | Error(operation: string, message: string)

  /** Any message with routing metadata. */
  datatype Envelope<T> = Envelope(
    id: string,
    timestampMs: uint64,
    source: string,
    destination: string,
    message: T)
  {
    /**
     * `Envelope::new`. The fresh UUID string and the current time in
     * milliseconds are supplied as `id` and `nowMs`.
     */
    static function New(id: string, nowMs: uint64, source: string, destination: string, message: T): (e: Envelope<T>)
      ensures e.source == source && e.destination == destination && e.message == message
      ensures e.id == id && e.timestampMs == nowMs
    {
      Envelope(id, nowMs, source, destination, message)
    }
  }

  /** Acknowledgement of a message, correlated by its id. */
  datatype Ack = Ack(messageId: string, success: bool, error: Option<string>)
  {
    /** A successful acknowledgement carries no error, and a failed one carries one. */
    predicate WellFormed() {
      success <==> error == None
    }

    /** `Ack::success`. */
    static function Success(messageId: string): (a: Ack)
      ensures a.WellFormed() && a.success
      ensures a.messageId == messageId && a.error == None
    {
      Ack(messageId, true, None)
    }

    /** `Ack::failure`. */
    static function Failure(messageId: string, error: string): (a: Ack)
      ensures a.WellFormed() && !a.success
      ensures a.messageId == messageId && a.error == Some(error)
    {
      Ack(messageId, false, Some(error))
    }
  }

  /** Every well-formed acknowledgement is built by exactly one of the two constructors. */
  lemma AckWellFormedIsConstructed(a: Ack)
    ensures a.WellFormed() <==>
      (a == Ack.Success(a.messageId) ||
       (a.error.Some? && a == Ack.Failure(a.messageId, a.error.value)))
  {
  }

  /** The acknowledgement in the envelope test: `horizon-1` to `atlas`, succeeding `test-123`. */
  lemma EnvelopeExample(id: string, nowMs: uint64)
    ensures var e := Envelope.New(id, nowMs, "horizon-1", "atlas", Ack.Success("test-123"));
      e.source == "horizon-1" && e.destination == "atlas" &&
      e.message.messageId == "test-123" && e.message.WellFormed()
  {
  }
}
