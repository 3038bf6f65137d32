/**
 * Records a Horizon server exchanges with Atlas (the registry) and Maestro
 * (the orchestrator): identity, status, registration, heartbeat and the
 * flattened REST forms. Every operation here builds a record from its
 * arguments; the random UUID, the clock and the crate version are supplied
 * by the caller.
 */
module Server {
  import opened Primitives
  import opened Spatial

  /** Unique identifier of a Horizon server instance, a plain string on the wire. */
  datatype ServerId = ServerId(value: string)
  {
    /** `ServerId::from_string`, and equally `From<String>` and `From<&str>`. */
    static function FromString(s: string): (id: ServerId)
      ensures id.AsStr() == s
    {
      ServerId(s)
    }

    /** The inner string; also what `Display` writes. Wrapping it again gives the same identifier. */
    function AsStr(): (s: string)
      ensures ServerId(s) == this
    {
      value
    }
  }

  /** Reading an identifier's string and building an identifier from it gives it back. */
  lemma FromStringAsStr(id: ServerId)
    ensures ServerId.FromString(id.AsStr()) == id
  {
  }

  /** Distinct strings give distinct identifiers. */
  lemma FromStringInjective(s: string, t: string)
    ensures ServerId.FromString(s) == ServerId.FromString(t) <==> s == t
  {
    assert ServerId.FromString(s).AsStr() == s;
    assert ServerId.FromString(t).AsStr() == t;
  }

  /** Lifecycle status of a Horizon server. No transition function exists in the crate. */
  datatype ServerStatus = Starting | Running | Draining | Stopped | Error
  {
    /** `Default for ServerStatus`. */
    static function Default(): (s: ServerStatus)
      ensures s.Starting?
    {
      Starting
    }
  }

  /** Server information used for registration and discovery. */
  datatype ServerInfo = ServerInfo(
    id: ServerId,
    name: string,
    address: string,
    regionCoord: RegionCoordinate,
    bounds: RegionBounds,
    center: WorldCoordinate,
    capacity: uint32,
    version: string)
  {
    /** The advertised centre is the centre of the advertised bounds. */
    predicate CenterConsistent() {
      center == bounds.Center()
    }

    /**
     * `ServerInfo::new`. The fresh UUID and the crate version string are
     * parameters here.
     */
    static function New(
      id: ServerId,
      name: string,
      address: string,
      regionCoord: RegionCoordinate,
      bounds: RegionBounds,
      capacity: uint32,
      version: string): (info: ServerInfo)
      ensures info.CenterConsistent()
      ensures info.id == id && info.version == version
      ensures info.name == name && info.address == address && info.regionCoord == regionCoord
      ensures info.bounds == bounds && info.capacity == capacity
      ensures bounds.Valid() ==> bounds.Contains(info.center)
    {
      ServerInfo(id, name, address, regionCoord, bounds, bounds.Center(), capacity, version)
    }
  }

  /** A registration request from Horizon to Atlas. */
  datatype ServerRegistration = ServerRegistration(
    server: ServerInfo,
    status: ServerStatus,
    registeredAt: Timestamp,
    metadata: Metadata)
  {
    /** `ServerRegistration::new`, with the registration instant supplied as `now`. */
    static function New(server: ServerInfo, now: Timestamp): (reg: ServerRegistration)
      ensures reg.status == ServerStatus.Default()
      ensures reg.metadata == map[]
      ensures reg.server == server && reg.registeredAt == now
    {
      ServerRegistration(server, Starting, now, map[])
    }
  }

  /** Load of a server: connections over capacity, or 0 when the capacity is 0. */
  function Load(connections: uint32, capacity: uint32): (load: real)
    ensures load >= 0.0
    ensures capacity > 0 ==> load * capacity as real == connections as real
    ensures capacity == 0 ==> load == 0.0
    ensures connections <= capacity ==> load <= 1.0
  {
    if capacity > 0 then connections as real / capacity as real else 0.0
  }

  /** The documented range 0.0 to 1.0 is not enforced: an overfull server reports a load above 1. */
  lemma LoadAboveOne(connections: uint32, capacity: uint32)
    requires 0 < capacity < connections
    ensures Load(connections, capacity) > 1.0
  {
    ScaledOrder(1.0, connections as real, capacity as real);
    assert Load(connections, capacity) * capacity as real == connections as real;
  }

  /** Heartbeat sent periodically from Horizon to Atlas. */
  datatype ServerHeartbeat = ServerHeartbeat(
    serverId: ServerId,
    status: ServerStatus,
    currentConnections: uint32,
    load: real,
    timestamp: Timestamp,
    avgTickMs: real,
    memoryBytes: uint64)
  {
    /** `ServerHeartbeat::new`, with the heartbeat instant supplied as `now`. */
    static function New(
      serverId: ServerId,
      status: ServerStatus,
      currentConnections: uint32,
      capacity: uint32,
      now: Timestamp): (hb: ServerHeartbeat)
      ensures hb.load >= 0.0
      ensures capacity > 0 ==> hb.load * capacity as real == currentConnections as real
      ensures capacity == 0 ==> hb.load == 0.0
      ensures currentConnections <= capacity ==> hb.load <= 1.0
      ensures hb.serverId == serverId && hb.status == status
      ensures hb.currentConnections == currentConnections && hb.timestamp == now
      ensures hb.avgTickMs == 0.0 && hb.memoryBytes == 0
    {
      ServerHeartbeat(serverId, status, currentConnections, Load(currentConnections, capacity),
                      now, 0.0, 0)
    }
  }

  /** 50 connections on a capacity of 100 report a load of one half. */
  lemma HeartbeatLoadExample(id: ServerId, now: Timestamp)
    ensures ServerHeartbeat.New(id, Running, 50, 100, now).load == 0.5
  {
    var hb := ServerHeartbeat.New(id, Running, 50, 100, now);
    assert hb.load * 100.0 == 50.0;
  }

  /** Response from Atlas to a registration. */
  datatype RegistrationResponse = RegistrationResponse(
    success: bool,
    serverId: ServerId,
    message: string,
    heartbeatIntervalSecs: uint32,
    adjacentServers: seq<ServerInfo>)

  /** Request from Atlas to Maestro to spawn a Horizon instance. */
  datatype SpawnServerRequest = SpawnServerRequest(
    regionCoord: RegionCoordinate,
    bounds: RegionBounds,
    name: Option<string>,
    environment: map<string, string>)

  /** Response from Maestro after a spawn. */
  datatype SpawnServerResponse = SpawnServerResponse(
    success: bool,
    instanceId: string,
    address: Option<string>,
    error: Option<string>)

  /** The registration Horizon sends over the REST API: the box is flattened to a centre and one half-extent. */
  datatype ApiServerRegistration = ApiServerRegistration(
    name: string,
    address: string,
    regionCoord: RegionCoordinate,
    center: WorldCoordinate,
    bounds: real,
    capacity: uint32,
    version: string,
    metadata: Metadata)
  {
    /** `ApiServerRegistration::from_bounds`. */
    static function FromBounds(
      name: string,
      address: string,
      regionCoord: RegionCoordinate,
      bounds: RegionBounds,
      capacity: uint32): (api: ApiServerRegistration)
      ensures api.center == bounds.Center() && api.bounds == bounds.HalfExtent()
      ensures bounds.Valid() ==> api.bounds >= 0.0
      ensures api.version == "" && api.metadata == map[]
      ensures api.name == name && api.address == address
      ensures api.regionCoord == regionCoord && api.capacity == capacity
    {
      ApiServerRegistration(name, address, regionCoord, bounds.Center(), bounds.HalfExtent(),
                            capacity, "", map[])
    }

    /** The box Atlas can rebuild from the flattened form. */
    function Rebuilt(): (b: RegionBounds)
      ensures b.Center() == center && b.HalfExtent() == bounds
    {
      RegionBounds.FromCenter(center, bounds)
    }
  }

  /** All three sides of the box have the same length as the x side. */
  predicate IsCubic(b: RegionBounds) {
    b.maxY - b.minY == b.maxX - b.minX && b.maxZ - b.minZ == b.maxX - b.minX
  }

  /**
   * The REST projection is lossless exactly for cubic boxes: only the x
   * half-extent survives it.
   */
  lemma {:induction false} FromBoundsRebuilds(
    name: string, address: string, regionCoord: RegionCoordinate, bounds: RegionBounds, capacity: uint32)
    ensures ApiServerRegistration.FromBounds(name, address, regionCoord, bounds, capacity).Rebuilt() == bounds
        <==> IsCubic(bounds)
  {
    var api := ApiServerRegistration.FromBounds(name, address, regionCoord, bounds, capacity);
    var r := api.Rebuilt();
    var h := bounds.HalfExtent();
    assert r.minX == bounds.minX && r.maxX == bounds.maxX;
    assert r.minY == (bounds.minY + bounds.maxY) / 2.0 - h && r.maxY == (bounds.minY + bounds.maxY) / 2.0 + h;
    assert r.minZ == (bounds.minZ + bounds.maxZ) / 2.0 - h && r.maxZ == (bounds.minZ + bounds.maxZ) / 2.0 + h;
  }

  /** A flat 100 x 100 x 10 slab does not survive the projection. */
  lemma FromBoundsLossy()
    ensures
      var slab := RegionBounds(0.0, 100.0, 0.0, 100.0, 0.0, 10.0);
      ApiServerRegistration.FromBounds("slab", "127.0.0.1:8080", RegionCoordinate.Center(), slab, 100).Rebuilt() != slab
  {
    var slab := RegionBounds(0.0, 100.0, 0.0, 100.0, 0.0, 10.0);
    assert !IsCubic(slab);
    FromBoundsRebuilds("slab", "127.0.0.1:8080", RegionCoordinate.Center(), slab, 100);
  }

  /** REST response to a registration. */
  datatype ApiRegistrationResponse = ApiRegistrationResponse(
    success: bool,
    serverId: string,
    message: string,
    heartbeatIntervalSecs: uint32,
    adjacentServers: seq<AdjacentServerInfo>)

  /** A neighbouring server as listed in the REST response. */
  datatype AdjacentServerInfo = AdjacentServerInfo(
    serverId: string,
    address: string,
    regionCoord: RegionCoordinate)

  /** REST heartbeat request. */
  datatype ApiServerHeartbeat = ApiServerHeartbeat(
    serverId: string,
    currentConnections: uint32,
    load: real,
    acceptingConnections: bool,
    avgTickMs: real,
    memoryBytes: uint64)

  /** REST heartbeat response, possibly carrying commands for the server. */
  datatype ApiHeartbeatResponse = ApiHeartbeatResponse(
    success: bool,
    message: string,
    commands: seq<ServerCommand>)

  /** Commands from Atlas to a Horizon server. */
  datatype ServerCommand =
    | PrepareShutdown(deadlineSecs: uint32)
    | ConfigUpdate(config: Json)
    | HealthCheck
}
