/**
 * Players as Atlas tracks them: identity, authentication and connection
 * state, the mutable last-known position, the state carried across a
 * transfer, and the kinematic position prediction.
 */
module Player {
  import opened Primitives
  import opened Spatial
  import Server

  /** A 128-bit UUID. */
  type Uuid = n: int | 0 <= n < 0x1_0000_0000_0000_0000_0000_0000_0000_0000

  /** Unique identifier of a player. */
  datatype PlayerId = PlayerId(uuid: Uuid)

  /** Authentication status of a player. */
  datatype AuthenticationStatus = Unauthenticated | Authenticating | Authenticated | AuthenticationFailed
  {
    /** The `#[default]` variant. */
    static function Default(): (s: AuthenticationStatus)
      ensures s.Unauthenticated?
    {
      Unauthenticated
    }
  }

  /** Connection state of a player. */
  datatype ConnectionState = Connecting | Connected | Transferring | Disconnecting | Disconnected
  {
    /** The `#[default]` variant. */
    static function Default(): (s: ConnectionState)
      ensures s.Connecting?
    {
      Connecting
    }
  }

  /** Basic player information tracked by Atlas; its position is updated in place. */
  class PlayerInfo {
    var id: PlayerId
    var name: string
    var authStatus: AuthenticationStatus
    var connectionState: ConnectionState
    var currentServer: Option<Server.ServerId>
    var lastPosition: WorldCoordinate
    var lastUpdated: Timestamp

    /** `PlayerInfo::new`, with the creation instant supplied as `now`. */
    constructor (id: PlayerId, name: string, now: Timestamp)
      ensures this.id == id && this.name == name
      ensures authStatus == AuthenticationStatus.Default()
      ensures connectionState == ConnectionState.Default()
      ensures currentServer == None
      ensures lastPosition == WorldCoordinate.Zero() && lastUpdated == now
    {
      this.id := id;
      this.name := name;
      authStatus := Unauthenticated;
      connectionState := Connecting;
      currentServer := None;
      lastPosition := WorldCoordinate.Zero();
      lastUpdated := now;
    }

    /**
     * `PlayerInfo::update_position`: records a new position and the instant
     * of the update, and touches nothing else.
     */
    method UpdatePosition(position: WorldCoordinate, now: Timestamp)
      modifies this
      ensures lastPosition == position && lastUpdated == now
      ensures id == old(id) && name == old(name)
      ensures authStatus == old(authStatus) && connectionState == old(connectionState)
      ensures currentServer == old(currentServer)
    {
      lastPosition := position;
      lastUpdated := now;
    }
  }

  /** Player state handed from one server to another during a transfer. */
  datatype PlayerState = PlayerState(
    info: PlayerInfo,
    velocity: WorldCoordinate,
    health: real,
    customData: Metadata,
    persistentData: Json)
  {
    /** `PlayerState::new`: a player at rest, at full health, with no custom or persistent data. */
    static function New(info: PlayerInfo): (s: PlayerState)
      ensures s.info == info
      ensures s.velocity == WorldCoordinate.Zero() && s.health == 1.0
      ensures s.customData == map[] && s.persistentData == Null
    {
      PlayerState(info, WorldCoordinate.Zero(), 1.0, map[], Null)
    }
  }

  /** Velocity and acceleration of a player, for position prediction. */
  datatype MovementData = MovementData(
    velocity: WorldCoordinate,
    acceleration: WorldCoordinate,
    timestampMs: uint64)
  {
    /**
     * `MovementData::predict_position`: the position after `deltaMs`
     * milliseconds under constant acceleration, `p + v t + a t^2 / 2`.
     */
    function PredictPosition(currentPos: WorldCoordinate, deltaMs: uint64): (p: WorldCoordinate)
      ensures deltaMs == 0 ==> p == currentPos
      ensures acceleration == WorldCoordinate.Zero()
          ==> p == currentPos.Add(velocity.Scale(Seconds(deltaMs)))
    {
      var t := Seconds(deltaMs);
      WorldCoordinate(
        Kinematic(currentPos.x, velocity.x, acceleration.x, t),
        Kinematic(currentPos.y, velocity.y, acceleration.y, t),
        Kinematic(currentPos.z, velocity.z, acceleration.z, t))
    }

    /**
     * The movement after `deltaMs` milliseconds: velocity has grown by `a t`.
     * The crate never updates a `MovementData`; this is a helper that states
     * `PredictPositionComposes`.
     */
    function After(deltaMs: uint64): (m: MovementData)
      ensures m.acceleration == acceleration
      ensures deltaMs == 0 ==> m.velocity == velocity
    {
      MovementData(velocity.Add(acceleration.Scale(Seconds(deltaMs))), acceleration, timestampMs)
    }
  }

  /** Milliseconds as seconds. */
  function Seconds(ms: int): real {
    ms as real / 1000.0
  }

  /** One axis of `p + v t + a t^2 / 2`. */
  function Kinematic(p: real, v: real, a: real, t: real): real {
    p + v * t + 0.5 * a * t * t
  }

  /** One axis: a step of `t1` followed by a step of `t2`, at the velocity reached, is one step of `t1 + t2`. */
  lemma KinematicComposes(p: real, v: real, a: real, t1: real, t2: real, q: real, w: real, t: real)
    requires q == Kinematic(p, v, a, t1) && w == v + a * t1 && t == t1 + t2
    ensures Kinematic(q, w, a, t2) == Kinematic(p, v, a, t)
  {
    assert t * t == t1 * t1 + 2.0 * t1 * t2 + t2 * t2;
  }

  /**
   * Predicting over `d1` milliseconds and then, from the resulting position
   * and velocity, over `d2` more agrees with predicting over `d1 + d2` at once.
   */
  lemma {:induction false} PredictPositionComposes(m: MovementData, pos: WorldCoordinate, d1: uint64, d2: uint64)
    requires d1 + d2 < 0x1_0000_0000_0000_0000
    ensures m.After(d1).PredictPosition(m.PredictPosition(pos, d1), d2) == m.PredictPosition(pos, d1 + d2)
  {
    var t1, t2, t := Seconds(d1), Seconds(d2), Seconds(d1 + d2);
    assert t == t1 + t2;
    var v, a := m.velocity, m.acceleration;
    var q, n := m.PredictPosition(pos, d1), m.After(d1);
    var w := n.velocity;
    assert w == WorldCoordinate(v.x + a.x * t1, v.y + a.y * t1, v.z + a.z * t1) by {
      assert a.Scale(t1) == WorldCoordinate(a.x * t1, a.y * t1, a.z * t1);
    }
    var r, s := n.PredictPosition(q, d2), m.PredictPosition(pos, d1 + d2);
    assert r == WorldCoordinate(Kinematic(q.x, w.x, a.x, t2), Kinematic(q.y, w.y, a.y, t2), Kinematic(q.z, w.z, a.z, t2));
    assert s == WorldCoordinate(Kinematic(pos.x, v.x, a.x, t), Kinematic(pos.y, v.y, a.y, t), Kinematic(pos.z, v.z, a.z, t));
    KinematicComposes(pos.x, v.x, a.x, t1, t2, q.x, w.x, t);
    KinematicComposes(pos.y, v.y, a.y, t1, t2, q.y, w.y, t);
    KinematicComposes(pos.z, v.z, a.z, t1, t2, q.z, w.z, t);
  }

  /** Ten units per second along x for one second, from the origin, ends at x = 10. */
  lemma PredictPositionExample()
    ensures MovementData(WorldCoordinate(10.0, 0.0, 0.0), WorldCoordinate.Zero(), 0)
              .PredictPosition(WorldCoordinate.Zero(), 1000)
         == WorldCoordinate(10.0, 0.0, 0.0)
  {
    assert Seconds(1000) == 1.0;
  }

  /** Why a player was disconnected. */
  datatype DisconnectReason =
    | ClientDisconnect
    | Timeout
    | ServerShutdown
    | Kicked(reason: string)
    | Transfer(targetServer: Server.ServerId)
    | Error(message: string)
}
