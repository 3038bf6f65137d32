# Horizon network common types, in Dafny

A model of the types and helpers shared by the three services of the
Horizon game-server ecosystem:

- **Horizon**, the game server that owns one region of the world;
- **Atlas**, the registry that tracks servers, their health and player
  transfers;
- **Maestro**, the orchestrator that spawns and stops Horizon instances.

The model follows the crate's modules, one Dafny module each:

- `Primitives` (`primitives.dfy`): fixed-width integers (`uint32`, `uint64`,
  `int32`), `Option`, timestamps and opaque JSON payloads.
- `Spatial` (`spatial.dfy`): world coordinates, the integer region grid, the
  floor map from a world point to its grid cell, and axis-aligned region
  bounds.
- `Server` (`server.dfy`): server identity, status, registration and heartbeat
  records, and the flattened REST forms.
- `Health` (`health.dfy`): per-server health snapshots and the cluster
  summary Atlas folds them into (`ClusterHealth.New`, a loop over five
  counters, proved equal to a recursive specification `Summary`).
- `Player` (`player.dfy`): player identity and state, the mutable
  `PlayerInfo` class whose position is updated in place, and kinematic
  position prediction.
- `Messages` (`messages.dfy`): the four closed message families, the routing
  envelope and the acknowledgement.

Numbers: `f64`/`f32` are `real`, `i64` grid indices are unbounded `int`,
and `u32`/`u64` are subset types of `int`. The one integer conversion whose
range matters, the `.floor() as i64` cast of `from_world_coordinate`, is
written out with Rust's saturation (and division by zero yields the
saturated infinity or, for `0/0`, 0). Random UUIDs, the clock and the crate
version string are parameters of the constructors that use them.

`distance_to_boundary` is documented as negative inside the box, but the
code returns the smallest gap to a face, which is non-negative inside and
negative outside. The model follows the code (`DistanceToBoundarySign`).

## Model

| member | source | states |
|---|---|---|
| Spatial.WorldCoordinate.VectorTo | src/spatial.rs:38-45 | adding the vector from `a` to `b` to `a` gives `b` |
| Spatial.WorldCoordinate.Add | src/spatial.rs:66-73 | adding the origin on either side leaves a vector unchanged (the full laws are in VectorLaws) |
| Spatial.WorldCoordinate.Scale | src/spatial.rs:75-82 | scaling by 1 keeps a vector and scaling by 0 gives the origin (the full laws are in VectorLaws) |
| Spatial.VectorLaws | src/spatial.rs:38-82 | `vector_to`, `add` and `scale` obey the vector-space laws: inverse, commutativity, zero, scaling by 1 and 0, associativity and distributivity of scaling |
| Spatial.RegionCoordinate.ManhattanDistance | src/spatial.rs:124-127 | the distance is non-negative and is 0 exactly for equal coordinates |
| Spatial.ManhattanSymmetric | src/spatial.rs:124-127 | the distance is symmetric |
| Spatial.RegionCoordinate.AdjacentRegions | src/spatial.rs:129-139 | six pairwise-distinct cells, each at distance 1, none equal to the cell itself |
| Spatial.AdjacentIffUnitDistance | src/spatial.rs:124-139 | a cell is among the adjacent regions exactly when it is at Manhattan distance 1 (diagonal cells are not adjacent) |
| Spatial.RegionCoordinate.ToWorldCenter | src/spatial.rs:141-150 | for a positive region size the returned point lies in the half-open cube of the cell |
| Spatial.RegionCoordinate.FromWorldCoordinate | src/spatial.rs:152-159 | every axis index is a valid `i64` (the cast saturates) |
| Spatial.AxisCell | src/spatial.rs:155-157 | one axis of `(v / s).floor() as i64`: the index is always a valid `i64`; its exact cell is stated by AxisCellExact and its saturation by AxisCellSaturates |
| Spatial.SaturateInt64 | src/spatial.rs:155-157 | Rust's float-to-`i64` cast: in-range values are kept, out-of-range ones clamp to the nearer bound |
| Spatial.AxisCellExact | src/spatial.rs:152-159 | for `s > 0` and a representable value, the axis index is `k` exactly when `k*s <= v < (k+1)*s` |
| Spatial.AxisCellSaturates | src/spatial.rs:155-157 | a quotient below or above the `i64` range gives `i64::MIN` or `i64::MAX` |
| Spatial.FromWorldCoordinateCell | src/spatial.rs:152-159 | for `s > 0` and a point whose quotients by `s` fit in `i64`, the computed cell is the unique cell whose half-open cube holds the point |
| Spatial.FromWorldCoordinateExample | src/spatial.rs:287-292 | `(150, 50, -25)` at size 100 is in cell `(1, 0, -1)` |
| Spatial.ToWorldCenterRoundTrip | src/spatial.rs:141-159 | for `s > 0` and an `i64` cell, `from_world_coordinate(to_world_center(r, s), s) == r` |
| Spatial.RegionBounds.Default | src/spatial.rs:199-210 | the default box is valid, centred on the origin, with half-extent 1000 |
| Spatial.RegionBounds.FromCenter | src/spatial.rs:218-228 | the box has the given centre and half-extent, and is valid exactly when the half-extent is non-negative |
| Spatial.RegionBounds.Center | src/spatial.rs:230-237 | the centre is equally far from the two faces on each axis and lies in a valid box |
| Spatial.RegionBounds.HalfExtent | src/spatial.rs:239-242 | centre minus/plus the half-extent gives the x faces; non-negative for a valid box |
| Spatial.RegionBounds.Contains | src/spatial.rs:244-249 | containment holds exactly when the boundary distance is non-negative |
| Spatial.RegionBounds.DistanceToBoundary | src/spatial.rs:251-258 | the result is one of the six signed face gaps and no larger than any of them |
| Spatial.DistanceToBoundarySign | src/spatial.rs:244-258 | non-negative exactly inside (faces included), positive exactly strictly inside, negative exactly outside |
| Spatial.RegionBounds.Overlaps | src/spatial.rs:260-265 | a box overlaps itself exactly when it is valid |
| Spatial.OverlapsSymmetric | src/spatial.rs:260-265 | overlap does not depend on argument order |
| Spatial.OverlapsIffCommonPoint | src/spatial.rs:244-265 | two valid boxes overlap exactly when some point lies in both |
| Spatial.SharedFaceOverlaps | src/spatial.rs:244-265 | two valid boxes sharing only the face `x = max_x` overlap, both ways, and both contain a point of that face |
| Spatial.FromCenterContains | src/spatial.rs:218-249 | `from_center(c, h)` holds exactly the points within `h` of `c` on every axis |
| Spatial.FromCenterBoundary | src/spatial.rs:279-285 | for `h >= 0` the box holds its centre but not the point `h + eps` along x from it |
| Spatial.ToWorldCenterIsCorner | src/spatial.rs:141-150 | the point `to_world_center` returns is on the boundary of its cell, is not the cell box's centre, and also lies in the box of the cell below |
| Spatial.CellBounds | src/spatial.rs:141-159 | the closed box of a grid cell is valid for a non-negative region size |
| Spatial.CellCenter | src/spatial.rs:141-150 | the corrected centre is the centre of the cell's box |
| Spatial.CellCenterRoundTrip | src/spatial.rs:141-159 | for `s > 0` and an `i64` cell, the corrected centre maps back to its cell under `from_world_coordinate` |
| Spatial.CellCenterDistance | src/spatial.rs:141-150 | the corrected centre is half a region size from every face of its cell |
| Server.ServerId.FromString | src/server.rs:23-31 | `from_string(s).as_str() == s` |
| Server.ServerId.AsStr | src/server.rs:28-31 | wrapping the returned string gives back the same identifier |
| Server.FromStringInjective | src/server.rs:23-31 | distinct strings give distinct identifiers |
| Server.FromStringAsStr | src/server.rs:23-31 | an identifier rebuilt from its string is the same identifier |
| Server.ServerStatus.Default | src/server.rs:68-72 | the default status is `Starting` |
| Server.ServerInfo.New | src/server.rs:96-114 | `center == bounds.center()`, which lies inside a valid box; all other arguments are copied |
| Server.ServerRegistration.New | src/server.rs:132-140 | a new registration is `Starting` with empty metadata and keeps the server info |
| Server.Load | src/server.rs:172-176 | load is non-negative, `load * capacity == connections` for positive capacity, 0 for zero capacity, and at most 1 when connections do not exceed capacity |
| Server.LoadAboveOne | src/server.rs:172-176 | a server with positive capacity and more connections than capacity reports a load above 1 |
| Server.ServerHeartbeat.New | src/server.rs:165-187 | the load as above (no division by zero); id, status and connections copied; tick time and memory 0 |
| Server.HeartbeatLoadExample | src/server.rs:346-355 | 50 connections on capacity 100 give load 0.5 |
| Server.ApiServerRegistration.FromBounds | src/server.rs:258-276 | centre is `bounds.center()`, the single bounds number is `half_extent()` (non-negative for a valid box), empty version and metadata |
| Server.ApiServerRegistration.Rebuilt | src/spatial.rs:218-242 | the box rebuilt from the REST form has the sent centre and half-extent |
| Server.FromBoundsRebuilds | src/server.rs:258-276 | rebuilding the box from the REST form gives the original exactly when the box is a cube |
| Server.FromBoundsLossy | src/server.rs:258-276 | a 100 x 100 x 10 slab is not rebuilt |
| Health.HealthStatus.Default | src/health.rs:25-29 | the default status is `Unknown` |
| Health.HealthStatus.IsOperational | src/health.rs:32-35 | operational exactly when neither `Unhealthy` nor `Unknown` |
| Health.ComponentHealth.Healthy | src/health.rs:127-135 | a healthy component is operational with no details |
| Health.ComponentHealth.Unhealthy | src/health.rs:137-145 | an unhealthy component is not operational and carries the details |
| Health.HealthCheck.Healthy | src/health.rs:67-82 | status `Healthy`, no message, counts copied, tick rate 60 |
| Health.HealthCheck.Unhealthy | src/health.rs:84-99 | status `Unhealthy`, the message kept, 0 players, capacity 0 and load 0 |
| Health.HealthCheck.LoadFactor | src/health.rs:101-108 | 0 for zero capacity, otherwise `load * capacity == players`; non-negative, at most 1 when not overfull |
| Health.HealthCheckRequest.Default | src/health.rs:159-166 | neither components nor metrics requested |
| Health.Bucket | src/health.rs:197-201 | each status falls in exactly one counter; `Unhealthy` and `Unknown` share the unhealthy counter |
| Health.Contribution | src/health.rs:196-203 | one check adds 1 to exactly its status's counter |
| Health.Tally | src/health.rs:196-204 | the three status counters sum to the number of checks |
| Health.TallyConcat | src/health.rs:196-204 | the counters over a concatenation are the sums of the counters over the parts |
| Health.TallyStep | src/health.rs:196-204 | one loop iteration adds the contribution of the next check |
| Health.TallyStepFits | src/health.rs:196-204 | when the final totals fit in `u32`, no counter overflows at any iteration |
| Health.TallyCountWitness | src/health.rs:196-204 | a counter is positive exactly when some check falls in it |
| Health.TallyCountAll | src/health.rs:196-204 | a counter equals the number of checks exactly when every check falls in it |
| Health.TallyPermutation | src/health.rs:196-204 | the counters do not depend on the order of the checks |
| Health.StatusFromCounts | src/health.rs:206-214 | `Unknown` exactly when all counters are 0; `Healthy` exactly when only the healthy counter is positive |
| Health.AggregateStatusCases | src/health.rs:206-214 | `Unknown` iff no checks; `Unhealthy` iff some check is down and none healthy; `Healthy` iff non-empty and all healthy; `Degraded` iff no check down and some degraded, or some down and some healthy |
| Health.ClusterHealth.New | src/health.rs:189-225 | the loop with five `u32` counters computes exactly `Summary(checks, now)` |
| Health.Summary | src/health.rs:189-225 | the three server counts sum to the number of checks, and the status is the aggregate status |
| Health.SummaryPermutation | src/health.rs:189-225 | the summary is the same for every ordering of the checks |
| Health.ClusterHealth.LoadFactor | src/health.rs:227-234 | 0 for zero total capacity, otherwise `load * capacity == players` |
| Health.SummaryExample | src/health.rs:249-260 | two healthy checks with 50/100 and 30/100 give 2 healthy servers, 80 players, capacity 200 |
| Health.ClusterLoadExample | src/health.rs:227-234 | that summary's load is 0.4 |
| Player.AuthenticationStatus.Default | src/player.rs:44-47 | the default is `Unauthenticated` |
| Player.ConnectionState.Default | src/player.rs:59-62 | the default is `Connecting` |
| Player.PlayerInfo.constructor | src/player.rs:93-104 | id and name kept; unauthenticated, connecting, no server, at the origin |
| Player.PlayerInfo.UpdatePosition | src/player.rs:106-110 | position and update instant set; id, name, auth status, connection state and server unchanged |
| Player.PlayerState.New | src/player.rs:131-140 | the info is kept; zero velocity, health 1, empty custom data, null persistent data |
| Player.MovementData.PredictPosition | src/player.rs:165-174 | a zero delta returns the current position; zero acceleration gives `pos + v * t` |
| Player.PredictPositionComposes | src/player.rs:165-174 | predicting over `d1` then `d2` from the reached position and velocity equals predicting over `d1 + d2` |
| Player.PredictPositionExample | src/player.rs:208-218 | 10 units per second for 1000 ms from the origin reaches x = 10 |
| Messages.Envelope.New | src/messages.rs:191-205 | source, destination and message copied; id and timestamp are the supplied ones |
| Messages.Ack.Success | src/messages.rs:221-228 | the id kept, success with no error |
| Messages.Ack.Failure | src/messages.rs:230-237 | the id kept, failure carrying the error |
| Messages.AckWellFormedIsConstructed | src/messages.rs:208-238 | an ack has `success` exactly when it has no error iff it is built by `success` or `failure` |
| Messages.EnvelopeExample | src/messages.rs:260-266 | an envelope from `horizon-1` to `atlas` carries the acknowledgement of `test-123` |

## Left out

- `src/transfer.rs` is not part of this model: transfer requests and tokens are carried in messages as opaque payloads, and no token or custody rule is modelled.
- `WorldCoordinate::distance_to`, `magnitude` and `normalized` use square roots and floating-point rounding; they are not modelled.
- All `f64`/`f32` arithmetic is exact real arithmetic: rounding, NaN, infinities (other than the division by zero in `from_world_coordinate`) and signed zero are not modelled. The `as f32` conversions of the load factors are therefore exact.
- `WorldCoordinate::new`, `RegionCoordinate::new`, `RegionCoordinate::center`, `WorldCoordinate::zero` and `RegionBounds::new` are the datatype constructors or constant functions with no property beyond their fields.
- `RegionCoordinate::from_env`: reading environment variables is I/O and is not modelled.
- Spatial.RegionCoordinate.ManhattanDistance: grid indices are unbounded, so `i64` overflow (a panic in debug builds, wrap-around in release builds) in `manhattan_distance` and `adjacent_regions` is not modelled.
- Spatial.RegionCoordinate.ToWorldCenter: the `i64 as f64` conversion is exact here; precision loss for indices beyond 2^53 is not modelled.
- Health.ClusterHealth.New: requires that each of the five final counters (healthy, degraded and unhealthy servers, total players, total capacity) fits in `u32`; inputs on which one of the source's `+=` overflows are not modelled.
- Random UUIDs (`ServerId::new`, `PlayerId::new`, the envelope id), `Utc::now()`, `SystemTime::now()` and `env!("CARGO_PKG_VERSION")` are parameters of the constructors that use them. Messages.Envelope.New takes the millisecond time as a `u64`, so the truncating `as u64` of the source's `u128` is not modelled.
- Serde encoding and decoding (tag and content layouts, `#[serde(default)]`, `PlayerState::to_json`/`from_json`), `PlayerId::from_str` (the UUID parser) and the `Display` implementations are foreign library behaviour and are not modelled.
- `serde_json::Value` payloads (metadata, configuration, custom and persistent data) are a JSON datatype carried without interpretation.
- `ServerStatus` has no transition function in the crate, so no lifecycle state machine is modelled.
- Player.PlayerState.New: `PlayerState` holds a reference to a `PlayerInfo` object, whereas the source moves a value into it; later updates through another reference to the same object are visible in the state, which the source's value semantics rule out.

## Findings

| source | as written | input that shows it | evidently intended | confidence | as-written member | corrected member |
|---|---|---|---|---|---|---|
| src/spatial.rs:141-150 | `to_world_center` returns `index * region_size`, the lower corner of the cell under the floor map of `from_world_coordinate` | cell `(0, 0, 0)`, size 100: the "centre" is `(0, 0, 0)`, on the cell's faces and also inside the box of cell `(-1, 0, 0)`, while the box's centre is `(50, 50, 50)` | `(index + 0.5) * region_size`, the centre of the cell | not executed | Spatial.ToWorldCenterIsCorner | Spatial.CellCenterRoundTrip |
