/**
 * Health reporting: a Horizon server's health snapshot and Atlas's
 * aggregation of many snapshots into one cluster summary.
 */
module Health {
  import opened Primitives
  import Server

  /** Overall health of a service. */
  datatype HealthStatus = Healthy | Degraded | Unhealthy | Unknown
  {
    /** `Default for HealthStatus`: no recent check. */
    static function Default(): (s: HealthStatus)
      ensures s.Unknown?
    {
      Unknown
    }

    /** A service is operational unless it is unhealthy or its state is unknown. */
    function IsOperational(): (r: bool)
      ensures r <==> !(this == Unhealthy || this == Unknown)
    {
      this == Healthy || this == Degraded
    }
  }

  /** Health of one component of a server. */
  datatype ComponentHealth = ComponentHealth(
    name: string,
    status: HealthStatus,
    details: Option<string>,
    responseTimeMs: Option<uint64>)
  {
    /** `ComponentHealth::healthy`. */
    static function Healthy(name: string): (c: ComponentHealth)
      ensures c.status.IsOperational() && c.details == None
      ensures c.name == name && c.status == HealthStatus.Healthy && c.responseTimeMs == None
    {
      ComponentHealth(name, HealthStatus.Healthy, None, None)
    }

    /** `ComponentHealth::unhealthy`. */
    static function Unhealthy(name: string, details: string): (c: ComponentHealth)
      ensures !c.status.IsOperational() && c.details == Some(details)
      ensures c.name == name && c.status == HealthStatus.Unhealthy && c.responseTimeMs == None
    {
      ComponentHealth(name, HealthStatus.Unhealthy, Some(details), None)
    }
  }

  /** A detailed health snapshot reported by one Horizon server. */
  datatype HealthCheck = HealthCheck(
    serverId: Server.ServerId,
    status: HealthStatus,
    timestamp: Timestamp,
    playerCount: uint32,
    capacity: uint32,
    uptimeSecs: uint64,
    tickRate: real,
    memoryMb: uint32,
    cpuPercent: real,
    components: seq<ComponentHealth>,
    message: Option<string>)
  {
    /** `HealthCheck::healthy`, with the snapshot instant supplied as `now`. */
    static function Healthy(serverId: Server.ServerId, playerCount: uint32, capacity: uint32, now: Timestamp): (h: HealthCheck)
      ensures h.status == HealthStatus.Healthy && h.message == None
      ensures h.serverId == serverId && h.playerCount == playerCount && h.capacity == capacity
      ensures h.timestamp == now && h.tickRate == 60.0 && h.components == []
      ensures h.uptimeSecs == 0 && h.memoryMb == 0 && h.cpuPercent == 0.0
    {
      HealthCheck(serverId, HealthStatus.Healthy, now, playerCount, capacity, 0, 60.0, 0, 0.0, [], None)
    }

    /** `HealthCheck::unhealthy`, with the snapshot instant supplied as `now`. */
    static function Unhealthy(serverId: Server.ServerId, message: string, now: Timestamp): (h: HealthCheck)
      ensures h.status == HealthStatus.Unhealthy && h.message == Some(message)
      ensures h.playerCount == 0 && h.capacity == 0 && h.LoadFactor() == 0.0
      ensures h.serverId == serverId && h.timestamp == now && h.tickRate == 0.0 && h.components == []
      ensures h.uptimeSecs == 0 && h.memoryMb == 0 && h.cpuPercent == 0.0
    {
      HealthCheck(serverId, HealthStatus.Unhealthy, now, 0, 0, 0, 0.0, 0, 0.0, [], Some(message))
    }

    /** Players over capacity, guarded against a zero capacity. */
    function LoadFactor(): (r: real)
      ensures r >= 0.0
      ensures capacity == 0 ==> r == 0.0
      ensures capacity != 0 ==> r * capacity as real == playerCount as real
      ensures playerCount <= capacity ==> r <= 1.0
    {
      Server.Load(playerCount, capacity)
    }
  }

  /** Which flags a health request asks for. */
  datatype HealthCheckRequest = HealthCheckRequest(includeComponents: bool, includeMetrics: bool)
  {
    /** `Default for HealthCheckRequest`: neither components nor metrics. */
    static function Default(): (r: HealthCheckRequest)
      ensures !r.includeComponents && !r.includeMetrics
    {
      HealthCheckRequest(false, false)
    }
  }

  /*
   * The five counters `ClusterHealth::new` keeps, as unbounded numbers, and
   * their value over a list of checks, defined by folding from the left.
   */

  datatype Totals = Totals(healthy: nat, degraded: nat, unhealthy: nat, players: nat, capacity: nat)

  function Plus(a: Totals, b: Totals): Totals {
    Totals(a.healthy + b.healthy, a.degraded + b.degraded, a.unhealthy + b.unhealthy,
           a.players + b.players, a.capacity + b.capacity)
  }

  lemma PlusAssociative(x: Totals, y: Totals, z: Totals)
    ensures Plus(Plus(x, y), z) == Plus(x, Plus(y, z))
  {
  }

  lemma PlusSwap(x: Totals, y: Totals, z: Totals)
    ensures Plus(Plus(x, y), z) == Plus(Plus(x, z), y)
  {
  }

  /** The counter a status is tallied under: 0 healthy, 1 degraded, 2 unhealthy. */
  function Bucket(s: HealthStatus): (b: nat)
    ensures b < 3
    ensures b == 0 <==> s == Healthy
    ensures b == 1 <==> s == Degraded
    ensures b == 2 <==> !s.IsOperational()
  {
    match s
    case Healthy => 0
    case Degraded => 1
    case Unhealthy | Unknown => 2
  }

  function Count(t: Totals, b: nat): nat {
    if b == 0 then t.healthy else if b == 1 then t.degraded else t.unhealthy
  }

  /** What one check adds to the counters. */
  function Contribution(c: HealthCheck): (t: Totals)
    ensures forall b :: 0 <= b < 3 ==> Count(t, b) == if Bucket(c.status) == b then 1 else 0
  {
    match c.status
    case Healthy => Totals(1, 0, 0, c.playerCount, c.capacity)
    case Degraded => Totals(0, 1, 0, c.playerCount, c.capacity)
    case Unhealthy | Unknown => Totals(0, 0, 1, c.playerCount, c.capacity)
  }

  /** The counters after the loop of `ClusterHealth::new` has seen `checks`. */
  function Tally(checks: seq<HealthCheck>): (t: Totals)
    ensures t.healthy + t.degraded + t.unhealthy == |checks|
  {
    if checks == [] then Totals(0, 0, 0, 0, 0)
    else Plus(Tally(checks[..|checks| - 1]), Contribution(checks[|checks| - 1]))
  }

  lemma DropLastOfConcat<T>(a: seq<T>, b: seq<T>)
    requires b != []
    ensures (a + b)[..|a + b| - 1] == a + b[..|b| - 1]
    ensures (a + b)[|a + b| - 1] == b[|b| - 1]
  {
  }

  /** Tallying is additive over concatenation. */
  lemma {:induction false} TallyConcat(a: seq<HealthCheck>, b: seq<HealthCheck>)
    ensures Tally(a + b) == Plus(Tally(a), Tally(b))
  {
    if b == [] {
      assert a + b == a;
    } else {
      var ab, n := a + b, |b| - 1;
      DropLastOfConcat(a, b);
      assert Tally(ab) == Plus(Tally(a + b[..n]), Contribution(b[n]));
      TallyConcat(a, b[..n]);
      assert Tally(b) == Plus(Tally(b[..n]), Contribution(b[n]));
      PlusAssociative(Tally(a), Tally(b[..n]), Contribution(b[n]));
    }
  }

  lemma PrefixStep<T>(s: seq<T>, i: nat)
    requires i < |s|
    ensures s[..i + 1] != [] && s[..i + 1][..i] == s[..i] && s[..i + 1][i] == s[i]
  {
  }

  lemma TakeAll<T>(s: seq<T>)
    ensures s[..|s|] == s
  {
  }

  /** Extending a prefix by one check adds that check's share. */
  lemma TallyStep(checks: seq<HealthCheck>, i: nat)
    requires i < |checks|
    ensures Tally(checks[..i + 1]) == Plus(Tally(checks[..i]), Contribution(checks[i]))
  {
    PrefixStep(checks, i);
  }

  /** Every counter of a prefix is at most the counter of the whole list. */
  lemma TallyPrefixBounded(checks: seq<HealthCheck>, i: nat)
    requires i <= |checks|
    ensures var p, t := Tally(checks[..i]), Tally(checks);
      p.healthy <= t.healthy && p.degraded <= t.degraded && p.unhealthy <= t.unhealthy &&
      p.players <= t.players && p.capacity <= t.capacity
  {
    assert checks == checks[..i] + checks[i..];
    TallyConcat(checks[..i], checks[i..]);
  }

  /** While `ClusterHealth::new` runs, each counter stays within `u32`. */
  lemma TallyStepFits(checks: seq<HealthCheck>, i: nat, before: Totals)
    requires FitsUint32(checks) && i < |checks| && before == Tally(checks[..i])
    ensures var after := Plus(before, Contribution(checks[i]));
      after == Tally(checks[..i + 1]) &&
      after.healthy < UINT32_LIMIT && after.degraded < UINT32_LIMIT && after.unhealthy < UINT32_LIMIT &&
      after.players < UINT32_LIMIT && after.capacity < UINT32_LIMIT
  {
    TallyStep(checks, i);
    TallyPrefixBounded(checks, i + 1);
  }

  /** A check under counter `b` makes that counter positive. */
  lemma TallyCountOfMember(checks: seq<HealthCheck>, b: nat, i: nat)
    requires b < 3 && i < |checks| && Bucket(checks[i].status) == b
    ensures Count(Tally(checks), b) > 0
  {
    TallyStep(checks, i);
    TallyPrefixBounded(checks, i + 1);
  }

  /** A counter is positive exactly when some check falls under it. */
  lemma {:induction false} TallyCountWitness(checks: seq<HealthCheck>, b: nat)
    requires b < 3
    ensures Count(Tally(checks), b) > 0 <==> exists i :: 0 <= i < |checks| && Bucket(checks[i].status) == b
  {
    if exists i :: 0 <= i < |checks| && Bucket(checks[i].status) == b {
      var i :| 0 <= i < |checks| && Bucket(checks[i].status) == b;
      TallyCountOfMember(checks, b, i);
    } else if checks != [] {
      var n := |checks| - 1;
      var init := checks[..n];
      assert Tally(checks) == Plus(Tally(init), Contribution(checks[n]));
      forall i | 0 <= i < |init|
        ensures Bucket(init[i].status) != b
      {
        assert init[i] == checks[i];
      }
      TallyCountWitness(init, b);
    }
  }

  /** A counter equals the number of checks exactly when every check falls under it. */
  lemma TallyCountAll(checks: seq<HealthCheck>, b: nat)
    requires b < 3
    ensures Count(Tally(checks), b) == |checks| <==> forall i :: 0 <= i < |checks| ==> Bucket(checks[i].status) == b
  {
    TallyCountWitness(checks, 0);
    TallyCountWitness(checks, 1);
    TallyCountWitness(checks, 2);
  }

  /** Reordering the checks does not change any counter. */
  lemma {:induction false} TallyPermutation(a: seq<HealthCheck>, b: seq<HealthCheck>)
    requires multiset(a) == multiset(b)
    ensures Tally(a) == Tally(b)
  {
    if a == [] {
      assert |b| == |multiset(b)| == 0;
    } else {
      var n := |a| - 1;
      var x := a[n];
      RemoveAt(a, n);
      assert a[..n] + a[n + 1..] == a[..n];
      assert x in multiset(b);
      var j :| 0 <= j < |b| && b[j] == x;
      var rest := b[..j] + b[j + 1..];
      RemoveAt(b, j);
      assert multiset(a[..n]) == multiset(a) - multiset{x} == multiset(b) - multiset{x} == multiset(rest);
      TallyPermutation(a[..n], rest);
      TallyRemoveAt(a, n);
      TallyRemoveAt(b, j);
    }
  }

  /** Taking element `j` out of a list removes one occurrence of it from the multiset. */
  lemma RemoveAt<T>(s: seq<T>, j: nat)
    requires j < |s|
    ensures multiset(s) == multiset(s[..j] + s[j + 1..]) + multiset{s[j]}
  {
    assert s == s[..j] + [s[j]] + s[j + 1..];
  }

  lemma SplitAt<T>(s: seq<T>, j: nat)
    requires j < |s|
    ensures s == (s[..j] + [s[j]]) + s[j + 1..]
  {
  }

  /** Tallying a list is tallying it without element `j`, plus that element's share. */
  lemma TallyRemoveAt(s: seq<HealthCheck>, j: nat)
    requires j < |s|
    ensures Tally(s) == Plus(Tally(s[..j] + s[j + 1..]), Contribution(s[j]))
  {
    var x, p, q := s[j], s[..j], s[j + 1..];
    SplitAt(s, j);
    TallyConcat(p + [x], q);
    TallyConcat(p, [x]);
    TallyConcat(p, q);
    TallySingle(x);
    PlusSwap(Tally(p), Contribution(x), Tally(q));
  }

  lemma TallySingle(x: HealthCheck)
    ensures Tally([x]) == Contribution(x)
  {
    assert [x][..0] == [];
  }

  /** The aggregate status decision of `ClusterHealth::new`, as written. */
  function StatusFromCounts(healthy: nat, degraded: nat, unhealthy: nat): (s: HealthStatus)
    ensures s == Unknown <==> healthy == 0 && degraded == 0 && unhealthy == 0
    ensures s == Healthy <==> healthy > 0 && degraded == 0 && unhealthy == 0
  {
    if unhealthy > 0 && healthy == 0 then Unhealthy
    else if degraded > 0 || unhealthy > 0 then Degraded
    else if healthy > 0 then Healthy
    else Unknown
  }

  /** Some check has status `s`. */
  predicate SomeCheck(checks: seq<HealthCheck>, s: HealthStatus) {
    exists i :: 0 <= i < |checks| && checks[i].status == s
  }

  /** Some check is unhealthy or of unknown health. */
  predicate SomeDown(checks: seq<HealthCheck>) {
    exists i :: 0 <= i < |checks| && !checks[i].status.IsOperational()
  }

  /** The aggregate status over a list of checks. */
  function AggregateStatus(checks: seq<HealthCheck>): HealthStatus {
    var t := Tally(checks);
    StatusFromCounts(t.healthy, t.degraded, t.unhealthy)
  }

  /**
   * The four outcomes of the aggregate status, each stated directly on the
   * checks.
   */
  lemma AggregateStatusCases(checks: seq<HealthCheck>)
    ensures AggregateStatus(checks) == Unknown <==> checks == []
    ensures AggregateStatus(checks) == Unhealthy <==> SomeDown(checks) && !SomeCheck(checks, Healthy)
    ensures AggregateStatus(checks) == Healthy
        <==> checks != [] && forall i :: 0 <= i < |checks| ==> checks[i].status == Healthy
    ensures AggregateStatus(checks) == Degraded
        <==> ((!SomeDown(checks) && SomeCheck(checks, Degraded))
              || (SomeDown(checks) && SomeCheck(checks, Healthy)))
  {
    TallyCountWitness(checks, 0);
    TallyCountWitness(checks, 1);
    TallyCountWitness(checks, 2);
    TallyCountAll(checks, 0);
    assert SomeCheck(checks, Healthy) <==> Count(Tally(checks), 0) > 0 by {
      if SomeCheck(checks, Healthy) {
        var i :| 0 <= i < |checks| && checks[i].status == Healthy;
        assert Bucket(checks[i].status) == 0;
      }
    }
    assert SomeCheck(checks, Degraded) <==> Count(Tally(checks), 1) > 0 by {
      if SomeCheck(checks, Degraded) {
        var i :| 0 <= i < |checks| && checks[i].status == Degraded;
        assert Bucket(checks[i].status) == 1;
      }
    }
    assert SomeDown(checks) <==> Count(Tally(checks), 2) > 0 by {
      if SomeDown(checks) {
        var i :| 0 <= i < |checks| && !checks[i].status.IsOperational();
        assert Bucket(checks[i].status) == 2;
      }
    }
  }

  /** Whether every counter of `ClusterHealth::new` stays within `u32`. */
  predicate FitsUint32(checks: seq<HealthCheck>) {
    var t := Tally(checks);
    t.healthy < UINT32_LIMIT && t.degraded < UINT32_LIMIT && t.unhealthy < UINT32_LIMIT &&
    t.players < UINT32_LIMIT && t.capacity < UINT32_LIMIT
  }

  /** The aggregated health of all servers, as Atlas reports it. */
  datatype ClusterHealth = ClusterHealth(
    status: HealthStatus,
    healthyServers: uint32,
    degradedServers: uint32,
    unhealthyServers: uint32,
    totalPlayers: uint32,
    totalCapacity: uint32,
    timestamp: Timestamp)
  {
    /**
     * `ClusterHealth::new`: one pass over the checks updating five counters,
     * then the status decision. The aggregation instant is supplied as `now`.
     */
    static method New(checks: seq<HealthCheck>, now: Timestamp) returns (c: ClusterHealth)
      requires FitsUint32(checks)
      ensures c == Summary(checks, now)
    {
      var healthy: uint32, degraded: uint32, unhealthy: uint32 := 0, 0, 0;
      var totalPlayers: uint32, totalCapacity: uint32 := 0, 0;
      for i := 0 to |checks|
        invariant Totals(healthy, degraded, unhealthy, totalPlayers, totalCapacity) == Tally(checks[..i])
      {
        var check := checks[i];
        TallyStepFits(checks, i, Totals(healthy, degraded, unhealthy, totalPlayers, totalCapacity));
        match check.status {
          case Healthy => healthy := healthy + 1;
          case Degraded => degraded := degraded + 1;
          case Unhealthy | Unknown => unhealthy := unhealthy + 1;
        }
        totalPlayers := totalPlayers + check.playerCount;
        totalCapacity := totalCapacity + check.capacity;
      }
      TakeAll(checks);
      var status := StatusFromCounts(healthy, degraded, unhealthy);
      c := ClusterHealth(status, healthy, degraded, unhealthy, totalPlayers, totalCapacity, now);
    }

    /** Total players over total capacity, guarded against a zero capacity. */
    function LoadFactor(): (r: real)
      ensures r >= 0.0
      ensures totalCapacity == 0 ==> r == 0.0
      ensures totalCapacity != 0 ==> r * totalCapacity as real == totalPlayers as real
      ensures totalPlayers <= totalCapacity ==> r <= 1.0
    {
      Server.Load(totalPlayers, totalCapacity)
    }
  }

  /** The summary `ClusterHealth::new` computes. */
  function Summary(checks: seq<HealthCheck>, now: Timestamp): (c: ClusterHealth)
    requires FitsUint32(checks)
    ensures c.healthyServers + c.degradedServers + c.unhealthyServers == |checks|
    ensures c.status == AggregateStatus(checks) && c.timestamp == now
  {
    var t := Tally(checks);
    ClusterHealth(StatusFromCounts(t.healthy, t.degraded, t.unhealthy),
                  t.healthy, t.degraded, t.unhealthy, t.players, t.capacity, now)
  }

  /** The summary, apart from its timestamp, does not depend on the order of the checks. */
  lemma SummaryPermutation(a: seq<HealthCheck>, b: seq<HealthCheck>, now: Timestamp)
    requires multiset(a) == multiset(b) && FitsUint32(a)
    ensures FitsUint32(b) && Summary(a, now) == Summary(b, now)
  {
    TallyPermutation(a, b);
    assert |a| == |multiset(a)| == |multiset(b)| == |b|;
  }

  lemma PairPrefix<T>(x: T, y: T)
    ensures [x, y][..1] == [x] && [x, y][1] == y
  {
  }

  lemma TallyPair(x: HealthCheck, y: HealthCheck)
    requires x.status == Healthy && y.status == Healthy
    ensures Tally([x, y]) == Totals(2, 0, 0, x.playerCount + y.playerCount, x.capacity + y.capacity)
  {
    PairPrefix(x, y);
    TallySingle(x);
  }

  /** Two healthy servers with 50 of 100 and 30 of 100 players. */
  lemma SummaryExample(id: Server.ServerId, now: Timestamp)
    ensures var checks := [HealthCheck.Healthy(id, 50, 100, now), HealthCheck.Healthy(id, 30, 100, now)];
      FitsUint32(checks) && Summary(checks, now) == ClusterHealth(Healthy, 2, 0, 0, 80, 200, now)
  {
    var c0, c1 := HealthCheck.Healthy(id, 50, 100, now), HealthCheck.Healthy(id, 30, 100, now);
    TallyPair(c0, c1);
  }

  /** That summary reports a cluster load of 0.4. */
  lemma ClusterLoadExample(now: Timestamp)
    ensures ClusterHealth(Healthy, 2, 0, 0, 80, 200, now).LoadFactor() == 0.4
  {
    var c := ClusterHealth(Healthy, 2, 0, 0, 80, 200, now);
    assert c.LoadFactor() * 200.0 == 80.0;
  }
}
