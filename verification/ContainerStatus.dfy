/**
 Container status strings and their aggregation into the status of a resource: a loop over the
 strings sets flags, and the first matching rule of a fixed priority list decides.
 */
module ContainerStatus {
  import opened Text

  datatype Flags = Flags(
    running: bool, restarting: bool, unhealthy: bool, unknown: bool, exited: bool,
    starting: bool, paused: bool, dead: bool, degraded: bool) {
    function Or(f: Flags): Flags {
      Flags(running || f.running, restarting || f.restarting, unhealthy || f.unhealthy, unknown || f.unknown,
            exited || f.exited, starting || f.starting, paused || f.paused, dead || f.dead, degraded || f.degraded)
    }
  }

  const NO_FLAGS := Flags(false, false, false, false, false, false, false, false, false)

  /** What one status string says. Each string speaks for the first state it mentions. */
  function FlagsOf(s: string): Flags {
    if Contains(s, "degraded") then NO_FLAGS.(degraded := true, unhealthy := Contains(s, "unhealthy"))
    else if Contains(s, "restarting") then NO_FLAGS.(restarting := true)
    else if Contains(s, "running") then
      NO_FLAGS.(running := true, unhealthy := Contains(s, "unhealthy"), unknown := Contains(s, "unknown"))
    else if Contains(s, "exited") then NO_FLAGS.(exited := true)
    else if Contains(s, "created") || Contains(s, "starting") then NO_FLAGS.(starting := true)
    else if Contains(s, "paused") then NO_FLAGS.(paused := true)
    else if Contains(s, "dead") || Contains(s, "removing") then NO_FLAGS.(dead := true)
    else NO_FLAGS
  }

  function Resolve(f: Flags, maxRestartCount: nat, preserveRestarting: bool): (r: string)
    ensures r != "" && r != "0"
  {
    if f.degraded then "degraded:unhealthy"
    else if f.restarting then (if preserveRestarting then "restarting:unknown" else "degraded:unhealthy")
    else if f.exited && maxRestartCount > 0 then "degraded:unhealthy"
    else if f.running && f.exited then "degraded:unhealthy"
    else if f.running && f.starting then "starting:unknown"
    else if f.running then
      (if f.unhealthy then "running:unhealthy" else if f.unknown then "running:unknown" else "running:healthy")
    else if f.dead then "degraded:unhealthy"
    else if f.paused then "paused:unknown"
    else if f.starting then "starting:unknown"
    else "exited"
  }

  /** A flag is up when some status of the set puts it up. */
  ghost function FlagsOfAll(statuses: set<string>): Flags {
    Flags(
      exists s | s in statuses :: FlagsOf(s).running,
      exists s | s in statuses :: FlagsOf(s).restarting,
      exists s | s in statuses :: FlagsOf(s).unhealthy,
      exists s | s in statuses :: FlagsOf(s).unknown,
      exists s | s in statuses :: FlagsOf(s).exited,
      exists s | s in statuses :: FlagsOf(s).starting,
      exists s | s in statuses :: FlagsOf(s).paused,
      exists s | s in statuses :: FlagsOf(s).dead,
      exists s | s in statuses :: FlagsOf(s).degraded)
  }

  /** The aggregated status depends on which statuses occur, not on their order or number. */
  ghost function Aggregate(statuses: set<string>, maxRestartCount: int, preserveRestarting: bool): (r: string)
    ensures r != "" && r != "0"
  {
    if statuses == {} then "exited"
    else Resolve(FlagsOfAll(statuses), if maxRestartCount < 0 then 0 else maxRestartCount, preserveRestarting)
  }

  ghost function Elements(statuses: seq<string>): set<string> {
    set s | s in statuses
  }

  method AggregateFromStrings(statuses: seq<string>, maxRestartCount: int, preserveRestarting: bool) returns (r: string)
    ensures r == Aggregate(Elements(statuses), maxRestartCount, preserveRestarting)
  {
    hide FlagsOf;
    var restarts := if maxRestartCount < 0 then 0 else maxRestartCount;
    if statuses == [] {
      return "exited";
    }
    var flags := NO_FLAGS;
    for i := 0 to |statuses|
      invariant flags == FlagsOfAll(Elements(statuses[..i]))
    {
      OneMoreStatus(statuses, i);
      flags := flags.Or(FlagsOf(statuses[i]));
    }
    assert statuses[..|statuses|] == statuses;
    assert statuses[0] in Elements(statuses);
    r := Resolve(flags, restarts, preserveRestarting);
  }

  lemma OneMoreStatus(statuses: seq<string>, i: nat)
    requires i < |statuses|
    ensures FlagsOfAll(Elements(statuses[..i + 1]))
         == FlagsOfAll(Elements(statuses[..i])).Or(FlagsOf(statuses[i]))
  {
    hide FlagsOf;
    var a := Elements(statuses[..i]);
    assert statuses[..i + 1] == statuses[..i] + [statuses[i]];
    assert Elements(statuses[..i + 1]) == a + {statuses[i]};
    UnionFlags(a, statuses[i]);
  }

  lemma UnionFlags(a: set<string>, s: string)
    ensures FlagsOfAll(a + {s}) == FlagsOfAll(a).Or(FlagsOf(s))
  {
    hide FlagsOf;
    assert s in a + {s};
    assert forall t | t in a :: t in a + {s};
  }

  /** The status of a resource whose containers are all excluded from health checks. */
  function AppendExcludedSuffix(status: string): (r: string)
    ensures status != "" ==> r != "" && r != "0"
  {
    if "degraded" <= status then "degraded:excluded"
    else if "paused" <= status then "paused:excluded"
    else if "starting" <= status then "starting:excluded"
    else if "exited" <= status then "exited"
    else status + ":excluded"
  }

  /** The status of a resource from its containers' statuses by name, leaving excluded containers out. */
  ghost function Aggregated(names: map<string, string>, excluded: set<string>): (r: string)
    ensures r != "" && r != "0"
  {
    var relevant := names - excluded;
    if relevant == map[] then AppendExcludedSuffix(Aggregate(names.Values, 0, false))
    else Aggregate(relevant.Values, 0, true)
  }

  /** The values of a map in some order. */
  method ValuesOf(m: map<string, string>) returns (values: seq<string>)
    ensures Elements(values) == m.Values
  {
    values := [];
    var todo := m.Keys;
    while todo != {}
      invariant todo <= m.Keys
      invariant forall v :: v in values <==> exists k | k in m.Keys - todo :: m[k] == v
      decreases todo
    {
      var k :| k in todo;
      values := values + [m[k]];
      todo := todo - {k};
      assert forall j :: j in m.Keys - todo <==> j == k || j in m.Keys - (todo + {k});
    }
  }

  method CalculateStatus(names: map<string, string>, excluded: set<string>) returns (r: string)
    ensures r == Aggregated(names, excluded)
  {
    var relevant := names - excluded;
    if relevant == map[] {
      var all := ValuesOf(names);
      var status := AggregateFromStrings(all, 0, false);
      return AppendExcludedSuffix(status);
    }
    var values := ValuesOf(relevant);
    r := AggregateFromStrings(values, 0, true);
  }

  /** A container counts as running when its status text mentions it. */
  predicate IsRunning(status: string) {
    Contains(status, "running")
  }

  /** Database containers in these states are tracked; all others count as gone. */
  predicate IsActiveOrTransient(status: string) {
    || Contains(status, "running") || Contains(status, "restarting") || Contains(status, "starting")
    || Contains(status, "created") || Contains(status, "paused")
  }

  /** A word without a colon stands on one side of it or on none. */
  lemma {:induction false} ContainsAround(left: string, right: string, word: string)
    requires ':' !in word && ':' !in left
    ensures Contains(left + ":" + right, word) <==> Contains(left, word) || Contains(right, word)
  {
    var s := left + ":" + right;
    PrefixStops(left, right, word);
    if left == "" {
      assert s[1..] == right;
      EmptyWord(right);
    } else {
      assert s[1..] == left[1..] + ":" + right;
      ContainsAround(left[1..], right, word);
    }
  }

  lemma PrefixStops(left: string, right: string, word: string)
    requires ':' !in word && ':' !in left
    ensures word <= left + ":" + right <==> word <= left
  {
    var s := left + ":" + right;
    assert s[|left|] == ':' && left <= s;
  }

  lemma EmptyWord(s: string)
    ensures Contains(s, "")
  {
  }

  /**
   A dead or removed container is tracked exactly when its health mentions one of the tracked states,
   although by the code's own comment it never should be. Health "starting" is such a one.
   */
  lemma GoneButTracked(health: string)
    ensures IsActiveOrTransient("dead:" + health) <==> IsActiveOrTransient(health)
    ensures IsActiveOrTransient("removing:" + health) <==> IsActiveOrTransient(health)
    ensures IsActiveOrTransient("starting")
  {
    hide IsActiveOrTransient;
    StartingIsTracked();
    NoStateIn("dead");
    NoStateIn("removing");
    StateAround("dead", health);
    StateAround("removing", health);
    assert "dead" + ":" + health == "dead:" + health;
    assert "removing" + ":" + health == "removing:" + health;
  }

  lemma StartingIsTracked()
    ensures IsActiveOrTransient("starting")
  {
    assert Contains("starting", "starting");
  }

  lemma StateAround(left: string, health: string)
    requires ':' !in left
    ensures IsActiveOrTransient(left + ":" + health) <==> IsActiveOrTransient(left) || IsActiveOrTransient(health)
  {
    hide Contains;
    ContainsAround(left, health, "running");
    ContainsAround(left, health, "restarting");
    ContainsAround(left, health, "starting");
    ContainsAround(left, health, "created");
    ContainsAround(left, health, "paused");
  }

  lemma NoStateIn(s: string)
    requires 't' !in s && 'u' !in s
    ensures !IsActiveOrTransient(s)
  {
    hide Contains;
    if Contains(s, "running") { ContainsLetter(s, "running", 'u'); }
    if Contains(s, "restarting") { ContainsLetter(s, "restarting", 't'); }
    if Contains(s, "starting") { ContainsLetter(s, "starting", 't'); }
    if Contains(s, "created") { ContainsLetter(s, "created", 't'); }
    if Contains(s, "paused") { ContainsLetter(s, "paused", 'u'); }
  }

  lemma {:induction false} ContainsLetter(s: string, sub: string, c: char)
    requires c in sub && Contains(s, sub)
    ensures c in s
  {
    if sub <= s {
      var i :| 0 <= i < |sub| && sub[i] == c;
      assert s[i] == c;
    } else {
      ContainsLetter(s[1..], sub, c);
    }
  }
}
