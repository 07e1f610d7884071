/**
 The shared SSH master connection of a server and the timestamp kept about it in the cache. The
 timestamp has its own expiry; a master found without one is stamped as if it were new. How long
 a master can then outlive its maximum age depends on how far apart the calls are.
 */
module SshMultiplexing {
  import opened Text

  datatype Settings = Settings(enabled: bool, healthCheck: bool, persistTime: nat, maxAge: nat) {
    /** How long the cache keeps a timestamp. */
    function MetaTtl(): nat {
      persistTime + 300
    }
  }

  const DEFAULTS := Settings(true, true, 3600, 1800)

  /** A cached value: when the connection was stamped, and when the cache forgets it. */
  datatype Stamp = Stamp(time: int, expires: int)

  /** The master connection (when it was opened) and the cached stamp. */
  datatype State = State(master: Option<int>, stamp: Option<Stamp>)

  const NO_CONNECTION := State(None, None)

  /** What the remote commands of one call report. */
  datatype Replies = Replies(healthy: bool, exitCloses: bool, established: bool)

  function CachedStamp(s: State, now: int): Option<Stamp> {
    if s.stamp.Some? && now < s.stamp.value.expires then s.stamp else None
  }

  function NewStamp(c: Settings, now: int): Option<Stamp> {
    Some(Stamp(now, now + c.MetaTtl()))
  }

  // ------------------------------------------------------------------ one call, decided at a glance

  /** Opening a master. A socket that is still served by an old master is not taken over. */
  function Opened(c: Settings, s: State, now: int, r: Replies): (State, bool) {
    if r.established then (State(if s.master.None? then Some(now) else s.master, NewStamp(c, now)), true)
    else (s, false)
  }

  /** Closing the master and forgetting its stamp. */
  function Closed(s: State, r: Replies): State {
    State(if r.exitCloses then None else s.master, None)
  }

  /** A live master is used as it is unless it is too old by its stamp, or found unhealthy. */
  function Usable(c: Settings, s: State, now: int, r: Replies): bool {
    var stamp := CachedStamp(s, now);
    && (stamp.None? || now - stamp.value.time <= c.maxAge)
    && (c.healthCheck ==> r.healthy)
  }

  function Ensured(c: Settings, s: State, now: int, r: Replies): (State, bool) {
    if !c.enabled then (s, false)
    else if s.master.None? then Opened(c, s, now, r)
    else if !Usable(c, s, now, r) then Opened(c, Closed(s, r), now, r)
    else (if CachedStamp(s, now).None? then s.(stamp := NewStamp(c, now)) else s, true)
  }

  /** A master found unhealthy is handed out only if closing it has no effect and opening reports success. */
  lemma UnhealthyHandedOutExactly(c: Settings, s: State, now: int, r: Replies)
    requires c.enabled && c.healthCheck && !r.healthy && s.master.Some? && s.master != Some(now)
    ensures var (after, ok) := Ensured(c, s, now, r);
            && (ok <==> r.established)
            && (ok && after.master == s.master <==> r.established && !r.exitCloses)
            && (r.exitCloses ==> after.master == if ok then Some(now) else None)
            && after.stamp == (if ok then Some(Stamp(now, now + c.persistTime + 300)) else None)
  {
  }

  /** A healthy master that is not too old by its stamp is handed out as it is, whatever opening would report. */
  lemma HealthyHandedOut(c: Settings, s: State, now: int, r: Replies)
    requires c.enabled && s.master.Some? && (c.healthCheck ==> r.healthy)
    requires s.stamp.Some? && now < s.stamp.value.expires ==> now - s.stamp.value.time <= c.maxAge
    ensures var (after, ok) := Ensured(c, s, now, r);
            && ok && after.master == s.master
            && after.stamp == if s.stamp.Some? && now < s.stamp.value.expires then s.stamp
                              else Some(Stamp(now, now + c.persistTime + 300))
  {
  }

  // ------------------------------------------------------------------ the helper as it runs

  class Helper {
    const settings: Settings
    var master: Option<int>
    var stamp: Option<Stamp>

    constructor (settings: Settings)
      ensures this.settings == settings && Now() == NO_CONNECTION
    {
      this.settings := settings;
      master, stamp := None, None;
    }

    function Now(): State
      reads this
    {
      State(master, stamp)
    }

    function GetConnectionAge(now: int): (age: Option<int>)
      reads this
      ensures age == match CachedStamp(Now(), now) case None => None case Some(st) => Some(now - st.time)
    {
      if stamp.None? || now >= stamp.value.expires then None else Some(now - stamp.value.time)
    }

    predicate IsConnectionExpired(now: int)
      reads this
    {
      var age := GetConnectionAge(now);
      age.Some? && age.value > settings.maxAge
    }

    method StoreConnectionMetadata(now: int)
      modifies this`stamp
      ensures stamp == NewStamp(settings, now)
    {
      stamp := Some(Stamp(now, now + settings.persistTime + 300));
    }

    method RemoveMuxFile(r: Replies)
      modifies this
      ensures Now() == Closed(old(Now()), r)
    {
      if r.exitCloses {
        master := None;
      }
      stamp := None;
    }

    method EstablishNewMultiplexedConnection(now: int, r: Replies) returns (ok: bool)
      modifies this
      ensures (Now(), ok) == Opened(settings, old(Now()), now, r)
    {
      if !r.established {
        return false;
      }
      if master.None? {
        master := Some(now);
      }
      StoreConnectionMetadata(now);
      return true;
    }

    method RefreshMultiplexedConnection(now: int, r: Replies) returns (ok: bool)
      modifies this
      ensures (Now(), ok) == Opened(settings, Closed(old(Now()), r), now, r)
    {
      RemoveMuxFile(r);
      ok := EstablishNewMultiplexedConnection(now, r);
    }

    method EnsureMultiplexedConnection(now: int, r: Replies) returns (ok: bool)
      modifies this
      ensures (Now(), ok) == Ensured(settings, old(Now()), now, r)
    {
      if !settings.enabled {
        return false;
      }
      if master.None? {
        ok := EstablishNewMultiplexedConnection(now, r);
        return;
      }
      var stamped := GetConnectionAge(now);
      if stamped.None? {
        StoreConnectionMetadata(now);
      }
      if IsConnectionExpired(now) {
        ok := RefreshMultiplexedConnection(now, r);
        return;
      }
      if settings.healthCheck && !r.healthy {
        ok := RefreshMultiplexedConnection(now, r);
        return;
      }
      return true;
    }
  }

  // ------------------------------------------------------------------ runs

  /**
   What happens over time: a call; the master going away; or a command that was told to use the
   master finding none and opening one itself.
   */
  datatype Event =
    | Call(now: int, r: Replies)
    | MasterDies(now: int)
    | CommandOpensMaster(now: int)

  /** Where a run stands: the connection, the last call, and what it answered. */
  datatype Point = Point(s: State, lastCall: Option<int>, lastOk: bool, clock: int)

  function After(c: Settings, p: Point, e: Event): Point {
    match e
    case Call(now, r) =>
      var (s, ok) := Ensured(c, p.s, now, r);
      Point(s, Some(now), ok, now)
    case MasterDies(now) => p.(s := p.s.(master := None), clock := now)
    case CommandOpensMaster(now) =>
      p.(s := p.s.(master := if p.s.master.None? then Some(now) else p.s.master), clock := now)
  }

  /** The call finds a live master and closes it, as too old by its stamp or as unhealthy. */
  predicate Closes(c: Settings, s: State, now: int, r: Replies) {
    c.enabled && s.master.Some? && !Usable(c, s, now, r)
  }

  /** Time does not run backward, calls are less than `gap` apart, and who opens a master was told to use one. */
  predicate InTime(gap: int, p: Point, e: Event) {
    && p.clock <= e.now
    && match e
       case Call(now, _) => p.lastCall.Some? ==> now - p.lastCall.value < gap
       case MasterDies(_) => true
       case CommandOpensMaster(_) => p.lastOk
  }

  /** Events of a run in which closing a master works. */
  predicate Allowed(c: Settings, gap: int, p: Point, e: Event) {
    InTime(gap, p, e) && (e.Call? && Closes(c, p.s, e.now, e.r) ==> e.r.exitCloses)
  }

  predicate AllowedRun(c: Settings, gap: int, p: Point, events: seq<Event>)
    decreases |events|
  {
    events == [] || (Allowed(c, gap, p, events[0]) && AllowedRun(c, gap, After(c, p, events[0]), events[1..]))
  }

  function AfterRun(c: Settings, p: Point, events: seq<Event>): Point
    decreases |events|
  {
    if events == [] then p else AfterRun(c, After(c, p, events[0]), events[1..])
  }

  /** The call that led here answered "use the master", and the master is older than its maximum age. */
  predicate Stale(c: Settings, p: Point) {
    p.lastOk && !(p.s.master.Some? && p.clock - p.s.master.value <= c.maxAge)
  }

  /** No call answers "use the master" for a master older than its maximum age. */
  predicate NeverStale(c: Settings, p: Point, events: seq<Event>)
    decreases |events|
  {
    events == [] || (
      var p' := After(c, p, events[0]);
      && (events[0].Call? ==> !Stale(c, p'))
      && NeverStale(c, p', events[1..]))
  }

  const START := Point(NO_CONNECTION, None, false, 0)

  /** How far apart calls may be at most. */
  function Bound(c: Settings): int {
    if c.maxAge < c.MetaTtl() then c.MetaTtl() - c.maxAge else 1
  }

  // ------------------------------------------------------------------ within the bound

  /** The stamp is never younger than the master, and the last call found it young enough. */
  predicate StampInv(c: Settings, p: Point) {
    && (p.lastOk ==>
          && p.lastCall.Some? && p.s.stamp.Some?
          && p.s.stamp.value.expires == p.s.stamp.value.time + c.MetaTtl()
          && p.lastCall.value - p.s.stamp.value.time <= c.maxAge
          && p.s.stamp.value.time <= p.clock)
    && (p.s.master.Some? ==> p.lastOk && p.s.stamp.value.time <= p.s.master.value)
  }

  /** The master is no older than the last call; enough when calls never are at different times. */
  predicate FreshInv(p: Point) {
    && (p.lastOk ==> p.lastCall.Some? && p.lastCall.value <= p.clock)
    && (p.s.master.Some? ==> p.lastOk && p.lastCall.value <= p.s.master.value)
  }

  predicate Inv(c: Settings, p: Point) {
    && (p.lastOk ==> c.enabled)
    && (c.maxAge < c.MetaTtl() ==> StampInv(c, p))
    && (c.maxAge >= c.MetaTtl() ==> FreshInv(p))
  }

  lemma InvKept(c: Settings, gap: int, p: Point, e: Event)
    requires Inv(c, p) && Allowed(c, gap, p, e) && gap <= Bound(c)
    ensures Inv(c, After(c, p, e))
    ensures e.Call? ==> !Stale(c, After(c, p, e))
  {
  }

  lemma {:induction false} RunNeverStale(c: Settings, gap: int, p: Point, events: seq<Event>)
    requires Inv(c, p) && AllowedRun(c, gap, p, events) && gap <= Bound(c)
    ensures NeverStale(c, p, events)
    ensures Inv(c, AfterRun(c, p, events))
    decreases |events|
  {
    if events != [] {
      InvKept(c, gap, p, events[0]);
      RunNeverStale(c, gap, After(c, p, events[0]), events[1..]);
    }
  }

  /**
   With calls less than (persist time + 300 - maximum age) apart, starting with no connection, no
   call in any run hands out a master older than the maximum age.
   */
  lemma NoStaleMaster(c: Settings, events: seq<Event>)
    requires AllowedRun(c, c.MetaTtl() - c.maxAge, START, events)
    ensures NeverStale(c, START, events)
  {
    RunNeverStale(c, c.MetaTtl() - c.maxAge, START, events);
  }

  /**
   What the assumption on closing is worth: after any such run the next call hands out a stale master
   exactly when there is one that is too old, the command that should close it has no effect, and
   the command that should replace it reports success.
   */
  lemma StaleCallExactly(c: Settings, gap: int, events: seq<Event>, now: int, r: Replies)
    requires AllowedRun(c, gap, START, events) && gap <= c.MetaTtl() - c.maxAge
    requires InTime(gap, AfterRun(c, START, events), Call(now, r))
    ensures var p := AfterRun(c, START, events);
            Stale(c, After(c, p, Call(now, r))) <==>
              c.enabled && p.s.master.Some? && now - p.s.master.value > c.maxAge && !r.exitCloses && r.established
  {
    RunNeverStale(c, gap, START, events);
  }

  // ------------------------------------------------------------------ beyond the bound

  lemma {:induction false} DisabledNeverStale(c: Settings, p: Point, events: seq<Event>)
    requires !c.enabled && !p.lastOk
    ensures NeverStale(c, p, events)
    decreases |events|
  {
    if events != [] {
      DisabledNeverStale(c, After(c, p, events[0]), events[1..]);
    }
  }

  const GOOD := Replies(true, true, true)

  /** A call every second up to second k; the master is as old as the run. */
  predicate Ticked(c: Settings, p: Point, k: nat) {
    && k <= c.maxAge
    && p.s.master == Some(0) && p.lastOk && p.lastCall == Some(k) && p.clock == k
    && p.s.stamp.Some? && p.s.stamp.value.expires == p.s.stamp.value.time + c.MetaTtl()
    && 0 <= p.s.stamp.value.time <= k
    && (c.maxAge < c.MetaTtl() ==> p.s.stamp.value.time == 0)
  }

  /** The call that finds the stamp expired, or restamped so often that it never gets too old. */
  function LastCall(c: Settings): Event {
    Call(if c.maxAge < c.MetaTtl() then c.MetaTtl() else c.maxAge + 1, GOOD)
  }

  lemma NextTick(c: Settings, gap: int, p: Point, k: nat)
    requires c.enabled && gap > Bound(c) && Ticked(c, p, k)
    ensures k < c.maxAge ==> Allowed(c, gap, p, Call(k + 1, GOOD)) && Ticked(c, After(c, p, Call(k + 1, GOOD)), k + 1)
    ensures k == c.maxAge ==> Allowed(c, gap, p, LastCall(c)) && Stale(c, After(c, p, LastCall(c)))
  {
  }

  lemma {:induction false} StaleFrom(c: Settings, gap: int, p: Point, k: nat)
    requires c.enabled && gap > Bound(c) && Ticked(c, p, k)
    ensures exists events :: AllowedRun(c, gap, p, events) && !NeverStale(c, p, events)
    decreases c.maxAge - k
  {
    NextTick(c, gap, p, k);
    hide Ticked;
    if k == c.maxAge {
      Prepend(c, gap, p, LastCall(c), []);
    } else {
      var e := Call(k + 1, GOOD);
      var p' := After(c, p, e);
      StaleFrom(c, gap, p', k + 1);
      var rest :| AllowedRun(c, gap, p', rest) && !NeverStale(c, p', rest);
      Prepend(c, gap, p, e, rest);
    }
  }

  lemma Prepend(c: Settings, gap: int, p: Point, e: Event, rest: seq<Event>)
    requires Allowed(c, gap, p, e) && AllowedRun(c, gap, After(c, p, e), rest)
    requires (e.Call? && Stale(c, After(c, p, e))) || !NeverStale(c, After(c, p, e), rest)
    ensures AllowedRun(c, gap, p, [e] + rest) && !NeverStale(c, p, [e] + rest)
  {
    hide Allowed;
    hide Stale;
    assert ([e] + rest)[1..] == rest;
  }

  /**
   The exact bound for all settings: no run hands out a stale master if and only if the helper is
   switched off or the gap is within the bound. For the configured constants that is 2100 seconds.
   */
  lemma BoundIsExact(c: Settings, gap: int)
    ensures (forall events | AllowedRun(c, gap, START, events) :: NeverStale(c, START, events))
       <==> !c.enabled || gap <= Bound(c)
    ensures Bound(DEFAULTS) == 2100
  {
    hide AllowedRun;
    hide NeverStale;
    if !c.enabled || gap <= Bound(c) {
      forall events | AllowedRun(c, gap, START, events)
        ensures NeverStale(c, START, events)
      {
        if c.enabled {
          RunNeverStale(c, gap, START, events);
        } else {
          DisabledNeverStale(c, START, events);
        }
      }
    } else {
      var p := After(c, START, Call(0, GOOD));
      StaleFrom(c, gap, p, 0);
      var rest :| AllowedRun(c, gap, p, rest) && !NeverStale(c, p, rest);
      Prepend(c, gap, START, Call(0, GOOD), rest);
    }
  }
}
