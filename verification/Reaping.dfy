/** When idle egress edges and trigger chains are reaped, and how long the loop may
    sleep until then (members/nullnet-server/src/orchestrator.rs:705-750, :882-921,
    members/nullnet-server/src/timeout.rs:37-69). Both tables are seen through what
    the reaper reads of an entry. */
module Reaping {
  import opened Basics

  /** `built` is false while an entry is only half built (net id zero, or
      `building`); `idleSince` is absent while connections are open. */
  datatype Timer = Timer(built: bool, idleSince: Option<nat>)

  type Table<K> = map<K, Timer>

  predicate Due(t: Timer, debounce: nat, now: nat) {
    t.built && t.idleSince.Some? && Since(now, t.idleSince.value) >= debounce
  }

  predicate Ticking(t: Timer) {
    t.built && t.idleSince.Some?
  }

  /** How long until the entry is due: `debounce.saturating_sub(idle for)`. */
  function Left(t: Timer, debounce: nat, now: nat): nat
    requires Ticking(t)
  {
    var idle := Since(now, t.idleSince.value);
    if idle < debounce then debounce - idle else 0
  }

  function Reaped<K(==)>(table: Table<K>, debounce: nat, now: nat): Table<K> {
    map k | k in table && !Due(table[k], debounce, now) :: table[k]
  }

  /** `r` is how long until the first entry that is ticking becomes due. */
  ghost predicate IsNearest<K(!new)>(table: Table<K>, debounce: nat, now: nat, r: Option<nat>) {
    match r
    case None => forall k :: k in table ==> !Ticking(table[k])
    case Some(d) =>
      && (exists k :: k in table && Ticking(table[k]) && Left(table[k], debounce, now) == d)
      && (forall k :: k in table && Ticking(table[k]) ==> d <= Left(table[k], debounce, now))
  }

  method NearestExpiry<K(!new, ==)>(table: Table<K>, debounce: nat, now: nat) returns (r: Option<nat>)
    ensures IsNearest(table, debounce, now, r)
  {
    r := None;
    var keys := table.Keys;
    while keys != {}
      invariant keys <= table.Keys
      invariant IsNearest(table - keys, debounce, now, r)
      decreases |keys|
    {
      var k :| k in keys;
      ghost var seen := table - keys;
      ghost var before := r;
      keys := keys - {k};
      if Ticking(table[k]) {
        var left := Left(table[k], debounce, now);
        if r.None? || left < r.value {
          r := Some(left);
        }
      }
      OneMore(seen, k, table[k], debounce, now, before, r);
      assert table - keys == seen[k := table[k]];
    }
    assert table - keys == table;
  }

  lemma OneMore<K(!new)>(seen: Table<K>, k: K, t: Timer, debounce: nat, now: nat, before: Option<nat>, r: Option<nat>)
    requires IsNearest(seen, debounce, now, before) && k !in seen
    requires r == if Ticking(t) && (before.None? || Left(t, debounce, now) < before.value)
                  then Some(Left(t, debounce, now)) else before
    ensures IsNearest(seen[k := t], debounce, now, r)
  {
    var more := seen[k := t];
    if Ticking(t) && (before.None? || Left(t, debounce, now) < before.value) {
      assert k in more && more[k] == t;
    } else if before.Some? {
      var j :| j in seen && Ticking(seen[j]) && Left(seen[j], debounce, now) == before.value;
      assert j in more && more[j] == seen[j];
    }
  }

  /** List what is due, then take it out, one by one. */
  method TakeDue<K(!new, ==)>(table: Table<K>, debounce: nat, now: nat) returns (left: Table<K>, taken: seq<K>)
    ensures left == Reaped(table, debounce, now)
    ensures forall k :: k in taken <==> k in table && Due(table[k], debounce, now)
    ensures forall i, j :: 0 <= i < j < |taken| ==> taken[i] != taken[j]
  {
    taken := [];
    var keys := table.Keys;
    while keys != {}
      invariant keys <= table.Keys
      invariant forall k :: k in taken <==> k in table && k !in keys && Due(table[k], debounce, now)
      invariant forall i, j :: 0 <= i < j < |taken| ==> taken[i] != taken[j]
      decreases |keys|
    {
      var k :| k in keys;
      keys := keys - {k};
      if Due(table[k], debounce, now) {
        taken := taken + [k];
      }
    }
    left := table;
    for i := 0 to |taken|
      invariant left == map k | k in table && k !in taken[..i] :: table[k]
    {
      left := left - {taken[i]};
    }
  }

  // -------------------------------------------------------------------- the schedule

  /** The loop is told not to sleep exactly when a reap now would remove something. */
  lemma ZeroIffReaps<K(!new)>(table: Table<K>, debounce: nat, now: nat, r: Option<nat>)
    requires IsNearest(table, debounce, now, r)
    ensures r == Some(0) <==> Reaped(table, debounce, now) != table
  {
  }

  /** After a reap, nothing is due at that instant, so the loop does not spin. */
  lemma ReapLeavesNothingDue<K(!new)>(table: Table<K>, debounce: nat, now: nat, r: Option<nat>)
    requires IsNearest(Reaped(table, debounce, now), debounce, now, r)
    ensures r.None? || r.value > 0
    ensures Reaped(Reaped(table, debounce, now), debounce, now) == Reaped(table, debounce, now)
  {
  }

  ghost function Built<K(!new)>(table: Table<K>): Table<K> {
    map k | k in table && table[k].built :: table[k]
  }

  /** Half-built entries change neither the sleep nor what a reap removes. */
  lemma HalfBuiltIsIgnored<K(!new)>(table: Table<K>, debounce: nat, now: nat, r: Option<nat>)
    ensures IsNearest(table, debounce, now, r) <==> IsNearest(Built(table), debounce, now, r)
    ensures forall k :: k in table && !table[k].built ==> k in Reaped(table, debounce, now)
    ensures Built(Reaped(table, debounce, now)) == Reaped(Built(table), debounce, now)
  {
    var built := Built(table);
    assert forall k :: k in table && Ticking(table[k]) <==> k in built && Ticking(built[k]);
    if r.Some? {
      if IsNearest(table, debounce, now, r) {
        var k :| k in table && Ticking(table[k]) && Left(table[k], debounce, now) == r.value;
        assert k in built && built[k] == table[k];
      }
      if IsNearest(built, debounce, now, r) {
        var k :| k in built && Ticking(built[k]) && Left(built[k], debounce, now) == r.value;
        assert k in table && built[k] == table[k];
      }
    }
  }

  /** No entry is idle from the future on. */
  ghost predicate Settled<K(!new)>(table: Table<K>, now: nat) {
    forall k :: k in table && table[k].idleSince.Some? ==> table[k].idleSince.value <= now
  }

  /** For a table that does not change, the nearest expiry is exact: a reap removes
      something from then on, and not before. */
  lemma ExpiryIsExact<K(!new)>(table: Table<K>, debounce: nat, now: nat, r: Option<nat>, at: nat)
    requires IsNearest(table, debounce, now, r) && Settled(table, now) && now <= at
    ensures Reaped(table, debounce, at) != table <==> r.Some? && now + r.value <= at
  {
  }

  // --------------------------------------------------------- what happens meanwhile

  /** What other tasks do to a table while the loop sleeps; none of it wakes the loop. */
  datatype Change<K> =
    | EntryReserved(key: K)                            // half built
    | EntryBuilt(key: K)
    | LivenessReported(key: K, active: bool, at: nat)  // connections opened, or the last closed
    | EntryDropped(key: K)

  function Changed<K(==)>(t: Table<K>, c: Change<K>): Table<K> {
    match c
    case EntryReserved(k) => t[k := Timer(false, None)]
    case EntryBuilt(k) => if k in t then t[k := t[k].(built := true)] else t
    case LivenessReported(k, active, at) =>
      if k in t then t[k := t[k].(idleSince := if active then None else Some(at))] else t
    case EntryDropped(k) => t - {k}
  }

  function After<K(==)>(table: Table<K>, changes: seq<Change<K>>): Table<K> {
    if changes == [] then table else Changed(After(table, changes[..|changes| - 1]), changes[|changes| - 1])
  }

  lemma AfterMore<K(!new)>(table: Table<K>, changes: seq<Change<K>>, c: Change<K>)
    ensures After(table, changes + [c]) == Changed(After(table, changes), c)
  {
    assert (changes + [c])[..|changes|] == changes;
  }

  /** A new entry whose last connection closes at once. */
  function Arrives<K>(k: K, at: nat): seq<Change<K>> {
    [EntryReserved(k)] + [EntryBuilt(k)] + [LivenessReported(k, false, at)]
  }

  lemma ArrivesIdle<K(!new)>(table: Table<K>, k: K, at: nat)
    ensures After(table, Arrives(k, at)) == table[k := Timer(true, Some(at))]
  {
    AfterMore(table, [], EntryReserved(k));
    AfterMore(table, [EntryReserved(k)], EntryBuilt(k));
    AfterMore(table, [EntryReserved(k)] + [EntryBuilt(k)], LivenessReported(k, false, at));
    assert [] + [EntryReserved(k)] == [EntryReserved(k)];
  }

  /** The reports are made between two instants. */
  ghost predicate During<K(!new)>(changes: seq<Change<K>>, now: nat, at: nat) {
    forall i :: 0 <= i < |changes| && changes[i].LivenessReported? ==> now <= changes[i].at <= at
  }

  ghost predicate NoneDue<K(!new)>(table: Table<K>, debounce: nat, at: nat) {
    forall k :: k in table ==> !Due(table[k], debounce, at)
  }

  /** How long an idle entry has left, whether or not its build is finished. */
  function LeftIdle(t: Timer, debounce: nat, now: nat): nat
    requires t.idleSince.Some?
  {
    Left(t.(built := true), debounce, now)
  }

  /** An entry found later is idle since a report made meanwhile, or since before and
      then it was there already, idle since the same instant. */
  lemma {:induction false} IdlenessIsOldOrNew<K(!new)>(table: Table<K>, changes: seq<Change<K>>, now: nat, at: nat, k: K)
    requires During(changes, now, at) && k in After(table, changes) && After(table, changes)[k].idleSince.Some?
    ensures
      var e := After(table, changes)[k];
      now <= e.idleSince.value <= at || (k in table && table[k].idleSince == e.idleSince)
  {
    if changes != [] {
      var n := |changes| - 1;
      assert changes[n].LivenessReported? ==> now <= changes[n].at <= at;
      assert During(changes[..n], now, at);
      if k in After(table, changes[..n]) && After(table, changes[..n])[k].idleSince.Some? {
        IdlenessIsOldOrNew(table, changes[..n], now, at, k);
      }
    }
  }

  /** No change of the table can make anything due before the loop wakes. */
  ghost predicate Punctual<K(!new)>(table: Table<K>, debounce: nat, now: nat, sleep: nat) {
    forall changes: seq<Change<K>>, at: nat ::
      now <= at < now + sleep && During(changes, now, at) ==> NoneDue(After(table, changes), debounce, at)
  }

  /** The loop sleeps no longer than the debounce, and than any idle entry has left,
      half built ones included. */
  ghost predicate ShortEnough<K(!new)>(table: Table<K>, debounce: nat, now: nat, sleep: nat) {
    && sleep <= debounce
    && forall k :: k in table && table[k].idleSince.Some? ==> sleep <= LeftIdle(table[k], debounce, now)
  }

  lemma ShortEnoughIsPunctual<K(!new)>(table: Table<K>, debounce: nat, now: nat, sleep: nat)
    requires Settled(table, now) && ShortEnough(table, debounce, now, sleep)
    ensures Punctual(table, debounce, now, sleep)
  {
    forall changes: seq<Change<K>>, at: nat | now <= at < now + sleep && During(changes, now, at)
      ensures NoneDue(After(table, changes), debounce, at)
    {
      forall k | k in After(table, changes)
        ensures !Due(After(table, changes)[k], debounce, at)
      {
        if After(table, changes)[k].idleSince.Some? {
          IdlenessIsOldOrNew(table, changes, now, at, k);
        }
      }
    }
  }

  /** A report right after the table was read is due before a sleep longer than the
      debounce ends. */
  lemma EarlyReportIsMissed<K(!new)>(table: Table<K>, debounce: nat, now: nat, sleep: nat, k: K)
    requires debounce < sleep
    ensures !Punctual(table, debounce, now, sleep)
  {
    ArrivesIdle(table, k, now);
    var t := After(table, Arrives(k, now));
    assert t[k] == Timer(true, Some(now));
    assert During(Arrives(k, now), now, now + debounce) && !NoneDue(t, debounce, now + debounce);
  }

  /** So is an idle entry whose build finishes meanwhile and that has less time left. */
  lemma LateBuildIsMissed<K(!new)>(table: Table<K>, debounce: nat, now: nat, sleep: nat, k: K)
    requires Settled(table, now) && k in table && table[k].idleSince.Some? && LeftIdle(table[k], debounce, now) < sleep
    ensures !Punctual(table, debounce, now, sleep)
  {
    var changes, at := [EntryBuilt(k)], now + LeftIdle(table[k], debounce, now);
    AfterMore(table, [], EntryBuilt(k));
    assert [] + [EntryBuilt(k)] == changes;
    var t := After(table, changes);
    assert t[k] == table[k].(built := true);
    assert During(changes, now, at) && !NoneDue(t, debounce, at);
  }

  /** The loop cannot be made to sleep past a due entry if and only if its sleep is
      short enough for reports to come and for half-built entries to be finished. */
  lemma PunctualIff<K(!new)>(table: Table<K>, debounce: nat, now: nat, sleep: nat, some: K)
    requires Settled(table, now)
    ensures Punctual(table, debounce, now, sleep) <==> ShortEnough(table, debounce, now, sleep)
  {
    if ShortEnough(table, debounce, now, sleep) {
      ShortEnoughIsPunctual(table, debounce, now, sleep);
    } else if debounce < sleep {
      EarlyReportIsMissed(table, debounce, now, sleep, some);
    } else {
      var k :| k in table && table[k].idleSince.Some? && LeftIdle(table[k], debounce, now) < sleep;
      LateBuildIsMissed(table, debounce, now, sleep, k);
    }
  }

  /** How late an entry is that is due when the loop wakes. One reported meanwhile is
      overdue by no more than the sleep exceeds the debounce. One that was idle before
      becomes due at that very instant, unless the loop did not sleep or the entry was
      half built when the table was read. */
  lemma LatenessIsBounded<K(!new)>(table: Table<K>, debounce: nat, now: nat, r: Option<nat>, sleep: nat,
                                   changes: seq<Change<K>>, k: K)
    requires Settled(table, now) && IsNearest(table, debounce, now, r) && (r.Some? ==> sleep <= r.value)
    requires During(changes, now, now + sleep)
    requires k in After(table, changes) && Due(After(table, changes)[k], debounce, now + sleep)
    ensures
      var since := After(table, changes)[k].idleSince.value;
      var overdue := now + sleep - (since + debounce);
      if now <= since && !(k in table && table[k].idleSince == Some(since)) then overdue <= sleep - debounce
      else k in table && table[k].idleSince == Some(since) && (table[k].built ==> overdue == 0 || sleep == 0)
  {
    IdlenessIsOldOrNew(table, changes, now, now + sleep, k);
  }

  // ------------------------------------------------------------------ the whole loop

  const MAX_POLL_INTERVAL: nat := 60 * SECOND
  const LIVENESS_REAP_DEBOUNCE: nat := 30 * SECOND

  function MinWait(x: nat, y: Option<nat>): nat {
    if y.Some? && y.value < x then y.value else x
  }

  /** The loop sleeps until the first of the ingress deadlines and the two tables. */
  function SleepFor(ingress: nat, egress: Option<nat>, backend: Option<nat>): nat {
    MinWait(MinWait(ingress, egress), backend)
  }

  /** If neither table changes, nothing is due in them while the loop sleeps, and if it
      sleeps less than the ingress deadline allows, something is when it wakes. */
  lemma LoopIsExactAtRest<K(!new), L(!new)>(edges: Table<K>, chains: Table<L>, ingress: nat, debounce: nat, now: nat,
                                            egress: Option<nat>, backend: Option<nat>, at: nat)
    requires IsNearest(edges, debounce, now, egress) && IsNearest(chains, debounce, now, backend)
    requires Settled(edges, now) && Settled(chains, now)
    ensures
      var sleep := SleepFor(ingress, egress, backend);
      && (now <= at < now + sleep ==> Reaped(edges, debounce, at) == edges && Reaped(chains, debounce, at) == chains)
      && (sleep < ingress && at == now + sleep ==>
            Reaped(edges, debounce, at) != edges || Reaped(chains, debounce, at) != chains)
  {
    if now <= at {
      ExpiryIsExact(edges, debounce, now, egress, at);
      ExpiryIsExact(chains, debounce, now, backend, at);
    }
  }

  /** With reports and builds going on, the loop is sure not to sleep past a due entry
      of either table if and only if its sleep is no longer than the debounce and than
      any idle entry, half built ones included, has left. */
  lemma LoopIsPunctualIff<K(!new), L(!new)>(edges: Table<K>, chains: Table<L>, ingress: nat, debounce: nat, now: nat,
                                            egress: Option<nat>, backend: Option<nat>, edge: K, chain: L)
    requires IsNearest(edges, debounce, now, egress) && IsNearest(chains, debounce, now, backend)
    requires Settled(edges, now) && Settled(chains, now)
    ensures
      var sleep := SleepFor(ingress, egress, backend);
      Punctual(edges, debounce, now, sleep) && Punctual(chains, debounce, now, sleep)
      <==> ShortEnough(edges, debounce, now, sleep) && ShortEnough(chains, debounce, now, sleep)
  {
    var sleep := SleepFor(ingress, egress, backend);
    PunctualIff(edges, debounce, now, sleep, edge);
    PunctualIff(chains, debounce, now, sleep, chain);
  }

  /** The loop does oversleep: with nothing idle it sleeps a minute, so an edge that
      goes idle one second in is due at 31 seconds and still there at 59. */
  lemma LoopOversleeps(edge: nat)
    ensures
      var none: Table<nat> := map[];
      var debounce := LIVENESS_REAP_DEBOUNCE;
      var sleep := SleepFor(MAX_POLL_INTERVAL, None, None);
      var later := After(none, Arrives(edge, SECOND));
      && IsNearest(none, debounce, 0, None) && sleep == 60 * SECOND
      && During(Arrives(edge, SECOND), 0, 31 * SECOND)
      && edge in later
      && forall at :: SECOND <= at < sleep ==> (Due(later[edge], debounce, at) <==> 31 * SECOND <= at)
  {
    ArrivesIdle(map[], edge, SECOND);
  }

  /** It never oversleeps a report by more than half a minute: whatever is reported
      while it sleeps and due when it wakes was reported at most a minute before. */
  lemma ReportsWaitAtMostAMinute<K(!new)>(table: Table<K>, now: nat, r: Option<nat>, ingress: nat, other: Option<nat>,
                                          changes: seq<Change<K>>, k: K)
    requires Settled(table, now) && IsNearest(table, LIVENESS_REAP_DEBOUNCE, now, r) && ingress <= MAX_POLL_INTERVAL
    requires
      var wake := now + SleepFor(ingress, r, other);
      && During(changes, now, wake)
      && k in After(table, changes) && Due(After(table, changes)[k], LIVENESS_REAP_DEBOUNCE, wake)
      && !(k in table && table[k].idleSince == After(table, changes)[k].idleSince)
    ensures
      var wake := now + SleepFor(ingress, r, other);
      wake - (After(table, changes)[k].idleSince.value + LIVENESS_REAP_DEBOUNCE) <= 30 * SECOND
  {
    var sleep := SleepFor(ingress, r, other);
    LatenessIsBounded(table, LIVENESS_REAP_DEBOUNCE, now, r, sleep, changes, k);
  }
}
