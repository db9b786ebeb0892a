/** Setup attempts per host (members/nullnet-server/src/congestion.rs:287-342): each
    attempt is counted when it starts and once more when it is dropped, and both
    moments feed the host's detector. */
module SetupPressures {
  import opened Basics
  import opened Pressures

  datatype Counts = Counts(arrivals: nat, completions: nat, pending: nat)

  const NO_ATTEMPTS := Counts(0, 0, 0)

  ghost predicate InRange(c: Counts) {
    c.arrivals <= U64_MAX && c.completions <= U64_MAX && c.pending <= U32_MAX
  }

  function Begin(c: Counts): Counts {
    c.(arrivals := SatAdd(c.arrivals, 1, U64_MAX), pending := SatAdd(c.pending, 1, U32_MAX))
  }

  function Finish(c: Counts): Counts {
    c.(completions := SatAdd(c.completions, 1, U64_MAX), pending := if c.pending == 0 then 0 else c.pending - 1)
  }

  ghost predicate Balanced(c: Counts) {
    c.arrivals == c.completions + c.pending
  }

  /** The counters are narrow, and saturate: starting an attempt keeps them in
      balance unless exactly one of the two it raises is already full. */
  lemma BeginKeepsBalanceIff(c: Counts)
    requires InRange(c) && Balanced(c)
    ensures InRange(Begin(c))
    ensures Balanced(Begin(c)) <==> (c.pending == U32_MAX <==> c.arrivals == U64_MAX)
  {
  }

  lemma FinishKeepsBalanceIff(c: Counts)
    requires InRange(c) && Balanced(c)
    ensures InRange(Finish(c))
    ensures Balanced(Finish(c)) <==> (c.pending == 0 <==> c.completions == U64_MAX)
  {
  }

  /** With as many attempts pending as the counter holds, one more is an arrival only. */
  lemma FullPendingUnbalances(c: Counts)
    requires InRange(c) && Balanced(c) && c.pending == U32_MAX && c.arrivals < U64_MAX
    ensures Begin(c).arrivals == Begin(c).completions + Begin(c).pending + 1
    ensures Balanced(Counts(U32_MAX, 0, U32_MAX)) && !Balanced(Begin(Counts(U32_MAX, 0, U32_MAX)))
  {
  }

  /** Attempts as they happen: true starts one, false drops one. */
  function After(events: seq<bool>): Counts {
    if events == [] then NO_ATTEMPTS
    else
      var c := After(events[..|events| - 1]);
      if events[|events| - 1] then Begin(c) else Finish(c)
  }

  ghost function Begun(events: seq<bool>): nat {
    multiset(events)[true]
  }

  ghost function Dropped(events: seq<bool>): nat {
    multiset(events)[false]
  }

  /** Each drop is of an attempt that began, and no counter overflows. */
  ghost predicate Possible(events: seq<bool>) {
    forall k :: 0 <= k <= |events| ==> PossibleNow(events[..k])
  }

  ghost predicate PossibleNow(events: seq<bool>) {
    Dropped(events) <= Begun(events) <= U64_MAX && Begun(events) - Dropped(events) <= U32_MAX
  }

  /** Over every run of attempts, the counters are what they count, so arrivals
      are completions and pending together. */
  lemma {:induction false} AttemptsBalance(events: seq<bool>)
    requires Possible(events)
    ensures
      var c := After(events);
      && c.arrivals == Begun(events) && c.completions == Dropped(events)
      && Balanced(c) && InRange(c)
  {
    if events != [] {
      var n := |events| - 1;
      assert PossibleNow(events[..n + 1]);
      assert events[..n + 1] == events;
      assert events == events[..n] + [events[n]];
      forall k | 0 <= k <= n
        ensures PossibleNow(events[..n][..k])
      {
        assert events[..n][..k] == events[..k];
      }
      AttemptsBalance(events[..n]);
    }
  }

  function Sample(c: Counts): LoadSample {
    LoadSample(0, c.arrivals, c.completions, c.pending)
  }

  /** A duration in whole microseconds, as far as 64 bits reach. */
  function Micros(duration: nat): u64 {
    if duration / MICROSECOND <= U64_MAX then duration / MICROSECOND else U64_MAX
  }

  class SetupPressure {
    const pressure: Pressure
    var counts: Counts

    /** The detector's last sample is always the counters as they stand. */
    ghost predicate Valid()
      reads this, pressure
    {
      && pressure.Valid() && pressure.stalledIsGrowing && !pressure.carryBoundaryLatency
      && pressure.totals.last == Sample(counts) && InRange(counts)
    }

    constructor (now: nat)
      ensures Valid() && fresh(pressure) && counts == NO_ATTEMPTS
      ensures pressure.past.log == [Obs(now, Sample(NO_ATTEMPTS), None)]
    {
      pressure := new Pressure(now, Sample(NO_ATTEMPTS), None, true, false);
      counts := NO_ATTEMPTS;
    }

    /** An attempt starts. No setup sample is ever refused as out of order. */
    method Started(now: nat)
      requires Valid()
      modifies this, pressure
      ensures Valid() && counts == Begin(old(counts))
      ensures pressure.past.log == old(pressure.past.log) + [Obs(now, Sample(counts), None)]
    {
      counts := Begin(counts);
      pressure.Observe(now, Sample(counts), None);
    }

    /** An attempt ends, and the microseconds it took are observed. */
    method Completed(now: nat, latency: nat)
      requires Valid()
      modifies this, pressure
      ensures Valid() && counts == Finish(old(counts))
      ensures pressure.past.log == old(pressure.past.log) + [Obs(now, Sample(counts), Some(Micros(latency)))]
    {
      counts := Finish(counts);
      pressure.Observe(now, Sample(counts), Some(Micros(latency)));
    }
  }
}
