/** What holds over every run of one host's bucket. */
module HostRateTheorems {
  import opened Basics
  import opened Pressures
  import opened HostRates

  lemma InitInv(now: nat)
    ensures Inv(NewHost(now), NewTrack(now))
  {
  }

  // ------------------------------------------------------------------- the bucket

  /** Refilling keeps the bucket within what has come in. */
  lemma RefillIsFunded(h: Host, t: Track, now: nat, earned: real)
    requires Funded(h, t) && t.clock <= now
    requires earned == t.earned + (if h.rate.Some? then Income(h.rate.value, Since(now, t.judged)) else 0.0)
    ensures Funded(Refill(h, now), t.(clock := now, judged := now, earned := earned))
  {
  }

  lemma ApplyIsFunded(h: Host, t: Track, readings: seq<Reading>, now: nat)
    requires Funded(h, t) && t.judged == t.clock == now
    ensures
      var congested := Fresh(h.seen, readings) && VerdictOf(readings) == Congested;
      Funded(Apply(h, readings, now), if congested then t.(earned := 0.0, charges := 0) else t)
  {
  }

  lemma StepIsFunded(h: Host, t: Track, e: Event)
    requires Funded(h, t) && Legal(h, t, e)
    ensures Funded(Moved(h, e), Tracked(h, t, e))
  {
    if e.Assess? {
      var earned := t.earned + (if h.rate.Some? then Income(h.rate.value, Since(e.now, t.judged)) else 0.0);
      RefillIsFunded(h, t, e.now, earned);
      ApplyIsFunded(Refill(h, e.now), t.(clock := e.now, judged := e.now, earned := earned), e.readings, e.now);
    }
  }

  // --------------------------------------------------------------- counting verdicts

  lemma StepCounts(h: Host, t: Track, e: Event)
    requires Funded(h, t) && Counting(h, t) && Legal(h, t, e)
    ensures Counting(Moved(h, e), Tracked(h, t, e))
  {
  }

  // ---------------------------------------------------------- the completion queue

  lemma {:induction false} TrimmedDropsOld(c: seq<nat>, now: nat)
    ensures
      var r := Trimmed(c, now);
      && |r| <= |c| && r == c[|c| - |r|..]
      && (forall i :: 0 <= i < |c| - |r| ==> Since(now, c[i]) > COMPLETION_HISTORY)
      && (r != [] ==> Since(now, r[0]) <= COMPLETION_HISTORY)
  {
    if c != [] && Since(now, c[0]) > COMPLETION_HISTORY {
      TrimmedDropsOld(c[1..], now);
      var r := Trimmed(c, now);
      forall i | 0 <= i < |c| - |r|
        ensures Since(now, c[i]) > COMPLETION_HISTORY
      {
        if i > 0 {
          assert c[1..][i - 1] == c[i];
        }
      }
    }
  }

  /** Time passing keeps a queue what it should be. */
  lemma WaitIsQueue(c: seq<nat>, done: seq<nat>, clock: nat, now: nat)
    requires Queue(c, done, clock) && clock <= now
    ensures Queue(c, done, now)
  {
    forall i: nat | i < |done| - |c|
      ensures Stale(done, i, now)
    {
      assert Stale(done, i, clock);
    }
  }

  /** So does trimming. */
  lemma TrimIsQueue(c: seq<nat>, done: seq<nat>, now: nat)
    requires Queue(c, done, now)
    ensures Queue(Trimmed(c, now), done, now)
  {
  }

  lemma SteadyExtends(done: seq<nat>, i: nat, now: nat)
    requires i < |done| ==> now - done[|done| - 1] <= RECOVERY_QUIET
    requires Steady(done, i)
    ensures Steady(done + [now], i)
  {
    forall j: nat | i < j < |done| + 1
      ensures Prompt(done + [now], j)
    {
      assert j < |done| ==> Prompt(done, j);
    }
  }

  lemma UnsteadyStays(done: seq<nat>, i: nat, now: nat)
    requires !Steady(done, i)
    ensures !Steady(done + [now], i)
  {
    var j: nat :| i < j < |done| && !Prompt(done, j);
    assert !Prompt(done + [now], j);
  }

  lemma GapBreaks(done: seq<nat>, i: nat, now: nat)
    requires i < |done| && now - done[|done| - 1] > RECOVERY_QUIET
    ensures !Steady(done + [now], i)
  {
    assert !Prompt(done + [now], |done|);
  }

  lemma StaleStays(done: seq<nat>, i: nat, now: nat)
    requires i < |done| && Stale(done, i, now)
    ensures Stale(done + [now], i, now)
  {
    if !Steady(done, i) {
      UnsteadyStays(done, i, now);
    }
  }

  lemma RisingExtends(done: seq<nat>, now: nat)
    requires Rising(done, now)
    ensures Rising(done + [now], now)
  {
  }

  /** A completion joins the queue. */
  lemma JoinIsQueue(c: seq<nat>, done: seq<nat>, now: nat)
    requires Queue(c, done, now) && (c != [] ==> now - c[|c| - 1] <= RECOVERY_QUIET)
    ensures Queue(c + [now], done + [now], now)
  {
    var k := |done| - |c|;
    RisingExtends(done, now);
    assert c != [] ==> c[|c| - 1] == done[|done| - 1];
    SteadyExtends(done, k, now);
    assert c + [now] == (done + [now])[k..];
    forall i: nat | i < k
      ensures Stale(done + [now], i, now)
    {
      assert Stale(done, i, now);
      StaleStays(done, i, now);
    }
  }

  /** A completion after a gap starts the queue afresh. */
  lemma RestartIsQueue(c: seq<nat>, done: seq<nat>, now: nat)
    requires Queue(c, done, now) && c != [] && now - c[|c| - 1] > RECOVERY_QUIET
    ensures Queue([now], done + [now], now)
  {
    RisingExtends(done, now);
    assert c[|c| - 1] == done[|done| - 1];
    forall i: nat | i < |done|
      ensures Stale(done + [now], i, now)
    {
      GapBreaks(done, i, now);
    }
  }

  lemma RecordIsQueue(h: Host, done: seq<nat>, now: nat)
    requires Queue(h.completions, done, now)
    ensures Queue(Record(h, now).completions, done + [now], now)
  {
    var c := Trimmed(h.completions, now);
    TrimIsQueue(h.completions, done, now);
    assert c != [] ==> c[|c| - 1] == done[|done| - 1] <= now;
    if c != [] && Since(now, c[|c| - 1]) > RECOVERY_QUIET {
      RestartIsQueue(c, done, now);
    } else {
      JoinIsQueue(c, done, now);
    }
  }

  /** Only a trim touches the queue when a verdict that is not congested is applied. */
  lemma AssessTrimsOnly(h: Host, readings: seq<Reading>, now: nat)
    requires !(Fresh(h.seen, readings) && VerdictOf(readings) == Congested)
    ensures
      var c := Judged(h, readings, now).completions;
      c == h.completions || c == Trimmed(h.completions, now)
  {
  }

  lemma StepIsQueued(h: Host, t: Track, e: Event)
    requires Queued(h, t) && Legal(h, t, e)
    ensures Queued(Moved(h, e), Tracked(h, t, e))
  {
    WaitIsQueue(h.completions, t.done, t.clock, e.now);
    match e
    case Assess(readings, now) =>
      if !(Fresh(h.seen, readings) && VerdictOf(readings) == Congested) {
        AssessTrimsOnly(h, readings, now);
        TrimIsQueue(h.completions, t.done, now);
      }
    case Charge(now) =>
    case Refuse(now) =>
    case Complete(now) => RecordIsQueue(h, t.done, now);
  }

  // -------------------------------------------------------------------- every run

  lemma StepKeepsInv(h: Host, t: Track, e: Event)
    requires Inv(h, t) && Legal(h, t, e)
    ensures Inv(Moved(h, e), Tracked(h, t, e))
  {
    StepIsFunded(h, t, e);
    StepCounts(h, t, e);
    StepIsQueued(h, t, e);
  }

  lemma {:induction false} RunKeepsInv(h: Host, t: Track, events: seq<Event>)
    requires Inv(h, t) && LegalRun(h, t, events)
    ensures Inv(Play(h, t, events).0, Play(h, t, events).1)
    decreases |events|
  {
    if events != [] {
      StepKeepsInv(h, t, events[0]);
      RunKeepsInv(Moved(h, events[0]), Tracked(h, t, events[0]), events[1..]);
    }
  }

  ghost predicate Reachable(h: Host, t: Track) {
    exists now: nat, events: seq<Event> ::
      LegalRun(NewHost(now), NewTrack(now), events) && Play(NewHost(now), NewTrack(now), events) == (h, t)
  }

  lemma ReachableInv(h: Host, t: Track)
    requires Reachable(h, t)
    ensures Inv(h, t)
  {
    var now: nat, events: seq<Event> :|
      LegalRun(NewHost(now), NewTrack(now), events) && Play(NewHost(now), NewTrack(now), events) == (h, t);
    InitInv(now);
    RunKeepsInv(NewHost(now), NewTrack(now), events);
  }

  /** On every run the bucket holds between nothing and a full burst, and the
      setups charged since the last congested verdict never exceed what the rate
      has brought in since, which is nothing while Multiplexing. */
  lemma ChargesAreFunded(h: Host, t: Track)
    requires Reachable(h, t)
    ensures 0.0 <= h.tokens <= BUCKET_BURST
    ensures t.charges as real <= t.earned
    ensures h.Multiplexing() ==> t.charges == 0
  {
    ReachableInv(h, t);
  }

  /** Multiplexing ends exactly when a fresh healthy verdict follows another one
      with nothing between them, and it ends in Recovery. */
  lemma LeavesMultiplexingIff(h: Host, t: Track, readings: seq<Reading>, now: nat)
    requires Reachable(h, t) && h.Multiplexing() && t.clock <= now
    ensures
      var h' := Judged(h, readings, now);
      && (!h'.Multiplexing()
          <==> Fresh(h.seen, readings) && VerdictOf(readings) == Healthy && LastHealthy(t.verdicts))
      && (!h'.Multiplexing() ==> h'.rate == Some(1))
  {
    ReachableInv(h, t);
    var r := Refill(h, now);
    assert r.tokens == 0.0;
  }

  /** Completions kept coming after the last refusal: from one at least five
      seconds old (and no more than ten) to one at most five seconds old, with no
      gap of more than five. */
  ghost predicate KeptCompleting(done: seq<nat>, now: nat) {
    && done != [] && now - done[|done| - 1] <= RECOVERY_QUIET
    && exists i: nat :: SteadyFrom(done, i, now)
  }

  ghost predicate SteadyFrom(done: seq<nat>, i: nat, now: nat) {
    i < |done| && RECOVERY_QUIET <= now - done[i] <= COMPLETION_HISTORY && Steady(done, i)
  }

  lemma SustainedIff(c: seq<nat>, done: seq<nat>, now: nat)
    requires Queue(c, done, now)
    ensures Sustained(Trimmed(c, now), now) <==> KeptCompleting(done, now)
  {
    var r := Trimmed(c, now);
    TrimIsQueue(c, done, now);
    TrimmedDropsOld(c, now);
    var k := |done| - |r|;
    if r != [] {
      assert r[0] == done[k] && r[|r| - 1] == done[|done| - 1];
      assert done[k] <= done[|done| - 1] <= now;
    }
    if Sustained(r, now) {
      assert SteadyFrom(done, k, now);
    }
    if KeptCompleting(done, now) {
      var i: nat :| SteadyFrom(done, i, now);
      NotBeforeQueue(r, done, now, i);
    }
  }

  lemma NotBeforeQueue(r: seq<nat>, done: seq<nat>, now: nat, i: nat)
    requires Queue(r, done, now) && SteadyFrom(done, i, now)
    ensures |done| - |r| <= i && r[0] <= done[i]
  {
    var k := |done| - |r|;
    assert i < k ==> Stale(done, i, now);
    assert r[0] == done[k];
  }

  /** Normal mode returns only from Recovery, and exactly when a fresh healthy
      verdict finds the bucket full, no refusal in the last five seconds and
      completions that kept coming since the last one. */
  lemma EntersNormalIff(h: Host, t: Track, readings: seq<Reading>, now: nat)
    requires Reachable(h, t) && h.rate.Some? && t.clock <= now
    ensures
      Judged(h, readings, now).rate.None?
      <==> && Fresh(h.seen, readings) && VerdictOf(readings) == Healthy
           && h.Recovering()
           && Refill(h, now).tokens == BUCKET_BURST
           && t.refused.Some? && now - t.refused.value >= RECOVERY_QUIET
           && KeptCompleting(t.done, now)
  {
    ReachableInv(h, t);
    WaitIsQueue(h.completions, t.done, t.clock, now);
    SustainedIff(h.completions, t.done, now);
    RefillIsFunded(h, t, now, t.earned + Income(h.rate.value, Since(now, t.judged)));
    var r := Refill(h, now).(seen := Marked(h.seen, readings));
    if Fresh(h.seen, readings) && VerdictOf(readings) == Healthy {
      assert Judged(h, readings, now) == OnHealthy(r, now);
      HealthyEndsIff(r, now);
    } else {
      OnlyHealthyEnds(h, readings, now);
    }
  }

  /** Recovery probes additively: each fresh healthy verdict that does not end it
      allows one more setup a second, a congested one stops it, and nothing else
      moves the rate. */
  lemma RecoveryProbesByOne(h: Host, t: Track, readings: seq<Reading>, now: nat)
    requires Reachable(h, t) && h.Recovering()
    ensures
      var h' := Judged(h, readings, now);
      var verdict := if Fresh(h.seen, readings) then VerdictOf(readings) else Neutral;
      h'.rate.Some? ==>
        h'.rate.value == match verdict
                         case Congested => 0
                         case Healthy => h.rate.value + 1
                         case Neutral => h.rate.value
  {
    ReachableInv(h, t);
  }

  lemma HealthyEndsIff(h: Host, now: nat)
    requires h.rate.Some?
    ensures
      OnHealthy(h, now).rate.None?
      <==> h.healthy + 1 >= RECOVERY_WINDOWS && Quiet(h, now) && Sustained(Trimmed(h.completions, now), now)
  {
  }

  lemma OnlyHealthyEnds(h: Host, readings: seq<Reading>, now: nat)
    requires h.rate.Some? && !(Fresh(h.seen, readings) && VerdictOf(readings) == Healthy)
    ensures Judged(h, readings, now).rate.Some?
  {
  }
}
