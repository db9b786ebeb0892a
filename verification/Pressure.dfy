/** Windowed congestion detection (members/nullnet-server/src/congestion.rs:92-342).
    A stream of load samples is cut into windows of at least a second; the class
    keeps only running totals, the reference below reads the samples themselves. */
module Pressures {
  import opened Basics

  const U64_MAX: nat := 0xffff_ffff_ffff_ffff
  const U32_MAX: nat := 0xffff_ffff

  type u64 = n: nat | n <= U64_MAX

  const PRESSURE_WINDOW: nat := SECOND
  const CONGESTED_WINDOWS: nat := 2
  const PRESSURE_HISTORY: nat := 60

  function SatAdd(x: nat, y: nat, max: nat): nat {
    if x + y <= max then x + y else max
  }

  datatype LoadSample = LoadSample(epoch: nat, arrivals: nat, completions: nat, pending: nat)
  datatype Trend = Congested | Healthy | Neutral
  datatype WindowTrend = Growing | Calm | Mixed
  datatype Window = Window(endedAt: nat, duration: nat, arrivals: nat, completions: nat,
                           pending: nat, meanLatency: nat, trend: WindowTrend)
  datatype View = View(sequence: nat, trend: Trend)

  // ------------------------------------------------------------------- reference

  datatype Obs = Obs(now: nat, sample: LoadSample, latency: Option<u64>)

  /** The observations between two boundaries: `from` is the one that ended the
      window before, `samples` those after it. Whether the latency of `from` is
      counted here too is `carried`. */
  datatype Span = Span(from: Obs, samples: seq<Obs>, carried: bool)

  ghost function Last(w: Span): Obs {
    if w.samples == [] then w.from else w.samples[|w.samples| - 1]
  }

  ghost function Latencies(obs: seq<Obs>): seq<u64> {
    if obs == [] then []
    else
      var o := obs[|obs| - 1];
      Latencies(obs[..|obs| - 1]) + (if o.latency.None? then [] else [o.latency.value])
  }

  ghost function Counted(w: Span): seq<u64> {
    (if w.carried then Latencies([w.from]) else []) + Latencies(w.samples)
  }

  ghost function Sum(s: seq<u64>): nat {
    if s == [] then 0 else Sum(s[..|s| - 1]) + s[|s| - 1]
  }

  function Average(sum: nat, count: nat, before: Option<nat>): nat {
    if count == 0 then (if before.None? then 0 else before.value)
    else if sum / count <= U64_MAX then sum / count
    else U64_MAX
  }

  /** The mean latency of the last window, inherited when it has no sample. */
  ghost function Mean(ws: seq<Span>): (r: Option<nat>)
    ensures r.Some? <==> ws != []
  {
    if ws == [] then None
    else
      var lat := Counted(ws[|ws| - 1]);
      Some(Average(Sum(lat), |lat|, Mean(ws[..|ws| - 1])))
  }

  ghost function Arrived(w: Span): int { Last(w).sample.arrivals - w.from.sample.arrivals }
  ghost function Completed(w: Span): int { Last(w).sample.completions - w.from.sample.completions }

  /** More came than left, the backlog rose, and latency rose or nothing left. */
  ghost predicate Grew(ws: seq<Span>, stalledIsGrowing: bool)
    requires ws != []
  {
    var w, before := ws[|ws| - 1], Mean(ws[..|ws| - 1]);
    && Arrived(w) > Completed(w)
    && Last(w).sample.pending > w.from.sample.pending
    && (before.None? || Mean(ws).value > before.value || (stalledIsGrowing && Completed(w) == 0))
  }

  /** No more came than left, the backlog did not rise, and the mean latency rose
      by no more than a tenth and 100 microseconds. */
  ghost predicate WasHealthy(ws: seq<Span>)
    requires ws != []
  {
    var w, before := ws[|ws| - 1], Mean(ws[..|ws| - 1]);
    && Arrived(w) <= Completed(w)
    && Last(w).sample.pending <= w.from.sample.pending
    && (before.None?
        || Mean(ws).value <= SatAdd(SatAdd(before.value, before.value / 10, U64_MAX), 100, U64_MAX))
  }

  /** How many windows up to the last grew without a break. */
  ghost function Run(ws: seq<Span>, stalledIsGrowing: bool): (r: nat)
    ensures r <= |ws|
  {
    if ws == [] || !Grew(ws, stalledIsGrowing) then 0
    else 1 + Run(ws[..|ws| - 1], stalledIsGrowing)
  }

  ghost function Verdict(run: nat, healthy: bool): Trend {
    if run > 0 && run % 2 == 0 then Congested else if healthy then Healthy else Neutral
  }

  ghost function TrendOf(ws: seq<Span>, stalledIsGrowing: bool): Trend {
    Verdict(Run(ws, stalledIsGrowing), ws != [] && WasHealthy(ws))
  }

  /** `d` records the last window of `ws`. */
  ghost predicate Describes(d: Window, ws: seq<Span>, stalledIsGrowing: bool)
    requires ws != []
  {
    var w := ws[|ws| - 1];
    && d.endedAt == Last(w).now && d.duration == Since(Last(w).now, w.from.now)
    && d.arrivals == Arrived(w) && d.completions == Completed(w)
    && d.pending == Last(w).sample.pending && d.meanLatency == Mean(ws).value
    && (d.trend == Growing <==> Grew(ws, stalledIsGrowing))
    && (d.trend == Calm <==> WasHealthy(ws))
  }

  // ----------------------------------------------------- windows tile the stream

  ghost predicate Ordered(obs: seq<Obs>) {
    forall i, j :: 0 <= i <= j < |obs| ==>
      && obs[i].sample.arrivals <= obs[j].sample.arrivals
      && obs[i].sample.completions <= obs[j].sample.completions
  }

  ghost predicate Within(w: Span, n: nat)
    requires n <= |w.samples|
  {
    forall i :: 0 <= i < n ==> Since(w.samples[i].now, w.from.now) < PRESSURE_WINDOW
  }

  /** A window ends with the first observation at least a second after it began. */
  ghost predicate Ended(w: Span) {
    && w.samples != []
    && Since(Last(w).now, w.from.now) >= PRESSURE_WINDOW
    && Within(w, |w.samples| - 1)
  }

  ghost function Flatten(ws: seq<Span>): seq<Obs> {
    if ws == [] then [] else Flatten(ws[..|ws| - 1]) + ws[|ws| - 1].samples
  }

  /** The observation window `i` starts from. */
  ghost function Start(log: seq<Obs>, ws: seq<Span>, i: nat): Obs
    requires log != [] && i <= |ws|
  {
    if i == 0 then log[0] else Last(ws[i - 1])
  }

  ghost predicate Linked(log: seq<Obs>, ws: seq<Span>, i: nat, carry: bool)
    requires log != []
  {
    && i < |ws|
    && Ended(ws[i])
    && ws[i].from == Start(log, ws, i)
    && ws[i].carried == (i == 0 || carry)
  }

  /** `ws` and then `cur` cut `log` into windows, each starting where the one
      before ended; only the first, or all if `carry`, count their first latency. */
  ghost predicate Tiles(log: seq<Obs>, ws: seq<Span>, cur: Span, carry: bool) {
    && log != []
    && Ordered(log)
    && log == [log[0]] + Flatten(ws) + cur.samples
    && (forall i: nat :: i < |ws| ==> Linked(log, ws, i, carry))
    && Within(cur, |cur.samples|)
    && cur.from == Start(log, ws, |ws|)
    && cur.carried == (ws == [] || carry)
  }

  ghost function Grown(w: Span, o: Obs): Span {
    w.(samples := w.samples + [o])
  }

  ghost predicate Follows(o: Obs, w: Span) {
    Last(w).sample.arrivals <= o.sample.arrivals && Last(w).sample.completions <= o.sample.completions
  }

  lemma LatenciesAppend(obs: seq<Obs>, o: Obs)
    ensures Latencies(obs + [o]) == Latencies(obs) + (if o.latency.None? then [] else [o.latency.value])
  {
  }

  /** What the running totals must become. */
  lemma CountedGrown(w: Span, o: Obs)
    ensures |Counted(Grown(w, o))| == |Counted(w)| + (if o.latency.None? then 0 else 1)
    ensures Sum(Counted(Grown(w, o))) == Sum(Counted(w)) + (if o.latency.None? then 0 else o.latency.value)
  {
    LatenciesAppend(w.samples, o);
    if o.latency.Some? {
      var c := Counted(w);
      assert (c + [o.latency.value])[..|c|] == c;
      assert Counted(Grown(w, o)) == c + [o.latency.value];
    } else {
      assert Counted(Grown(w, o)) == Counted(w);
    }
  }

  lemma LastLogged(log: seq<Obs>, ws: seq<Span>, cur: Span, carry: bool)
    requires Tiles(log, ws, cur, carry)
    ensures Last(cur) == log[|log| - 1]
  {
    if cur.samples == [] && ws != [] {
      assert Linked(log, ws, |ws| - 1, carry);
      assert Flatten(ws)[|Flatten(ws)| - 1] == Last(ws[|ws| - 1]);
    }
  }

  lemma OrderedAppend(log: seq<Obs>, o: Obs)
    requires log != [] && Ordered(log)
    requires log[|log| - 1].sample.arrivals <= o.sample.arrivals
    requires log[|log| - 1].sample.completions <= o.sample.completions
    ensures Ordered(log + [o])
  {
  }

  /** A window's counters never run backwards, so its differences are natural. */
  lemma OpenIsOrdered(log: seq<Obs>, ws: seq<Span>, cur: Span, carry: bool)
    requires Tiles(log, ws, cur, carry)
    ensures Arrived(cur) >= 0 && Completed(cur) >= 0
  {
    LastLogged(log, ws, cur, carry);
    if cur.samples != [] {
      var k := |log| - |cur.samples| - 1;
      assert cur.from == log[k] by {
        if ws != [] {
          assert Linked(log, ws, |ws| - 1, carry);
          assert Flatten(ws)[|Flatten(ws)| - 1] == Last(ws[|ws| - 1]);
        }
      }
      assert log[k].sample.arrivals <= log[|log| - 1].sample.arrivals;
    }
  }

  lemma StayOpen(log: seq<Obs>, ws: seq<Span>, cur: Span, carry: bool, o: Obs)
    requires Tiles(log, ws, cur, carry) && Follows(o, cur)
    requires Since(o.now, cur.from.now) < PRESSURE_WINDOW
    ensures Tiles(log + [o], ws, Grown(cur, o), carry)
  {
    LastLogged(log, ws, cur, carry);
    OrderedAppend(log, o);
    assert log + [o] == [log[0]] + Flatten(ws) + (cur.samples + [o]);
    forall i: nat | i < |ws|
      ensures Linked(log + [o], ws, i, carry)
    {
      assert Linked(log, ws, i, carry);
    }
  }

  lemma Close(log: seq<Obs>, ws: seq<Span>, cur: Span, carry: bool, o: Obs)
    requires Tiles(log, ws, cur, carry) && Follows(o, cur)
    requires Since(o.now, cur.from.now) >= PRESSURE_WINDOW
    ensures Ended(Grown(cur, o))
    ensures Tiles(log + [o], ws + [Grown(cur, o)], Span(o, [], carry), carry)
  {
    var w := Grown(cur, o);
    var ws' := ws + [w];
    LastLogged(log, ws, cur, carry);
    OrderedAppend(log, o);
    assert ws'[..|ws|] == ws;
    assert log + [o] == [log[0]] + Flatten(ws') + [];
    forall i: nat | i < |ws'|
      ensures Linked(log + [o], ws', i, carry)
    {
      if i < |ws| {
        assert Linked(log, ws, i, carry);
      }
    }
  }

  // ------------------------------------------------- a log has one cut into windows

  /** Without its last observation. */
  ghost function Shrunk(w: Span): Span
    requires w.samples != []
  {
    w.(samples := w.samples[..|w.samples| - 1])
  }

  lemma OrderedPrefix(log: seq<Obs>)
    requires log != [] && Ordered(log)
    ensures Ordered(log[..|log| - 1])
  {
  }

  /** An open window with observations was open, one observation ago. */
  lemma StayedOpen(log: seq<Obs>, ws: seq<Span>, cur: Span, carry: bool)
    requires Tiles(log, ws, cur, carry) && cur.samples != []
    ensures |log| > 1 && log[|log| - 1] == Last(cur)
    ensures Tiles(log[..|log| - 1], ws, Shrunk(cur), carry) && cur == Grown(Shrunk(cur), Last(cur))
    ensures Since(Last(cur).now, cur.from.now) < PRESSURE_WINDOW
  {
    var before := log[..|log| - 1];
    OrderedPrefix(log);
    assert before == [log[0]] + Flatten(ws) + Shrunk(cur).samples;
    forall i: nat | i < |ws|
      ensures Linked(before, ws, i, carry)
    {
      assert Linked(log, ws, i, carry);
    }
  }

  /** An open window without any was just started, by the one before ending. */
  lemma JustClosed(log: seq<Obs>, ws: seq<Span>, cur: Span, carry: bool)
    requires Tiles(log, ws, cur, carry) && cur.samples == [] && ws != []
    ensures
      var n, w := |ws| - 1, ws[|ws| - 1];
      && |log| > 1 && Ended(w) && log[|log| - 1] == Last(w)
      && Tiles(log[..|log| - 1], ws[..n], Shrunk(w), carry) && w == Grown(Shrunk(w), Last(w))
      && cur == Span(Last(w), [], carry)
  {
    var n, w := |ws| - 1, ws[|ws| - 1];
    assert Linked(log, ws, n, carry);
    var before := log[..|log| - 1];
    OrderedPrefix(log);
    assert log == [log[0]] + Flatten(ws[..n]) + w.samples;
    assert before == [log[0]] + Flatten(ws[..n]) + Shrunk(w).samples;
    forall i: nat | i < n
      ensures Linked(before, ws[..n], i, carry)
    {
      assert Linked(log, ws, i, carry);
    }
  }

  /** The windows a log falls into: each observation joins the open window, and ends it
      if it comes a second or more after its start. */
  ghost function Cut(log: seq<Obs>, carry: bool): (seq<Span>, Span)
    requires log != []
  {
    if |log| == 1 then ([], Span(log[0], [], true))
    else
      var (ws, cur) := Cut(log[..|log| - 1], carry);
      var o := log[|log| - 1];
      if Since(o.now, cur.from.now) < PRESSURE_WINDOW then (ws, Grown(cur, o))
      else (ws + [Grown(cur, o)], Span(o, [], carry))
  }

  /** There is no other way to cut it. */
  lemma {:induction false} TilingIsCut(log: seq<Obs>, ws: seq<Span>, cur: Span, carry: bool)
    requires Tiles(log, ws, cur, carry)
    ensures (ws, cur) == Cut(log, carry)
    decreases |log|
  {
    if cur.samples != [] {
      StayedOpen(log, ws, cur, carry);
      TilingIsCut(log[..|log| - 1], ws, Shrunk(cur), carry);
    } else if ws != [] {
      JustClosed(log, ws, cur, carry);
      var n := |ws| - 1;
      TilingIsCut(log[..|log| - 1], ws[..n], Shrunk(ws[n]), carry);
      assert ws == ws[..n] + [ws[n]];
    }
  }

  // --------------------------------------------------------------- the verdict

  /** The `k`th window grew. */
  ghost predicate GrewAt(ws: seq<Span>, k: nat, stalledIsGrowing: bool) {
    0 < k <= |ws| && Grew(ws[..k], stalledIsGrowing)
  }

  /** The last `n` windows grew, and the one before them, if any, did not. */
  ghost predicate IsRun(ws: seq<Span>, n: nat, stalledIsGrowing: bool) {
    && n <= |ws|
    && (forall k: nat :: |ws| - n < k <= |ws| ==> GrewAt(ws, k, stalledIsGrowing))
    && !GrewAt(ws, |ws| - n, stalledIsGrowing)
  }

  lemma {:induction false} RunIsRun(ws: seq<Span>, stalledIsGrowing: bool)
    ensures IsRun(ws, Run(ws, stalledIsGrowing), stalledIsGrowing)
  {
    if ws != [] {
      assert ws[..|ws|] == ws;
      if Grew(ws, stalledIsGrowing) {
        var before := ws[..|ws| - 1];
        RunIsRun(before, stalledIsGrowing);
        forall k: nat | k < |ws|
          ensures GrewAt(before, k, stalledIsGrowing) == GrewAt(ws, k, stalledIsGrowing)
        {
          assert before[..k] == ws[..k];
        }
      }
    }
  }

  /** The verdict is Congested exactly when the windows that grew without a break
      up to the last are a positive even number. */
  lemma CongestedIffEvenRun(ws: seq<Span>, stalledIsGrowing: bool)
    ensures
      TrendOf(ws, stalledIsGrowing) == Congested
      <==> exists n: nat :: IsRun(ws, n, stalledIsGrowing) && n > 0 && n % 2 == 0
  {
    var run := Run(ws, stalledIsGrowing);
    RunIsRun(ws, stalledIsGrowing);
    forall n: nat | IsRun(ws, n, stalledIsGrowing)
      ensures n == run
    {
    }
  }

  /** How the counter and the verdict move when a window ends. */
  lemma VerdictStep(ws: seq<Span>, w: Span, stalledIsGrowing: bool)
    ensures
      var ws' := ws + [w];
      var grew := Grew(ws', stalledIsGrowing);
      && Run(ws', stalledIsGrowing) == (if grew then Run(ws, stalledIsGrowing) + 1 else 0)
      && Mean(ws'[..|ws|]) == Mean(ws)
      && (grew ==> !WasHealthy(ws'))
  {
  }

  // --------------------------------------------------------------- the detector

  /** What the detector keeps of the current epoch. */
  datatype Totals = Totals(windowStarted: nat, start: LoadSample, last: LoadSample, lastObserved: nat,
                           latencySum: nat, latencySamples: nat, previousMean: Option<nat>,
                           congestedWindows: nat, trend: Trend)

  /** The running totals are those of the window so far. */
  ghost predicate TracksOpen(t: Totals, cur: Span) {
    && t.windowStarted == cur.from.now && t.start == cur.from.sample
    && t.last == Last(cur).sample && t.lastObserved == Last(cur).now
    && t.latencySum == Sum(Counted(cur)) && t.latencySamples == |Counted(cur)|
  }

  /** The mean, the counter and the verdict are those of the windows ended. */
  ghost predicate TracksEnded(t: Totals, ws: seq<Span>, stalledIsGrowing: bool) {
    && t.previousMean == Mean(ws)
    && t.congestedWindows == Run(ws, stalledIsGrowing) % 2
    && t.trend == TrendOf(ws, stalledIsGrowing)
  }

  /** The totals are those of the observations in `log`. */
  ghost predicate Tracks(t: Totals, log: seq<Obs>, ws: seq<Span>, cur: Span, stalledIsGrowing: bool, carry: bool) {
    Tiles(log, ws, cur, carry) && TracksOpen(t, cur) && TracksEnded(t, ws, stalledIsGrowing)
  }

  /** What the detector keeps, its verdict included, is a function of the log. */
  lemma TotalsAreOfTheLog(t: Totals, ws: seq<Span>, cur: Span, t': Totals, ws': seq<Span>, cur': Span,
                          log: seq<Obs>, stalledIsGrowing: bool, carry: bool)
    requires Tracks(t, log, ws, cur, stalledIsGrowing, carry) && Tracks(t', log, ws', cur', stalledIsGrowing, carry)
    ensures ws == ws' && cur == cur' && t == t'
  {
    TilingIsCut(log, ws, cur, carry);
    TilingIsCut(log, ws', cur', carry);
  }

  function Opening(o: Obs): Totals {
    Totals(o.now, o.sample, o.sample, o.now,
           if o.latency.Some? then o.latency.value else 0, if o.latency.Some? then 1 else 0,
           None, 0, Neutral)
  }

  function Added(t: Totals, o: Obs): Totals {
    t.(last := o.sample, lastObserved := o.now,
       latencySum := t.latencySum + (if o.latency.Some? then o.latency.value else 0),
       latencySamples := t.latencySamples + (if o.latency.Some? then 1 else 0))
  }

  lemma StayOpenTracks(t: Totals, log: seq<Obs>, ws: seq<Span>, cur: Span, stalledIsGrowing: bool, carry: bool, o: Obs)
    requires Tracks(t, log, ws, cur, stalledIsGrowing, carry) && Follows(o, cur)
    requires Since(o.now, cur.from.now) < PRESSURE_WINDOW
    ensures Tracks(Added(t, o), log + [o], ws, Grown(cur, o), stalledIsGrowing, carry)
  {
    StayOpen(log, ws, cur, carry, o);
    CountedGrown(cur, o);
  }

  /** The window that `o` ends, and the verdict it brings. */
  function MeanOf(t: Totals): nat {
    Average(t.latencySum, t.latencySamples, t.previousMean)
  }

  lemma ClosedMean(t: Totals, ws: seq<Span>, cur: Span, o: Obs)
    requires t.latencySum == Sum(Counted(cur)) && t.latencySamples == |Counted(cur)| && t.previousMean == Mean(ws)
    ensures Mean(ws + [Grown(cur, o)]) == Some(MeanOf(Added(t, o)))
  {
    var w := Grown(cur, o);
    CountedGrown(cur, o);
    MeanAppend(ws, w, Sum(Counted(w)), |Counted(w)|);
  }

  lemma MeanAppend(ws: seq<Span>, w: Span, sum: nat, count: nat)
    requires Sum(Counted(w)) == sum && |Counted(w)| == count
    ensures Mean(ws + [w]) == Some(Average(sum, count, Mean(ws)))
  {
  }

  function Reopened(t: Totals, o: Obs, grew: bool, healthy: bool, carry: bool): Totals {
    Totals(o.now, o.sample, o.sample, o.now,
           if carry && o.latency.Some? then o.latency.value else 0, if carry && o.latency.Some? then 1 else 0,
           Some(MeanOf(Added(t, o))),
           if grew && t.congestedWindows + 1 < CONGESTED_WINDOWS then t.congestedWindows + 1 else 0,
           if grew then (if t.congestedWindows + 1 >= CONGESTED_WINDOWS then Congested else Neutral)
           else if healthy then Healthy else Neutral)
  }

  lemma ReopenedTracksOpen(t: Totals, o: Obs, grew: bool, healthy: bool, carry: bool)
    ensures TracksOpen(Reopened(t, o, grew, healthy, carry), Span(o, [], carry))
  {
  }

  /** The counter holds the parity of the run, so two in a row make a verdict. */
  lemma ReopenedCounts(t: Totals, o: Obs, carry: bool, run: nat, grew: bool, healthy: bool)
    requires t.congestedWindows == run % 2 && (grew ==> !healthy)
    ensures
      var t', next := Reopened(t, o, grew, healthy, carry), if grew then run + 1 else 0;
      t'.congestedWindows == next % 2 && t'.trend == Verdict(next, healthy)
  {
  }

  lemma TracksEndedFrom(t: Totals, ws: seq<Span>, stalledIsGrowing: bool, mean: nat, run: nat, healthy: bool)
    requires ws != [] && Mean(ws) == Some(mean) && Run(ws, stalledIsGrowing) == run && WasHealthy(ws) == healthy
    requires t.previousMean == Some(mean) && t.congestedWindows == run % 2 && t.trend == Verdict(run, healthy)
    ensures TracksEnded(t, ws, stalledIsGrowing)
  {
  }

  lemma ReopenedTracksEnded(t: Totals, ws: seq<Span>, cur: Span, stalledIsGrowing: bool, carry: bool, o: Obs)
    requires TracksOpen(t, cur) && TracksEnded(t, ws, stalledIsGrowing)
    ensures
      var ws' := ws + [Grown(cur, o)];
      TracksEnded(Reopened(t, o, Grew(ws', stalledIsGrowing), WasHealthy(ws'), carry), ws', stalledIsGrowing)
  {
    var ws' := ws + [Grown(cur, o)];
    var run, grew, healthy := Run(ws, stalledIsGrowing), Grew(ws', stalledIsGrowing), WasHealthy(ws');
    ClosedMean(t, ws, cur, o);
    VerdictStep(ws, Grown(cur, o), stalledIsGrowing);
    ReopenedCounts(t, o, carry, run, grew, healthy);
    TracksEndedFrom(Reopened(t, o, grew, healthy, carry), ws', stalledIsGrowing, MeanOf(Added(t, o)),
                    if grew then run + 1 else 0, healthy);
  }

  lemma CloseTracks(t: Totals, log: seq<Obs>, ws: seq<Span>, cur: Span, stalledIsGrowing: bool, carry: bool, o: Obs)
    requires Tracks(t, log, ws, cur, stalledIsGrowing, carry) && Follows(o, cur)
    requires Since(o.now, cur.from.now) >= PRESSURE_WINDOW
    ensures
      var ws' := ws + [Grown(cur, o)];
      Tracks(Reopened(t, o, Grew(ws', stalledIsGrowing), WasHealthy(ws'), carry),
             log + [o], ws', Span(o, [], carry), stalledIsGrowing, carry)
  {
    var ws' := ws + [Grown(cur, o)];
    Close(log, ws, cur, carry, o);
    ReopenedTracksOpen(t, o, Grew(ws', stalledIsGrowing), WasHealthy(ws'), carry);
    ReopenedTracksEnded(t, ws, cur, stalledIsGrowing, carry, o);
  }

  ghost function Recent(all: seq<Window>): seq<Window> {
    if |all| <= PRESSURE_HISTORY then all else all[|all| - PRESSURE_HISTORY..]
  }

  /** The `k`th window of this epoch is recorded as it was. */
  ghost predicate RecordedAt(all: seq<Window>, earlier: nat, ws: seq<Span>, k: nat, stalledIsGrowing: bool) {
    0 < k <= |ws| && earlier + k <= |all| && Describes(all[earlier + k - 1], ws[..k], stalledIsGrowing)
  }

  ghost predicate Recorded(all: seq<Window>, earlier: nat, ws: seq<Span>, stalledIsGrowing: bool) {
    && |all| == earlier + |ws|
    && forall k: nat :: 0 < k <= |ws| ==> RecordedAt(all, earlier, ws, k, stalledIsGrowing)
  }

  lemma RecordAnother(all: seq<Window>, earlier: nat, ws: seq<Span>, w: Span, d: Window, stalledIsGrowing: bool)
    requires Recorded(all, earlier, ws, stalledIsGrowing) && Describes(d, ws + [w], stalledIsGrowing)
    ensures Recorded(all + [d], earlier, ws + [w], stalledIsGrowing)
  {
    forall k: nat | 0 < k <= |ws| + 1
      ensures RecordedAt(all + [d], earlier, ws + [w], k, stalledIsGrowing)
    {
      if k <= |ws| {
        assert RecordedAt(all, earlier, ws, k, stalledIsGrowing);
        assert (ws + [w])[..k] == ws[..k];
      } else {
        assert (ws + [w])[..k] == ws + [w];
      }
    }
  }

  /** The observations a detector has accepted: those of this epoch with the
      windows they fall in, every window ever recorded, and how many of these are
      of earlier epochs. */
  datatype Past = Past(log: seq<Obs>, ended: seq<Span>, current: Span, all: seq<Window>, earlier: nat)

  ghost predicate Sound(t: Totals, history: seq<Window>, p: Past, stalledIsGrowing: bool, carry: bool) {
    && Tracks(t, p.log, p.ended, p.current, stalledIsGrowing, carry)
    && (forall o :: o in p.log ==> o.sample.epoch == t.last.epoch)
    && Recorded(p.all, p.earlier, p.ended, stalledIsGrowing)
    && history == Recent(p.all)
  }

  ghost function Afresh(p: Past, o: Obs): Past {
    Past([o], [], Span(o, [], true), p.all, |p.all|)
  }

  lemma ResetIsSound(history: seq<Window>, p: Past, o: Obs, stalledIsGrowing: bool, carry: bool)
    requires history == Recent(p.all)
    ensures Sound(Opening(o), history, Afresh(p, o), stalledIsGrowing, carry)
  {
  }

  lemma AddIsSound(t: Totals, history: seq<Window>, p: Past, o: Obs, stalledIsGrowing: bool, carry: bool)
    requires Sound(t, history, p, stalledIsGrowing, carry)
    requires Follows(o, p.current) && o.sample.epoch == t.last.epoch
    requires Since(o.now, t.windowStarted) < PRESSURE_WINDOW
    ensures Sound(Added(t, o), history, p.(log := p.log + [o], current := Grown(p.current, o)),
                  stalledIsGrowing, carry)
  {
    StayOpenTracks(t, p.log, p.ended, p.current, stalledIsGrowing, carry, o);
  }

  ghost function Next(p: Past, o: Obs, d: Window, carry: bool): Past {
    Past(p.log + [o], p.ended + [Grown(p.current, o)], Span(o, [], carry), p.all + [d], p.earlier)
  }

  lemma CloseIsSound(t: Totals, history: seq<Window>, p: Past, o: Obs, d: Window, stalledIsGrowing: bool, carry: bool)
    requires Sound(t, history, p, stalledIsGrowing, carry)
    requires Follows(o, p.current) && o.sample.epoch == t.last.epoch
    requires Since(o.now, t.windowStarted) >= PRESSURE_WINDOW
    requires Describes(d, p.ended + [Grown(p.current, o)], stalledIsGrowing)
    ensures
      Sound(Reopened(t, o, d.trend == Growing, d.trend == Calm, carry), Recent(p.all + [d]),
            Next(p, o, d, carry), stalledIsGrowing, carry)
  {
    CloseTracks(t, p.log, p.ended, p.current, stalledIsGrowing, carry, o);
    RecordAnother(p.all, p.earlier, p.ended, Grown(p.current, o), d, stalledIsGrowing);
  }

  /** Judging the window an observation ends, from the running totals. */
  function Judge(t: Totals, stalledIsGrowing: bool): Window
    requires t.start.arrivals <= t.last.arrivals && t.start.completions <= t.last.completions
  {
    var arrivals := t.last.arrivals - t.start.arrivals;
    var completions := t.last.completions - t.start.completions;
    var mean := MeanOf(t);
    var rising := t.previousMean.None? || mean > t.previousMean.value;
    var notRising :=
      t.previousMean.None?
      || mean <= SatAdd(SatAdd(t.previousMean.value, t.previousMean.value / 10, U64_MAX), 100, U64_MAX);
    var stalled := stalledIsGrowing && arrivals > completions && completions == 0;
    var growing := arrivals > completions && t.last.pending > t.start.pending && (rising || stalled);
    var healthy := arrivals <= completions && t.last.pending <= t.start.pending && notRising;
    Window(t.lastObserved, Since(t.lastObserved, t.windowStarted), arrivals, completions, t.last.pending, mean,
           if growing then Growing else if healthy then Calm else Mixed)
  }

  lemma JudgeDescribes(t: Totals, p: Past, o: Obs, stalledIsGrowing: bool, carry: bool)
    requires Tracks(t, p.log, p.ended, p.current, stalledIsGrowing, carry) && Follows(o, p.current)
    ensures t.start.arrivals <= o.sample.arrivals && t.start.completions <= o.sample.completions
    ensures Describes(Judge(Added(t, o), stalledIsGrowing), p.ended + [Grown(p.current, o)], stalledIsGrowing)
  {
    OpenIsOrdered(p.log, p.ended, p.current, carry);
    ClosedMean(t, p.ended, p.current, o);
    VerdictStep(p.ended, Grown(p.current, o), stalledIsGrowing);
  }

  lemma RecentAppend(all: seq<Window>, d: Window)
    ensures |Recent(all)| <= PRESSURE_HISTORY
    ensures
      var r := Recent(all);
      Recent(all + [d]) == Pushed(r, d)
  {
  }

  function Pushed(history: seq<Window>, d: Window): seq<Window> {
    (if |history| == PRESSURE_HISTORY then history[1..] else history) + [d]
  }

  lemma EndIsSound(t: Totals, history: seq<Window>, p: Past, o: Obs, stalledIsGrowing: bool, carry: bool)
    requires Sound(t, history, p, stalledIsGrowing, carry)
    requires Follows(o, p.current) && o.sample.epoch == t.last.epoch
    requires Since(o.now, t.windowStarted) >= PRESSURE_WINDOW
    ensures t.start.arrivals <= o.sample.arrivals && t.start.completions <= o.sample.completions
    ensures
      var d := Judge(Added(t, o), stalledIsGrowing);
      Sound(Reopened(t, o, d.trend == Growing, d.trend == Calm, carry), Pushed(history, d),
            Next(p, o, d, carry), stalledIsGrowing, carry)
  {
    JudgeDescribes(t, p, o, stalledIsGrowing, carry);
    var d := Judge(Added(t, o), stalledIsGrowing);
    CloseIsSound(t, history, p, o, d, stalledIsGrowing, carry);
    RecentAppend(p.all, d);
  }

  class Pressure {
    var totals: Totals
    const stalledIsGrowing: bool
    const carryBoundaryLatency: bool
    var sequence: nat
    var history: seq<Window>
    ghost var past: Past

    ghost predicate Valid()
      reads this
    {
      Sound(totals, history, past, stalledIsGrowing, carryBoundaryLatency)
    }

    constructor (now: nat, sample: LoadSample, latency: Option<u64>, stalledIsGrowing: bool, carry: bool)
      ensures Valid()
      ensures past == Afresh(Past([], [], past.current, [], 0), Obs(now, sample, latency)) && sequence == 0
      ensures this.stalledIsGrowing == stalledIsGrowing && carryBoundaryLatency == carry && totals.last == sample
    {
      this.stalledIsGrowing, carryBoundaryLatency := stalledIsGrowing, carry;
      var o := Obs(now, sample, latency);
      totals, sequence, history := Opening(o), 0, [];
      past := Past([o], [], Span(o, [], true), [], 0);
      ResetIsSound([], Past([], [], Span(o, [], true), [], 0), o, stalledIsGrowing, carry);
    }

    /** A new epoch starts afresh, keeping only the history and the sequence. */
    method Reset(now: nat, sample: LoadSample, latency: Option<u64>)
      requires Valid()
      modifies this
      ensures Valid()
      ensures past == Afresh(old(past), Obs(now, sample, latency)) && sequence == old(sequence) + 1
      ensures totals.last == sample
    {
      var o := Obs(now, sample, latency);
      totals, sequence := Opening(o), sequence + 1;
      ResetIsSound(history, past, o, stalledIsGrowing, carryBoundaryLatency);
      past := Afresh(past, o);
    }

    /** Take one sample in. A sample of this epoch whose counters ran backwards
        changes nothing; any other is logged, and ends the window a second or
        more after it began. */
    method Observe(now: nat, sample: LoadSample, latency: Option<u64>)
      requires Valid()
      modifies this
      ensures Valid()
      ensures
        var o := Obs(now, sample, latency);
        if sample.epoch != old(totals.last.epoch) then
          past == Afresh(old(past), o) && sequence == old(sequence) + 1 && totals.last == sample
        else if sample.arrivals < old(totals.last.arrivals) || sample.completions < old(totals.last.completions) then
          unchanged(this)
        else
          && past.log == old(past.log) + [o] && past.earlier == old(past.earlier) && totals.last == sample
          && sequence == old(sequence) + |past.ended| - |old(past.ended)|
      ensures old(past.all) <= past.all
    {
      if sample.epoch != totals.last.epoch {
        Reset(now, sample, latency);
        return;
      }
      if sample.arrivals < totals.last.arrivals || sample.completions < totals.last.completions {
        return;
      }
      var o := Obs(now, sample, latency);
      if Since(now, totals.windowStarted) < PRESSURE_WINDOW {
        AddIsSound(totals, history, past, o, stalledIsGrowing, carryBoundaryLatency);
        totals := Added(totals, o);
        past := past.(log := past.log + [o], current := Grown(past.current, o));
        return;
      }
      EndWindow(o);
    }

    /** Judge the window that `o` ends, record it, and start the next one. */
    method EndWindow(o: Obs)
      requires Valid() && Follows(o, past.current) && o.sample.epoch == totals.last.epoch
      requires Since(o.now, totals.windowStarted) >= PRESSURE_WINDOW
      modifies this
      ensures Valid()
      ensures past.log == old(past.log) + [o] && past.earlier == old(past.earlier)
      ensures |past.ended| == |old(past.ended)| + 1 && sequence == old(sequence) + 1 && totals.last == o.sample
      ensures old(past.all) <= past.all
    {
      EndIsSound(totals, history, past, o, stalledIsGrowing, carryBoundaryLatency);
      var d := Judge(Added(totals, o), stalledIsGrowing);
      totals := Reopened(totals, o, d.trend == Growing, d.trend == Calm, carryBoundaryLatency);
      sequence := sequence + 1;
      history := Pushed(history, d);
      past := Next(past, o, d, carryBoundaryLatency);
    }
  }
}
