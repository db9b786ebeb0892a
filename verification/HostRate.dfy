/** The token bucket that limits dedicated setups on one host
    (members/nullnet-server/src/congestion.rs:350-560), as functions on values.
    Time is nanoseconds, tokens are real and the rate, which only ever grows by
    one from zero, is natural. */
module HostRates {
  import opened Basics
  import opened Pressures

  type Ip = nat
  datatype Source = Proxy(ip: Ip) | Setup(ip: Ip)
  type Reading = (Source, View)

  const COMPLETION_HISTORY: nat := 10 * SECOND
  const RECOVERY_QUIET: nat := 5 * SECOND
  const RECOVERY_WINDOWS: nat := 2
  const BUCKET_BURST: real := 32.0
  const U8_MAX: nat := 255

  /** No rate is Normal mode, rate zero Multiplexing, any other Recovery. */
  datatype Host = Host(rate: Option<nat>, tokens: real, lastRefill: nat, lastDenied: Option<nat>,
                       completions: seq<nat>, seen: map<Source, nat>, healthy: nat)
  {
    predicate Multiplexing() { rate == Some(0) }
    predicate Recovering() { rate.Some? && rate.value > 0 }
  }

  datatype Transition = Activated | RecoveryStarted | Recovered

  function NewHost(now: nat): Host {
    Host(None, 0.0, now, None, [], map[], 0)
  }

  /** What `rate` tokens a second bring in `elapsed` nanoseconds. */
  function Income(rate: nat, elapsed: nat): (r: real)
    ensures rate == 0 ==> r == 0.0
  {
    elapsed as real / SECOND as real * rate as real
  }

  function Refill(h: Host, now: nat): Host {
    match h.rate
    case None => h.(lastRefill := now)
    case Some(rate) =>
      var tokens := h.tokens + Income(rate, Since(now, h.lastRefill));
      h.(tokens := if tokens <= BUCKET_BURST then tokens else BUCKET_BURST, lastRefill := now)
  }

  function Trimmed(c: seq<nat>, now: nat): seq<nat> {
    if c == [] || Since(now, c[0]) <= COMPLETION_HISTORY then c else Trimmed(c[1..], now)
  }

  function Record(h: Host, now: nat): Host {
    var c := Trimmed(h.completions, now);
    h.(completions := (if c != [] && Since(now, c[|c| - 1]) > RECOVERY_QUIET then [] else c) + [now])
  }

  predicate Sustained(c: seq<nat>, now: nat) {
    c != [] && Since(now, c[0]) >= RECOVERY_QUIET && Since(now, c[|c| - 1]) <= RECOVERY_QUIET
  }

  function Denied(h: Host, now: nat): Host {
    h.(lastDenied := Some(now), completions := [])
  }

  function SeenUpTo(seen: map<Source, nat>, s: Source): nat {
    if s in seen then seen[s] else 0
  }

  /** Some reading is of a window not judged before. */
  predicate Fresh(seen: map<Source, nat>, readings: seq<Reading>) {
    exists r :: r in readings && r.1.sequence > SeenUpTo(seen, r.0)
  }

  function Marked(seen: map<Source, nat>, readings: seq<Reading>): map<Source, nat> {
    if readings == [] then seen
    else Marked(seen, readings[..|readings| - 1])[readings[|readings| - 1].0 := readings[|readings| - 1].1.sequence]
  }

  /** One congested reading congests the host; it is healthy only if all are. */
  function VerdictOf(readings: seq<Reading>): Trend {
    if exists r :: r in readings && r.1.trend == Congested then Congested
    else if forall r :: r in readings ==> r.1.trend == Healthy then Healthy
    else Neutral
  }

  function OnCongested(h: Host, now: nat): Host {
    Denied(h, now).(rate := Some(0), tokens := 0.0, lastRefill := now, healthy := 0)
  }

  /** The bucket is full and nothing was refused for a while. */
  predicate Quiet(h: Host, now: nat) {
    h.lastDenied.Some? && Since(now, h.lastDenied.value) >= RECOVERY_QUIET && h.tokens >= BUCKET_BURST
  }

  function OnHealthy(h: Host, now: nat): Host {
    if h.rate.None? then h
    else
      var healthy := SatAdd(h.healthy, 1, U8_MAX);
      if healthy < RECOVERY_WINDOWS then h.(healthy := healthy)
      else
        var completions := if Quiet(h, now) then Trimmed(h.completions, now) else h.completions;
        var probed := h.(healthy := healthy, rate := Some(h.rate.value + 1), completions := completions);
        if Quiet(h, now) && Sustained(completions, now) then probed.(rate := None, tokens := 0.0) else probed
  }

  function OnNeutral(h: Host): Host {
    if h.Multiplexing() then h.(healthy := 0) else h
  }

  function Apply(h: Host, readings: seq<Reading>, now: nat): Host {
    if !Fresh(h.seen, readings) then h
    else
      var h' := h.(seen := Marked(h.seen, readings));
      match VerdictOf(readings)
      case Congested => OnCongested(h', now)
      case Healthy => OnHealthy(h', now)
      case Neutral => OnNeutral(h')
  }

  /** The transition `Apply` reports. */
  function Reported(h: Host, h': Host): Option<Transition> {
    if h'.Multiplexing() && !h.Multiplexing() then Some(Activated)
    else if h.rate.Some? && h'.rate.None? then Some(Recovered)
    else if h.Multiplexing() && h'.Recovering() then Some(RecoveryStarted)
    else None
  }

  /** A host judged at an admission: the bucket is refilled, then the verdict applied. */
  function Judged(h: Host, readings: seq<Reading>, now: nat): Host {
    Apply(Refill(h, now), readings, now)
  }

  predicate Ready(h: Host) {
    h.rate.None? || h.tokens >= 1.0
  }

  function Charged(h: Host): Host {
    if h.rate.Some? then h.(tokens := h.tokens - 1.0) else h
  }

  function DeniedIfShort(h: Host, now: nat): Host {
    if h.rate.Some? && h.tokens < 1.0 then Denied(h, now) else h
  }

  // ---------------------------------------------------------------- every run

  datatype Event =
    | Assess(readings: seq<Reading>, now: nat)
    | Charge(now: nat)
    | Refuse(now: nat)
    | Complete(now: nat)

  /** What a run is remembered by: the income, the charges and the verdicts since
      the last congested verdict, and the completions since the last refusal. */
  datatype Track = Track(clock: nat, judged: nat, earned: real, charges: nat, verdicts: seq<Trend>,
                         refused: Option<nat>, done: seq<nat>)

  ghost function NewTrack(now: nat): Track {
    Track(now, now, 0.0, 0, [], None, [])
  }

  ghost predicate Legal(h: Host, t: Track, e: Event) {
    && t.clock <= e.now
    && (e.Charge? ==> h.rate.Some? && h.tokens >= 1.0)
    && (e.Refuse? ==> h.rate.Some? && h.tokens < 1.0)
  }

  ghost function Moved(h: Host, e: Event): Host {
    match e
    case Assess(readings, now) => Judged(h, readings, now)
    case Charge(_) => Charged(h)
    case Refuse(now) => Denied(h, now)
    case Complete(now) => Record(h, now)
  }

  ghost function Tracked(h: Host, t: Track, e: Event): Track {
    match e
    case Assess(readings, now) =>
      var earned := t.earned + (if h.rate.Some? then Income(h.rate.value, Since(now, t.judged)) else 0.0);
      if !Fresh(h.seen, readings) then t.(clock := now, judged := now, earned := earned)
      else if VerdictOf(readings) == Congested then Track(now, now, 0.0, 0, [], Some(now), [])
      else t.(clock := now, judged := now, earned := earned, verdicts := t.verdicts + [VerdictOf(readings)])
    case Charge(now) => t.(clock := now, charges := t.charges + 1)
    case Refuse(now) => t.(clock := now, refused := Some(now), done := [])
    case Complete(now) => t.(clock := now, done := t.done + [now])
  }

  ghost predicate LegalRun(h: Host, t: Track, events: seq<Event>)
    decreases |events|
  {
    events == []
    || (Legal(h, t, events[0]) && LegalRun(Moved(h, events[0]), Tracked(h, t, events[0]), events[1..]))
  }

  ghost function Play(h: Host, t: Track, events: seq<Event>): (Host, Track)
    decreases |events|
  {
    if events == [] then (h, t) else Play(Moved(h, events[0]), Tracked(h, t, events[0]), events[1..])
  }

  // ---------------------------------------------------------- what every run keeps

  /** The bucket never holds more than came in and was not charged. */
  ghost predicate Funded(h: Host, t: Track) {
    && 0.0 <= h.tokens <= BUCKET_BURST
    && h.tokens <= t.earned - t.charges as real
    && (h.rate.None? ==> h.tokens == 0.0)
    && (h.Multiplexing() ==> t.earned == 0.0)
    && h.lastRefill == t.judged <= t.clock
  }

  ghost predicate LastHealthy(verdicts: seq<Trend>) {
    verdicts != [] && verdicts[|verdicts| - 1] == Healthy
  }

  ghost predicate Counting(h: Host, t: Track) {
    && (h.Multiplexing() ==> h.healthy == if LastHealthy(t.verdicts) then 1 else 0)
    && (h.Recovering() ==> RECOVERY_WINDOWS <= h.healthy <= U8_MAX)
    && h.lastDenied == t.refused
  }

  /** The `j`th completion came within five seconds of the one before. */
  ghost predicate Prompt(done: seq<nat>, j: nat) {
    0 < j < |done| ==> done[j] - done[j - 1] <= RECOVERY_QUIET
  }

  /** No two completions from the `i`th on are more than five seconds apart. */
  ghost predicate Steady(done: seq<nat>, i: nat) {
    forall j: nat :: i < j < |done| ==> Prompt(done, j)
  }

  ghost predicate Rising(done: seq<nat>, clock: nat) {
    && (forall i, j :: 0 <= i <= j < |done| ==> done[i] <= done[j])
    && (done != [] ==> done[|done| - 1] <= clock)
  }

  ghost predicate Stale(done: seq<nat>, i: nat, clock: nat) {
    i < |done| ==> clock - done[i] > COMPLETION_HISTORY || !Steady(done, i)
  }

  /** A queue holds the completions `done` since the last refusal, less some older
      than ten seconds and all those before a gap of more than five. */
  ghost predicate Queue(c: seq<nat>, done: seq<nat>, clock: nat) {
    var k := |done| - |c|;
    && Rising(done, clock)
    && 0 <= k && c == done[k..] && Steady(done, k)
    && forall i: nat :: i < k ==> Stale(done, i, clock)
  }

  ghost predicate Queued(h: Host, t: Track) {
    Queue(h.completions, t.done, t.clock)
  }

  ghost predicate Inv(h: Host, t: Track) {
    Funded(h, t) && Counting(h, t) && Queued(h, t)
  }
}
