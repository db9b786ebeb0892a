/** What holds over every run of the whole controller. */
module CongestionTheorems {
  import opened Basics
  import opened Pressures
  import opened HostRates
  import opened HostRateTheorems
  import opened CongestionControl

  // --------------------------------------------------------------- one admission

  /** What an admission takes from a host, once judged. */
  ghost function Paid(hosts: Hosts, q: Request, ip: Ip): real
    requires Involved(q, ip)
  {
    JudgedFor(hosts, q, ip).tokens - AfterAdmission(hosts, q)[ip].tokens
  }

  /** An admission charges one token to every rate-limited host involved, or
      charges no host at all, and it does the former exactly when every one of
      them has a token to give. Nobody else is touched. */
  lemma ChargesAllOrNone(hosts: Hosts, q: Request)
    ensures
      Admitted(hosts, q)
      <==> forall ip :: Involved(q, ip) && JudgedFor(hosts, q, ip).rate.Some? ==> JudgedFor(hosts, q, ip).tokens >= 1.0
    ensures
      forall ip :: Involved(q, ip) ==>
        Paid(hosts, q, ip) == if Admitted(hosts, q) && JudgedFor(hosts, q, ip).rate.Some? then 1.0 else 0.0
    ensures
      forall ip :: !Involved(q, ip) ==>
        (ip in AfterAdmission(hosts, q) <==> ip in hosts) && (ip in hosts ==> AfterAdmission(hosts, q)[ip] == hosts[ip])
  {
  }

  // ------------------------------------------------------------------- every run

  datatype Op =
    | Admit(q: Request)
    | Finished(proxy: Ip, destination: Ip, at: nat)

  ghost function TimeOf(op: Op): nat {
    match op case Admit(q) => q.now case Finished(_, _, at) => at
  }

  ghost predicate Touches(op: Op, ip: Ip) {
    match op case Admit(q) => Involved(q, ip) case Finished(proxy, destination, _) => ip == proxy || ip == destination
  }

  ghost function AfterOp(hosts: Hosts, op: Op): Hosts {
    match op
    case Admit(q) => AfterAdmission(hosts, q)
    case Finished(proxy, destination, at) => AfterCompletion(hosts, proxy, destination, at)
  }

  ghost function AfterOps(ops: seq<Op>): Hosts {
    if ops == [] then map[] else AfterOp(AfterOps(ops[..|ops| - 1]), ops[|ops| - 1])
  }

  /** The clock never runs backwards between calls. */
  ghost predicate InOrder(ops: seq<Op>) {
    forall i, j :: 0 <= i <= j < |ops| ==> TimeOf(ops[i]) <= TimeOf(ops[j])
  }

  ghost function Readings(q: Request, ip: Ip): seq<Reading> {
    ReadingsFor(ip, q.proxy, q.destination, q.waiting, q.setups)
  }

  /** What settling a judged host is for it: a charge, a refusal or nothing. */
  ghost function SettleEvents(h: Host, admitted: bool, now: nat): seq<Event> {
    if admitted && h.rate.Some? then [Charge(now)]
    else if !admitted && h.rate.Some? && h.tokens < 1.0 then [Refuse(now)]
    else []
  }

  /** What one operation is for a host. */
  ghost function EventsOf(hosts: Hosts, op: Op, ip: Ip): seq<Event> {
    if !Touches(op, ip) then []
    else
      match op
      case Admit(q) =>
        [Assess(Readings(q, ip), q.now)] + SettleEvents(JudgedFor(hosts, q, ip), Admitted(hosts, q), q.now)
      case Finished(_, _, at) => [Complete(at)]
  }

  /** The run as one host sees it, and when it first took part. */
  ghost function EventsAt(ops: seq<Op>, ip: Ip): seq<Event> {
    if ops == [] then []
    else
      var before := ops[..|ops| - 1];
      EventsAt(before, ip) + EventsOf(AfterOps(before), ops[|ops| - 1], ip)
  }

  ghost function BornAt(ops: seq<Op>, ip: Ip): nat {
    if ops == [] then 0
    else if ip in AfterOps(ops[..|ops| - 1]) then BornAt(ops[..|ops| - 1], ip)
    else TimeOf(ops[|ops| - 1])
  }

  // ------------------------------------------------------------- what a run has come to

  /** Whether this operation brings the host a verdict on windows not judged before. */
  ghost predicate Judges(hosts: Hosts, q: Request, ip: Ip) {
    Fresh(At(hosts, ip, q.now).seen, Readings(q, ip))
  }

  ghost predicate Congests(hosts: Hosts, q: Request, ip: Ip) {
    Judges(hosts, q, ip) && VerdictOf(Readings(q, ip)) == Congested
  }

  /** The account of a host since its last congested verdict: the dedicated setups let
      through while it was rate-limited, what its rate has brought in, the verdicts; and
      the last refusal with the completions since. */
  datatype Ledger = Ledger(setups: nat, earned: real, verdicts: seq<Trend>, refused: Option<nat>, done: seq<nat>)

  ghost function AfterVerdict(l: Ledger, hosts: Hosts, q: Request, ip: Ip): Ledger {
    var h := At(hosts, ip, q.now);
    if Congests(hosts, q, ip) then Ledger(0, 0.0, [], Some(q.now), [])
    else
      l.(earned := l.earned + (if h.rate.Some? then Income(h.rate.value, Since(q.now, h.lastRefill)) else 0.0),
         verdicts := if Judges(hosts, q, ip) then l.verdicts + [VerdictOf(Readings(q, ip))] else l.verdicts)
  }

  ghost function AfterSettling(l: Ledger, h: Host, admitted: bool, now: nat): Ledger {
    if admitted && h.rate.Some? then l.(setups := l.setups + 1)
    else if !admitted && h.rate.Some? && h.tokens < 1.0 then l.(refused := Some(now), done := [])
    else l
  }

  ghost function Entered(l: Ledger, hosts: Hosts, op: Op, ip: Ip): Ledger {
    if !Touches(op, ip) then l
    else
      match op
      case Admit(q) => AfterSettling(AfterVerdict(l, hosts, q, ip), JudgedFor(hosts, q, ip), Admitted(hosts, q), q.now)
      case Finished(_, _, at) => l.(done := l.done + [at])
  }

  ghost function LedgerOf(ops: seq<Op>, ip: Ip): Ledger {
    if ops == [] then Ledger(0, 0.0, [], None, [])
    else
      var before := ops[..|ops| - 1];
      Entered(LedgerOf(before, ip), AfterOps(before), ops[|ops| - 1], ip)
  }

  ghost predicate Records(t: Track, l: Ledger) {
    && t.charges == l.setups && t.earned == l.earned && t.verdicts == l.verdicts
    && t.refused == l.refused && t.done == l.done
  }

  /** Starting afresh at `born`, these events lead to this host with this track. */
  ghost predicate Leads(born: nat, es: seq<Event>, h: Host, t: Track) {
    LegalRun(NewHost(born), NewTrack(born), es) && Play(NewHost(born), NewTrack(born), es) == (h, t)
  }

  lemma {:induction false} PlayAppend(h: Host, t: Track, es: seq<Event>, e: Event)
    requires LegalRun(h, t, es) && Legal(Play(h, t, es).0, Play(h, t, es).1, e)
    ensures LegalRun(h, t, es + [e])
    ensures
      var (h', t') := Play(h, t, es);
      Play(h, t, es + [e]) == (Moved(h', e), Tracked(h', t', e))
    decreases |es|
  {
    if es == [] {
      assert es + [e] == [e] && [e][1..] == [];
    } else {
      PlayAppend(Moved(h, es[0]), Tracked(h, t, es[0]), es[1..], e);
      assert (es + [e])[1..] == es[1..] + [e];
    }
  }

  lemma LeadsOn(born: nat, es: seq<Event>, h: Host, t: Track, e: Event)
    requires Leads(born, es, h, t) && Legal(h, t, e)
    ensures Leads(born, es + [e], Moved(h, e), Tracked(h, t, e))
  {
    PlayAppend(NewHost(born), NewTrack(born), es, e);
  }

  lemma SettleLeads(born: nat, es: seq<Event>, h: Host, t: Track, l: Ledger, admitted: bool, now: nat) returns (t': Track)
    requires Leads(born, es, h, t) && Records(t, l) && t.clock == now && (admitted ==> Ready(h))
    ensures Leads(born, es + SettleEvents(h, admitted, now), SettledHost(h, admitted, now), t') && t'.clock == now
    ensures Records(t', AfterSettling(l, h, admitted, now))
  {
    t' := t;
    assert es + [] == es;
    if admitted && h.rate.Some? {
      LeadsOn(born, es, h, t, Charge(now));
      t' := Tracked(h, t, Charge(now));
    } else if !admitted && h.rate.Some? && h.tokens < 1.0 {
      LeadsOn(born, es, h, t, Refuse(now));
      t' := Tracked(h, t, Refuse(now));
    }
  }

  lemma AdmissionLeads(hosts: Hosts, q: Request, ip: Ip, born: nat, es: seq<Event>, t: Track, l: Ledger) returns (t': Track)
    requires Involved(q, ip) && Leads(born, es, At(hosts, ip, q.now), t) && Records(t, l) && t.clock <= q.now
    ensures Leads(born, es + EventsOf(hosts, Admit(q), ip), Settled(hosts, q, ip), t') && t'.clock == q.now
    ensures Records(t', Entered(l, hosts, Admit(q), ip))
  {
    var e, judged := Assess(Readings(q, ip), q.now), JudgedFor(hosts, q, ip);
    var t1 := VerdictLeads(hosts, q, ip, born, es, t, l);
    t' := SettleLeads(born, es + [e], judged, t1, AfterVerdict(l, hosts, q, ip), Admitted(hosts, q), q.now);
    assert es + [e] + SettleEvents(judged, Admitted(hosts, q), q.now) == es + EventsOf(hosts, Admit(q), ip);
  }

  lemma VerdictLeads(hosts: Hosts, q: Request, ip: Ip, born: nat, es: seq<Event>, t: Track, l: Ledger) returns (t': Track)
    requires Leads(born, es, At(hosts, ip, q.now), t) && Records(t, l) && t.clock <= q.now
    ensures Leads(born, es + [Assess(Readings(q, ip), q.now)], JudgedFor(hosts, q, ip), t') && t'.clock == q.now
    ensures Records(t', AfterVerdict(l, hosts, q, ip))
  {
    var h, e := At(hosts, ip, q.now), Assess(Readings(q, ip), q.now);
    LeadsInv(born, es, h, t);
    LeadsOn(born, es, h, t, e);
    t' := Tracked(h, t, e);
  }

  lemma LeadsInv(born: nat, es: seq<Event>, h: Host, t: Track)
    requires Leads(born, es, h, t)
    ensures h.lastRefill == t.judged
  {
    InitInv(born);
    RunKeepsInv(NewHost(born), NewTrack(born), es);
  }

  lemma OpLeads(hosts: Hosts, op: Op, ip: Ip, born: nat, es: seq<Event>, t: Track, l: Ledger) returns (t': Track)
    requires Touches(op, ip) && Leads(born, es, At(hosts, ip, TimeOf(op)), t) && Records(t, l) && t.clock <= TimeOf(op)
    ensures ip in AfterOp(hosts, op) && t'.clock == TimeOf(op)
    ensures Leads(born, es + EventsOf(hosts, op, ip), AfterOp(hosts, op)[ip], t')
    ensures Records(t', Entered(l, hosts, op, ip))
  {
    match op
    case Admit(q) => t' := AdmissionLeads(hosts, q, ip, born, es, t, l);
    case Finished(_, _, at) =>
      LeadsOn(born, es, At(hosts, ip, at), t, Complete(at));
      t' := Tracked(At(hosts, ip, at), t, Complete(at));
  }

  lemma OthersStay(hosts: Hosts, op: Op, ip: Ip)
    requires !Touches(op, ip)
    ensures (ip in AfterOp(hosts, op) <==> ip in hosts) && (ip in hosts ==> AfterOp(hosts, op)[ip] == hosts[ip])
  {
  }

  /** Before its first part in the run, a host has seen nothing. */
  lemma {:induction false} NoEventsYet(ops: seq<Op>, ip: Ip)
    requires ip !in AfterOps(ops)
    ensures EventsAt(ops, ip) == [] && LedgerOf(ops, ip) == LedgerOf([], ip)
  {
    if ops != [] {
      var before, op := ops[..|ops| - 1], ops[|ops| - 1];
      assert !Touches(op, ip);
      OthersStay(AfterOps(before), op, ip);
      NoEventsYet(before, ip);
    }
  }

  /** Every host of every run of the controller is where its own events take it, and
      their record is the account of the run. */
  lemma {:induction false} HostsFollowTheirEvents(ops: seq<Op>, ip: Ip) returns (t: Track)
    requires InOrder(ops) && ip in AfterOps(ops)
    ensures Leads(BornAt(ops, ip), EventsAt(ops, ip), AfterOps(ops)[ip], t) && t.clock <= TimeOf(ops[|ops| - 1])
    ensures Records(t, LedgerOf(ops, ip))
  {
    var n := |ops| - 1;
    var before, op := ops[..n], ops[n];
    var hosts, now := AfterOps(before), TimeOf(op);
    var past := NewTrack(now);
    if ip in hosts {
      past := HostsFollowTheirEvents(before, ip);
      assert before[n - 1] == ops[n - 1] && TimeOf(ops[n - 1]) <= now;
    } else {
      NoEventsYet(before, ip);
    }
    if Touches(op, ip) {
      t := OpLeads(hosts, op, ip, BornAt(ops, ip), EventsAt(before, ip), past, LedgerOf(before, ip));
    } else {
      OthersStay(hosts, op, ip);
      t := past;
      assert EventsAt(before, ip) + [] == EventsAt(before, ip);
    }
  }

  // --------------------------------------------- what holds of a host holds of each here

  lemma HostIsReachable(ops: seq<Op>, ip: Ip) returns (t: Track)
    requires InOrder(ops) && ip in AfterOps(ops)
    ensures Reachable(AfterOps(ops)[ip], t) && Records(t, LedgerOf(ops, ip)) && t.clock <= TimeOf(ops[|ops| - 1])
  {
    t := HostsFollowTheirEvents(ops, ip);
    var born, es := BornAt(ops, ip), EventsAt(ops, ip);
    assert LegalRun(NewHost(born), NewTrack(born), es) && Play(NewHost(born), NewTrack(born), es) == (AfterOps(ops)[ip], t);
  }

  /** On every run of the controller each bucket holds between nothing and a full burst,
      and the dedicated setups let through a rate-limited host since its last congested
      verdict never exceed what its rate has brought in since: none while Multiplexing. */
  lemma SetupsAreFunded(ops: seq<Op>, ip: Ip)
    requires InOrder(ops) && ip in AfterOps(ops)
    ensures 0.0 <= AfterOps(ops)[ip].tokens <= BUCKET_BURST
    ensures LedgerOf(ops, ip).setups as real <= LedgerOf(ops, ip).earned
    ensures AfterOps(ops)[ip].Multiplexing() ==> LedgerOf(ops, ip).setups == 0 && AfterOps(ops)[ip].tokens == 0.0
  {
    var t := HostIsReachable(ops, ip);
    ChargesAreFunded(AfterOps(ops)[ip], t);
    ReachableInv(AfterOps(ops)[ip], t);
  }

  ghost predicate MayFollow(ops: seq<Op>, q: Request) {
    InOrder(ops) && (ops != [] ==> TimeOf(ops[|ops| - 1]) <= q.now)
  }

  /** On every run, a request ends a host's Multiplexing exactly when it brings a fresh
      healthy verdict right after another one, and then Recovery begins at rate one. */
  lemma RequestEndsMultiplexingIff(ops: seq<Op>, q: Request, ip: Ip)
    requires MayFollow(ops, q) && ip in AfterOps(ops) && AfterOps(ops)[ip].Multiplexing() && Involved(q, ip)
    ensures
      var hosts := AfterOps(ops);
      var rate := AfterAdmission(hosts, q)[ip].rate;
      if Judges(hosts, q, ip) && VerdictOf(Readings(q, ip)) == Healthy && LastHealthy(LedgerOf(ops, ip).verdicts)
      then rate == Some(1) else rate == Some(0)
  {
    var t := HostIsReachable(ops, ip);
    LeavesMultiplexingIff(AfterOps(ops)[ip], t, Readings(q, ip), q.now);
    SettlingKeepsRate(AfterOps(ops), q, ip);
  }

  lemma SettlingKeepsRate(hosts: Hosts, q: Request, ip: Ip)
    requires Involved(q, ip)
    ensures AfterAdmission(hosts, q)[ip].rate == JudgedFor(hosts, q, ip).rate
  {
    assert AfterAdmission(hosts, q)[ip] == Settled(hosts, q, ip);
  }

  /** On every run, a request returns a host to Normal exactly when it is in Recovery and
      the request brings a fresh healthy verdict, finds the bucket full, no refusal for
      five seconds, and completions that kept coming since. */
  lemma RequestRestoresNormalIff(ops: seq<Op>, q: Request, ip: Ip)
    requires MayFollow(ops, q) && ip in AfterOps(ops) && AfterOps(ops)[ip].rate.Some? && Involved(q, ip)
    ensures
      var hosts, l := AfterOps(ops), LedgerOf(ops, ip);
      AfterAdmission(hosts, q)[ip].rate.None?
      <==> && Judges(hosts, q, ip) && VerdictOf(Readings(q, ip)) == Healthy
           && hosts[ip].Recovering()
           && Refill(hosts[ip], q.now).tokens == BUCKET_BURST
           && l.refused.Some? && q.now - l.refused.value >= RECOVERY_QUIET
           && KeptCompleting(l.done, q.now)
  {
    var t := HostIsReachable(ops, ip);
    EntersNormalIff(AfterOps(ops)[ip], t, Readings(q, ip), q.now);
    SettlingKeepsRate(AfterOps(ops), q, ip);
  }
}
