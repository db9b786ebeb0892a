/** What the open-flow reports mean over every run, and why a snapshot cannot
    overwrite newer knowledge. */
module OpenFlowTheorems {
  import opened Basics
  import opened Flows
  import opened OpenFlowSpec

  // ------------------------------------------------------------ owner reports

  lemma FlowsAfterInsert<K>(m: map<Flow, K>, o: K, f: Flow)
    requires Filable(m, o, {f})
    ensures FlowsOf(m[f := o], o) == FlowsOf(m, o) + {f}
    ensures forall o' :: o' != o ==> FlowsOf(m[f := o], o') == FlowsOf(m, o')
  {
  }

  lemma FlowsAfterReconcile<K>(s: Flat<K>, o: K, flows: set<Flow>)
    requires Filable(s.ownerOf, o, flows)
    ensures FlowsOf(Reconciled(s, o, flows).ownerOf, o) == flows
    ensures forall o' :: o' != o ==> FlowsOf(Reconciled(s, o, flows).ownerOf, o') == FlowsOf(s.ownerOf, o')
  {
  }

  /** `Active` is reported exactly when an insert takes the owner from no open
      flow to one, `Idle` exactly when a close or a snapshot takes it from some
      to none while its emptiness is trusted. */
  lemma OwnerReportsAreCrossings<K>(s: Flat<K>, op: Op<K>, o: K)
    requires Proper(s, op)
    ensures Reported(s, op).owner == Some(Active(o)) <==>
              op.Insert? && op.owner == o && Openings(s, o) == 0 && Openings(Next(s, op), o) == 1
    ensures Reported(s, op).owner == Some(Idle(o)) <==>
              OwnerIn(s, op) == Some(o) && Openings(s, o) > 0 && Openings(Next(s, op), o) == 0 && !Silenced(s, op)
  {
    match op
    case Insert(o', f) =>
      FlowsAfterInsert(s.ownerOf, o', f);
      assert f in FlowsOf(Next(s, op).ownerOf, o');
    case Remove(f, _) =>
      if f in s.ownerOf {
        assert f in FlowsOf(s.ownerOf, s.ownerOf[f]);
        assert FlowsOf(s.ownerOf - {f}, s.ownerOf[f]) == FlowsOf(s.ownerOf, s.ownerOf[f]) - {f};
      }
    case SuppressUntil(_, _) =>
    case Reconcile(o', flows, _) =>
      FlowsAfterReconcile(s, o', ToSet(flows));
      EmptyDsts(FlowsOf(s.ownerOf, o'));
      EmptyDsts(ToSet(flows));
    case ReconcileAt(o', _, flows, _) =>
      if OwnerIn(s, op) == Some(o') {
        FlowsAfterReconcile(s, o', ToSet(flows));
        EmptyDsts(FlowsOf(s.ownerOf, o'));
        EmptyDsts(ToSet(flows));
      }
  }

  lemma EmptyDsts(fs: set<Flow>)
    ensures DstsOf(fs) == {} <==> fs == {}
  {
    if f :| f in fs {
      assert f.dstIp in DstsOf(fs);
    }
  }

  // ------------------------------------------------- replaying the reports

  /** The destinations each owner has open flows to. */
  function Open<K(==)>(s: Flat<K>): set<(K, Ipv4)> {
    set f | f in s.ownerOf :: (s.ownerOf[f], f.dstIp)
  }

  /** The receiving end: apply one report to the destinations believed live. */
  function Replay<K(==)>(live: set<(K, Ipv4)>, r: Report<K>): set<(K, Ipv4)> {
    match r.ownerKey
    case None => live
    case Some(o) =>
      (live - set x | x in live && x.0 == o && (x.1, false) in r.dsts :: x)
      + set d | d in r.dsts && d.1 :: (o, d.0)
  }

  function ReplayRun<K(==)>(live: set<(K, Ipv4)>, s: Flat<K>, ops: seq<Op<K>>): set<(K, Ipv4)>
    decreases |ops|
  {
    if |ops| == 0 then live
    else ReplayRun(Replay(live, Reported(s, ops[0])), Next(s, ops[0]), ops[1..])
  }

  /** The destinations whose last close went unreported because the owner's
      emptiness was suppressed, and that have not reopened since. */
  function HiddenRun<K(==)>(hidden: set<(K, Ipv4)>, s: Flat<K>, ops: seq<Op<K>>): set<(K, Ipv4)>
    decreases |ops|
  {
    if |ops| == 0 then hidden
    else
      var s' := Next(s, ops[0]);
      var closed := if Silenced(s, ops[0]) then Open(s) - Open(s') else {};
      HiddenRun((hidden - Open(s')) + closed, s', ops[1..])
  }

  lemma OpenIs<K>(s: Flat<K>, o: K, d: Ipv4)
    ensures (o, d) in Open(s) <==> d in DstsOf(FlowsOf(s.ownerOf, o))
  {
  }

  /** A report says `true` of a destination exactly if it opened, and `false` exactly if
      it closed while the owner's emptiness is trusted. */
  ghost predicate ReportsCrossing<K>(s: Flat<K>, op: Op<K>, o: K, d: Ipv4) {
    var r, s' := Reported(s, op), Next(s, op);
    && (r.ownerKey == Some(o) && (d, true) in r.dsts <==> (o, d) in Open(s') && (o, d) !in Open(s))
    && (r.ownerKey == Some(o) && (d, false) in r.dsts <==>
          (o, d) in Open(s) && (o, d) !in Open(s') && !Silenced(s, op))
  }

  lemma InsertReportsCrossing<K>(s: Flat<K>, op: Op<K>, o: K, d: Ipv4)
    requires op.Insert? && Proper(s, op)
    ensures ReportsCrossing(s, op, o, d)
  {
    OpenIs(s, o, d);
    OpenIs(Next(s, op), o, d);
    FlowsAfterInsert(s.ownerOf, op.owner, op.flow);
  }

  lemma RemoveReportsCrossing<K>(s: Flat<K>, op: Op<K>, o: K, d: Ipv4)
    requires op.Remove?
    ensures ReportsCrossing(s, op, o, d)
  {
    var f, s' := op.closed, Next(s, op);
    OpenIs(s, o, d);
    OpenIs(s', o, d);
    if f in s.ownerOf {
      assert FlowsOf(s'.ownerOf, s.ownerOf[f]) == FlowsOf(s.ownerOf, s.ownerOf[f]) - {f};
      assert o != s.ownerOf[f] ==> FlowsOf(s'.ownerOf, o) == FlowsOf(s.ownerOf, o);
    }
  }

  lemma ReconcileReportsCrossing<K>(s: Flat<K>, op: Op<K>, o: K, d: Ipv4)
    requires op.Reconcile? && Proper(s, op)
    ensures ReportsCrossing(s, op, o, d)
  {
    OpenIs(s, o, d);
    OpenIs(Next(s, op), o, d);
    FlowsAfterReconcile(s, op.owner, ToSet(op.flows));
  }

  /** At destination grain reports are exactly the crossings, for every operation. */
  lemma DestinationReportsAreCrossings<K>(s: Flat<K>, op: Op<K>, o: K, d: Ipv4)
    requires Proper(s, op)
    ensures ReportsCrossing(s, op, o, d)
  {
    match op
    case Insert(_, _) => InsertReportsCrossing(s, op, o, d);
    case Remove(_, _) => RemoveReportsCrossing(s, op, o, d);
    case SuppressUntil(_, _) =>
    case Reconcile(_, _, _) => ReconcileReportsCrossing(s, op, o, d);
    case ReconcileAt(o', revision, flows, now) =>
      if Revision(s, o') == revision {
        ReconcileReportsCrossing(s, Reconcile(o', flows, now), o, d);
      }
  }

  lemma ReplayStep<K>(s: Flat<K>, op: Op<K>, hidden: set<(K, Ipv4)>)
    requires Proper(s, op) && hidden !! Open(s)
    ensures var s' := Next(s, op);
            var closed := if Silenced(s, op) then Open(s) - Open(s') else {};
            Replay(Open(s) + hidden, Reported(s, op)) == Open(s') + ((hidden - Open(s')) + closed)
  {
    var s' := Next(s, op);
    var closed := if Silenced(s, op) then Open(s) - Open(s') else {};
    var live := Open(s) + hidden;
    var r := Reported(s, op);
    forall o, d
      ensures (o, d) in Replay(live, r) <==> (o, d) in Open(s') + ((hidden - Open(s')) + closed)
    {
      DestinationReportsAreCrossings(s, op, o, d);
      if r.ownerKey == Some(o) && (d, true) in r.dsts {
        assert ((d, true)).1;
      }
    }
    forall x ensures x in Replay(live, r) <==> x in Open(s') + ((hidden - Open(s')) + closed) {
      assert x == (x.0, x.1);
    }
  }

  lemma {:induction false} ReplayFrom<K>(s: Flat<K>, ops: seq<Op<K>>, hidden: set<(K, Ipv4)>)
    requires Legal(s, ops) && hidden !! Open(s)
    ensures ReplayRun(Open(s) + hidden, s, ops) == Open(Run(s, ops)) + HiddenRun(hidden, s, ops)
    decreases |ops|
  {
    if |ops| > 0 {
      var s' := Next(s, ops[0]);
      var closed := if Silenced(s, ops[0]) then Open(s) - Open(s') else {};
      ReplayStep(s, ops[0], hidden);
      ReplayFrom(s', ops[1..], (hidden - Open(s')) + closed);
    }
  }

  /** Replaying every report of a run gives exactly the destinations with open
      flows, plus those whose last close was suppressed. */
  lemma ReportsReplayToOpenDestinations<K>(ops: seq<Op<K>>)
    requires Legal(Empty<K>(), ops)
    ensures ReplayRun({}, Empty<K>(), ops) == Open(Run(Empty<K>(), ops)) + HiddenRun({}, Empty<K>(), ops)
  {
    assert Open(Empty<K>()) + {} == {};
    ReplayFrom(Empty<K>(), ops, {});
  }

  ghost predicate NeverSuppresses<K>(ops: seq<Op<K>>) {
    forall i :: 0 <= i < |ops| ==> !ops[i].SuppressUntil?
  }

  lemma {:induction false} NothingHidden<K>(s: Flat<K>, ops: seq<Op<K>>)
    requires s.suppressed == map[] && NeverSuppresses(ops)
    ensures HiddenRun({}, s, ops) == {}
    decreases |ops|
  {
    if |ops| > 0 {
      var s' := Next(s, ops[0]);
      assert !ops[0].SuppressUntil?;
      assert s'.suppressed == map[];
      assert ({} - Open(s')) + {} == {};
      NothingHidden(s', ops[1..]);
    }
  }

  /** Without suppression the replay is exact. */
  lemma UnsuppressedReplayIsExact<K>(ops: seq<Op<K>>)
    requires Legal(Empty<K>(), ops) && NeverSuppresses(ops)
    ensures ReplayRun({}, Empty<K>(), ops) == Open(Run(Empty<K>(), ops))
  {
    ReportsReplayToOpenDestinations(ops);
    NothingHidden(Empty<K>(), ops);
  }

  // --------------------------------------------------- snapshots and revisions

  /** Revisions are issued from one counter, starting at 1. */
  ghost predicate Revised<K>(s: Flat<K>) {
    forall o :: o in s.revisions ==> 1 <= s.revisions[o] <= s.nextRevision
  }

  /** Everything a snapshot of `o` would replace. */
  function Slice<K(==)>(s: Flat<K>, o: K): (set<Flow>, Option<nat>) {
    (FlowsOf(s.ownerOf, o), if o in s.suppressed then Some(s.suppressed[o]) else None)
  }

  lemma StepMovesOneOwner<K>(s: Flat<K>, op: Op<K>, o: K)
    requires Revised(s) && Proper(s, op)
    ensures Revised(Next(s, op)) && s.nextRevision <= Next(s, op).nextRevision
    ensures OwnerIn(s, op) == Some(o) ==> Revision(Next(s, op), o) > s.nextRevision
    ensures OwnerIn(s, op) != Some(o) ==>
              Revision(Next(s, op), o) == Revision(s, o) && Slice(Next(s, op), o) == Slice(s, o)
  {
    var s' := Next(s, op);
    match op
    case Insert(o', f) => FlowsAfterInsert(s.ownerOf, o', f);
    case Remove(f, _) =>
      assert f in s.ownerOf && s.ownerOf[f] != o ==> FlowsOf(s'.ownerOf, o) == FlowsOf(s.ownerOf, o);
    case SuppressUntil(_, _) =>
    case Reconcile(o', flows, _) => FlowsAfterReconcile(s, o', ToSet(flows));
    case ReconcileAt(o', revision, flows, _) =>
      if Revision(s, o') == revision { FlowsAfterReconcile(s, o', ToSet(flows)); }
  }

  /** No operation of the run acts on `o`. */
  predicate Untouched<K(==)>(s: Flat<K>, ops: seq<Op<K>>, o: K)
    decreases |ops|
  {
    |ops| > 0 ==> OwnerIn(s, ops[0]) != Some(o) && Untouched(Next(s, ops[0]), ops[1..], o)
  }

  lemma {:induction false} RevisionTellsTouched<K>(s: Flat<K>, ops: seq<Op<K>>, o: K)
    requires Revised(s) && Legal(s, ops)
    ensures Revision(s, o) <= Revision(Run(s, ops), o)
    ensures Revision(Run(s, ops), o) == Revision(s, o) <==> Untouched(s, ops, o)
    ensures Untouched(s, ops, o) ==> Slice(Run(s, ops), o) == Slice(s, o)
    decreases |ops|
  {
    if |ops| > 0 {
      StepMovesOneOwner(s, ops[0], o);
      RevisionTellsTouched(Next(s, ops[0]), ops[1..], o);
      assert o in s.revisions ==> s.revisions[o] <= s.nextRevision;
    }
  }

  lemma {:induction false} RunsAreRevised<K>(s: Flat<K>, ops: seq<Op<K>>)
    requires Revised(s)
    ensures Revised(Run(s, ops))
    decreases |ops|
  {
    if |ops| > 0 {
      RunsAreRevised(Next(s, ops[0]), ops[1..]);
    }
  }

  /** A snapshot taken at a revision is applied exactly when nothing happened to
      its owner in between, whatever other owners did; then the owner's state is
      still what it was at the read. Otherwise it changes nothing at all. */
  lemma SnapshotIsLinearizable<K>(past: seq<Op<K>>, ops: seq<Op<K>>, o: K, flows: seq<Flow>, now: nat)
    requires Legal(Run(Empty<K>(), past), ops)
    ensures var read := Run(Empty<K>(), past);
            var s := Run(read, ops);
            var op := ReconcileAt(o, Revision(read, o), flows, now);
            if Untouched(read, ops, o)
            then Slice(s, o) == Slice(read, o) && Next(s, op) == Next(s, Reconcile(o, flows, now))
                 && Reported(s, op) == Reported(s, Reconcile(o, flows, now))
            else Next(s, op) == s && Reported(s, op) == Silent()
  {
    RunsAreRevised(Empty<K>(), past);
    RevisionTellsTouched(Run(Empty<K>(), past), ops, o);
  }
}
