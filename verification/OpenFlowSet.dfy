/** The mutable open-flow set: a nested index by owner and destination beside the
    reverse index (members/nullnet-client/src/conntrack.rs:361-612). */
module OpenFlowSets {
  import opened Basics
  import opened Flows
  import opened OpenFlowSpec

  type Nested<K(==)> = map<K, map<Ipv4, set<Flow>>>

  datatype Change<K> = Change(ownerKey: Option<K>, owner: Option<Transition<K>>, dsts: seq<(Ipv4, bool)>)

  /** The flows the nested index files under an owner and a destination. */
  function Filed<K(==)>(n: Nested<K>, o: K, d: Ipv4): set<Flow> {
    if o in n && d in n[o] then n[o][d] else {}
  }

  /** The nested sets are exactly the preimages of the reverse index, and no
      inner map or set is empty. */
  ghost predicate Agree<K(!new)>(n: Nested<K>, m: map<Flow, K>) {
    && (forall o, d, f :: f in Filed(n, o, d) <==> f in m && m[f] == o && f.dstIp == d)
    && NoneEmpty(n)
  }

  ghost predicate NoneEmpty<K(!new)>(n: Nested<K>) {
    && (forall o :: o in n ==> n[o] != map[])
    && (forall o, d :: o in n && d in n[o] ==> n[o][d] != {})
  }

  ghost function AsReport<K>(c: Change<K>): Report<K> {
    Report(c.ownerKey, c.owner, set x | x in c.dsts)
  }

  ghost predicate NoRepeats(s: seq<(Ipv4, bool)>) {
    forall i, j :: 0 <= i < j < |s| ==> s[i] != s[j]
  }

  lemma AgreeDsts<K(!new)>(n: Nested<K>, m: map<Flow, K>, o: K)
    requires Agree(n, m)
    ensures (if o in n then n[o].Keys else {}) == DstsOf(FlowsOf(m, o))
    ensures o in n <==> FlowsOf(m, o) != {}
  {
    if o in n {
      forall d | d in n[o] ensures d in DstsOf(FlowsOf(m, o)) {
        var f :| f in n[o][d];
        assert f in Filed(n, o, d);
        assert f in FlowsOf(m, o);
      }
      assert n[o].Keys != {};
    }
    forall f | f in FlowsOf(m, o) ensures o in n && f.dstIp in n[o] {
      assert f in Filed(n, o, f.dstIp);
    }
  }

  function Inserted<K(==)>(n: Nested<K>, o: K, f: Flow): Nested<K> {
    var byDst := if o in n then n[o] else map[];
    n[o := byDst[f.dstIp := (if f.dstIp in byDst then byDst[f.dstIp] else {}) + {f}]]
  }

  lemma InsertAgreement<K(!new)>(n: Nested<K>, m: map<Flow, K>, o: K, f: Flow)
    requires Agree(n, m)
    ensures Agree(Inserted(n, o, f), m[f := o]) <==> Filable(m, o, {f})
  {
    var n' := Inserted(n, o, f);
    assert forall o', d, g :: g in Filed(n', o', d) <==> g in Filed(n, o', d) || (o' == o && d == f.dstIp && g == f);
    if !Filable(m, o, {f}) {
      assert f in Filed(n, m[f], f.dstIp);
      assert f in Filed(n', m[f], f.dstIp);
    }
  }

  /** A flow filed under one owner and then another stays filed under both, while the
      reverse index names the second. */
  lemma SecondOwnerParts<K(!new)>(o: K, o': K, f: Flow)
    requires o != o'
    ensures
      var n := Inserted(map[], o, f);
      && Agree(n, map[f := o])
      && f in Filed(Inserted(n, o', f), o, f.dstIp) && f in Filed(Inserted(n, o', f), o', f.dstIp)
      && !Agree(Inserted(n, o', f), map[f := o'])
  {
    var n := Inserted(map[], o, f);
    InsertAgreement(map[], map[], o, f);
    assert map[][f := o] == map[f := o];
    InsertAgreement(n, map[f := o], o', f);
    assert map[f := o][f := o'] == map[f := o'];
  }

  lemma DuplicateInsert<K(!new)>(n: Nested<K>, m: map<Flow, K>, o: K, f: Flow)
    requires Agree(n, m) && f in Filed(n, o, f.dstIp)
    ensures Inserted(n, o, f) == n && m[f := o] == m
  {
    assert n[o][f.dstIp] + {f} == n[o][f.dstIp];
    assert n[o][f.dstIp := n[o][f.dstIp]] == n[o];
  }

  function Removed<K(==)>(n: Nested<K>, o: K, f: Flow): Nested<K>
    requires o in n && f.dstIp in n[o]
  {
    var left := n[o][f.dstIp] - {f};
    var byDst := if left == {} then n[o] - {f.dstIp} else n[o][f.dstIp := left];
    if byDst == map[] then n - {o} else n[o := byDst]
  }

  lemma RemoveAgreement<K(!new)>(n: Nested<K>, m: map<Flow, K>, f: Flow)
    requires Agree(n, m) && f in m
    ensures m[f] in n && f.dstIp in n[m[f]] && Agree(Removed(n, m[f], f), m - {f})
  {
    var o := m[f];
    assert f in Filed(n, o, f.dstIp);
    var n' := Removed(n, o, f);
    forall o', d
      ensures Filed(n', o', d) == if o' == o && d == f.dstIp then Filed(n, o', d) - {f} else Filed(n, o', d)
    {
      if o' == o && d != f.dstIp && d in n[o] {
        assert d in n[o] - {f.dstIp} && d in n[o][f.dstIp := n[o][f.dstIp] - {f}];
      }
    }
  }

  /** What closing `f` leaves of its owner, read off the nested index. */
  lemma RemoveCrossings<K(!new)>(n: Nested<K>, m: map<Flow, K>, f: Flow)
    requires Agree(n, m) && f in m
    ensures var o := m[f];
            var left := FlowsOf(m, o) - {f};
            && o in n && f.dstIp in n[o]
            && (o !in Removed(n, o, f) <==> left == {})
            && (n[o][f.dstIp] - {f} == {} <==> f.dstIp !in DstsOf(left))
  {
    var o := m[f];
    RemoveAgreement(n, m, f);
    var n' := Removed(n, o, f);
    AgreeDsts(n', m - {f}, o);
    assert FlowsOf(m - {f}, o) == FlowsOf(m, o) - {f};
    if g :| g in n[o][f.dstIp] - {f} {
      assert g in Filed(n, o, f.dstIp);
      assert g in FlowsOf(m, o) - {f};
    }
    forall g | g in FlowsOf(m, o) - {f} && g.dstIp == f.dstIp ensures g in n[o][f.dstIp] - {f} {
      assert g in Filed(n, o, f.dstIp);
    }
  }

  /** Closing a flow, in terms of the nested index. */
  lemma RemoveMeetsSpec<K(!new)>(n: Nested<K>, s: Flat<K>, f: Flow, now: nat)
    requires Agree(n, s.ownerOf) && f in s.ownerOf
    ensures var o := s.ownerOf[f];
            && o in n && f.dstIp in n[o]
            && Agree(Removed(n, o, f), Next(s, OpenFlowSpec.Remove(f, now)).ownerOf)
            && Reported(s, OpenFlowSpec.Remove(f, now)) ==
                 if Suppressed(s, o, now) then Silent()
                 else Report(Some(o), if o !in Removed(n, o, f) then Some(Idle(o)) else None,
                             if n[o][f.dstIp] - {f} == {} then {(f.dstIp, false)} else {})
  {
    RemoveAgreement(n, s.ownerOf, f);
    RemoveCrossings(n, s.ownerOf, f);
  }

  lemma ShortReports<K>(c: Change<K>, x: (Ipv4, bool))
    ensures c.dsts == [] ==> AsReport(c) == Report(c.ownerKey, c.owner, {}) && NoRepeats(c.dsts)
    ensures c.dsts == [x] ==> AsReport(c) == Report(c.ownerKey, c.owner, {x}) && NoRepeats(c.dsts)
  {
  }

  /** What is reported of a close that was not suppressed. */
  function Closing<K>(o: K, f: Flow, dstIdle: bool, ownerIdle: bool): Change<K> {
    Change(Some(o), if ownerIdle then Some(Idle(o)) else None, if dstIdle then [(f.dstIp, false)] else [])
  }

  lemma ClosingMeetsSpec<K(!new)>(n: Nested<K>, s: Flat<K>, f: Flow, now: nat, n': Nested<K>, c: Change<K>)
    requires Agree(n, s.ownerOf) && f in s.ownerOf
    requires
      var o := s.ownerOf[f];
      o in n && f.dstIp in n[o] ==>
        && n' == Removed(n, o, f)
        && c == if Suppressed(s, o, now) then Change(None, None, [])
                else Closing(o, f, n[o][f.dstIp] - {f} == {}, o !in n')
    ensures Agree(n', s.ownerOf - {f}) && AsReport(c) == Reported(s, OpenFlowSpec.Remove(f, now)) && NoRepeats(c.dsts)
  {
    RemoveMeetsSpec(n, s, f, now);
    ShortReports(c, (f.dstIp, false));
  }

  /** The flows of one owner, grouped by destination. */
  function GroupByDst(fs: set<Flow>): map<Ipv4, set<Flow>> {
    map d | d in DstsOf(fs) :: set f | f in fs && f.dstIp == d
  }

  lemma GroupAnother(fs: set<Flow>, f: Flow)
    ensures var g := GroupByDst(fs);
            GroupByDst(fs + {f}) == g[f.dstIp := (if f.dstIp in g then g[f.dstIp] else {}) + {f}]
  {
    var g := GroupByDst(fs);
    var g' := g[f.dstIp := (if f.dstIp in g then g[f.dstIp] else {}) + {f}];
    assert DstsOf(fs + {f}) == DstsOf(fs) + {f.dstIp};
    forall d | d in g' ensures g'[d] == set x | x in fs + {f} && x.dstIp == d {
      if d == f.dstIp && d !in g {
        assert forall x :: x in fs && x.dstIp == d ==> x.dstIp in DstsOf(fs);
      }
    }
  }

  /** All flows of an inner map. */
  function Flattened(byDst: map<Ipv4, set<Flow>>, ds: set<Ipv4>): set<Flow> {
    set d, f | d in ds && d in byDst && f in byDst[d] :: f
  }

  lemma FlattenedIsOwned<K(!new)>(n: Nested<K>, m: map<Flow, K>, o: K)
    requires Agree(n, m) && o in n
    ensures Flattened(n[o], n[o].Keys) == FlowsOf(m, o)
  {
    forall f | f in Flattened(n[o], n[o].Keys) ensures f in FlowsOf(m, o) {
      var d :| d in n[o] && f in n[o][d];
      assert f in Filed(n, o, d);
    }
    forall f | f in FlowsOf(m, o) ensures f in Flattened(n[o], n[o].Keys) {
      assert f in Filed(n, o, f.dstIp);
    }
  }

  function Refiled<K(==)>(n: Nested<K>, o: K, fs: set<Flow>): Nested<K> {
    if fs == {} then n - {o} else n[o := GroupByDst(fs)]
  }

  lemma RefiledSets<K(!new)>(n: Nested<K>, o: K, fs: set<Flow>, o': K, d: Ipv4)
    ensures Filed(Refiled(n, o, fs), o', d) == if o' == o then set f | f in fs && f.dstIp == d else Filed(n, o', d)
  {
  }

  lemma ReconcileKeepsAgreement<K(!new)>(n: Nested<K>, s: Flat<K>, o: K, fs: set<Flow>)
    requires Agree(n, s.ownerOf) && Filable(s.ownerOf, o, fs)
    ensures Agree(Refiled(n, o, fs), Reconciled(s, o, fs).ownerOf)
  {
    var n', m' := Refiled(n, o, fs), Reconciled(s, o, fs).ownerOf;
    forall o', d, f ensures f in Filed(n', o', d) <==> f in m' && m'[f] == o' && f.dstIp == d {
      RefiledSets(n, o, fs, o', d);
      assert f in Filed(n, o', d) <==> f in s.ownerOf && s.ownerOf[f] == o' && f.dstIp == d;
    }
    RefiledNoneEmpty(n, o, fs);
  }

  lemma RefiledNoneEmpty<K(!new)>(n: Nested<K>, o: K, fs: set<Flow>)
    requires NoneEmpty(n)
    ensures NoneEmpty(Refiled(n, o, fs))
  {
    GroupKeys(fs);
    forall d | d in DstsOf(fs) ensures GroupByDst(fs)[d] != {} {
      var f :| f in fs && f.dstIp == d;
      assert f in GroupByDst(fs)[d];
    }
  }

  lemma GroupKeys(fs: set<Flow>)
    ensures GroupByDst(fs).Keys == DstsOf(fs)
    ensures GroupByDst(fs) == map[] <==> fs == {}
  {
    if f :| f in fs {
      assert f.dstIp in GroupByDst(fs);
    }
  }

  lemma ReconcileAgreement<K(!new)>(n: Nested<K>, s: Flat<K>, o: K, fs: set<Flow>)
    requires Agree(n, s.ownerOf)
    ensures Agree(Refiled(n, o, fs), Reconciled(s, o, fs).ownerOf) <==> Filable(s.ownerOf, o, fs)
  {
    if Filable(s.ownerOf, o, fs) {
      ReconcileKeepsAgreement(n, s, o, fs);
    } else {
      var f :| f in fs && f in s.ownerOf && s.ownerOf[f] != o;
      RefiledSets(n, o, fs, s.ownerOf[f], f.dstIp);
      assert f in Filed(Refiled(n, o, fs), s.ownerOf[f], f.dstIp);
      assert Reconciled(s, o, fs).ownerOf[f] == o;
    }
  }

  /** The report of a snapshot, read off the nested index. */
  lemma ReconcileCrossings<K(!new)>(n: Nested<K>, s: Flat<K>, o: K, fs: set<Flow>)
    requires Agree(n, s.ownerOf)
    ensures var prior := if o in n then n[o] else map[];
            && s.ownerOf - Flattened(prior, prior.Keys) == s.ownerOf - FlowsOf(s.ownerOf, o)
            && prior.Keys == DstsOf(FlowsOf(s.ownerOf, o))
            && (o in n <==> prior.Keys != {})
            && GroupByDst(fs).Keys == DstsOf(fs)
            && (GroupByDst(fs) == map[] <==> fs == {})
  {
    GroupKeys(fs);
    AgreeDsts(n, s.ownerOf, o);
    if o in n {
      FlattenedIsOwned(n, s.ownerOf, o);
      assert n[o].Keys != {};
    }
  }

  function Prior<K(==)>(n: Nested<K>, o: K): map<Ipv4, set<Flow>> {
    if o in n then n[o] else map[]
  }

  /** A snapshot, in terms of the nested index. */
  lemma ReconcileMeetsSpec<K(!new)>(n: Nested<K>, s: Flat<K>, o: K, flows: seq<Flow>, now: nat)
    requires Agree(n, s.ownerOf)
    ensures var fs, prior := ToSet(flows), Prior(n, o);
            var byDst := GroupByDst(fs);
            var op := OpenFlowSpec.Reconcile(o, flows, now);
            var silenced := Suppressed(Next(s, op), o, now);
            && Next(s, op).ownerOf == (s.ownerOf - Flattened(prior, prior.Keys)) + AllTo(fs, o)
            && (byDst == map[] <==> fs == {})
            && (Agree(Refiled(n, o, fs), Next(s, op).ownerOf) <==> Filable(s.ownerOf, o, fs))
            && Reported(s, op) ==
                 Report(Some(o), if o in n && byDst == map[] && !silenced then Some(Idle(o)) else None,
                        Marked(byDst.Keys - prior.Keys, true)
                        + if silenced then {} else Marked(prior.Keys - byDst.Keys, false))
  {
    ReconcileAgreement(n, s, o, ToSet(flows));
    ReconcileCrossings(n, s, o, ToSet(flows));
  }

  lemma JoinedReport<K>(c: Change<K>, newly: seq<(Ipv4, bool)>, gone: seq<(Ipv4, bool)>, up: set<Ipv4>, down: set<Ipv4>)
    requires c.dsts == newly + gone
    requires (set x | x in newly) == Marked(up, true) && NoRepeats(newly)
    requires (set x | x in gone) == Marked(down, false) && NoRepeats(gone)
    ensures AsReport(c) == Report(c.ownerKey, c.owner, Marked(up, true) + Marked(down, false)) && NoRepeats(c.dsts)
  {
    forall i, j | 0 <= i < j < |c.dsts| ensures c.dsts[i] != c.dsts[j] {
      if i < |newly| <= j {
        assert newly[i] in (set x | x in newly) && gone[j - |newly|] in (set x | x in gone);
        assert newly[i] in Marked(up, true) && gone[j - |newly|] in Marked(down, false);
        assert newly[i].1 && !gone[j - |newly|].1;
      } else if |newly| <= i {
        assert c.dsts[i] == gone[i - |newly|] && c.dsts[j] == gone[j - |newly|];
      }
    }
  }

  lemma AllToAnother<K>(m: map<Flow, K>, fs: set<Flow>, f: Flow, o: K)
    ensures m + AllTo(fs + {f}, o) == (m + AllTo(fs, o))[f := o]
  {
  }

  /** One entry per destination, in whatever order the set yields them. */
  method ListMarked(ds: set<Ipv4>, open: bool) returns (s: seq<(Ipv4, bool)>)
    ensures (set x | x in s) == Marked(ds, open) && NoRepeats(s)
  {
    s := [];
    var left := ds;
    while left != {}
      invariant left <= ds
      invariant forall x :: x in s <==> x.1 == open && x.0 in ds - left
      invariant NoRepeats(s)
      decreases left
    {
      var d :| d in left;
      s := s + [(d, open)];
      left := left - {d};
    }
  }

  class OpenFlows<K(==, !new)> {
    var perOwner: Nested<K>
    var ownerOf: map<Flow, K>
    var suppressed: map<K, nat>
    var revisions: map<K, nat>
    var nextRevision: nat

    ghost predicate Agrees()
      reads this
    {
      Agree(perOwner, ownerOf)
    }

    ghost function View(): Flat<K>
      reads this
    {
      Flat(ownerOf, suppressed, revisions, nextRevision)
    }

    constructor ()
      ensures Agrees() && View() == Empty<K>()
    {
      perOwner := map[];
      ownerOf := map[];
      suppressed := map[];
      revisions := map[];
      nextRevision := 0;
    }

    method RevisionOf(owner: K) returns (r: nat)
      ensures r == Revision(View(), owner)
    {
      r := if owner in revisions then revisions[owner] else 0;
    }

    method Changed(owner: K)
      modifies this`revisions, this`nextRevision
      ensures View() == Touch(old(View()), owner)
    {
      nextRevision := nextRevision + 1;
      revisions := revisions[owner := nextRevision];
    }

    /** The indexes still agree afterwards exactly when no other owner holds the
        flow. */
    method Insert(owner: K, flow: Flow) returns (change: Change<K>)
      modifies this
      ensures old(Agrees()) ==>
                && View() == Next(old(View()), OpenFlowSpec.Insert(owner, flow))
                && (Agrees() <==> Filable(old(ownerOf), owner, {flow}))
                && AsReport(change) == Reported(old(View()), OpenFlowSpec.Insert(owner, flow))
                && NoRepeats(change.dsts)
    {
      ghost var n, m := perOwner, ownerOf;
      Changed(owner);
      suppressed := suppressed - {owner};
      var byDst := if owner in perOwner then perOwner[owner] else map[];
      var ownerWasEmpty := byDst == map[];
      var flows := if flow.dstIp in byDst then byDst[flow.dstIp] else {};
      var dstWasEmpty := flows == {};
      perOwner := perOwner[owner := byDst[flow.dstIp := flows + {flow}]];
      assert perOwner == Inserted(n, owner, flow);
      if flow in flows {
        if Agree(n, m) { DuplicateInsert(n, m, owner, flow); }
        return Change(None, None, []);
      }
      ownerOf := ownerOf[flow := owner];
      change := Change(Some(owner), if ownerWasEmpty then Some(Active(owner)) else None,
                       if dstWasEmpty then [(flow.dstIp, true)] else []);
      if Agree(n, m) {
        InsertAgreement(n, m, owner, flow);
        AgreeDsts(n, m, owner);
        assert flow !in Filed(n, owner, flow.dstIp);
      }
    }

    method Remove(flow: Flow, now: nat) returns (change: Change<K>)
      modifies this
      ensures old(Agrees()) ==>
                && View() == Next(old(View()), OpenFlowSpec.Remove(flow, now))
                && Agrees()
                && AsReport(change) == Reported(old(View()), OpenFlowSpec.Remove(flow, now))
                && NoRepeats(change.dsts)
    {
      if flow !in ownerOf {
        change := Change(None, None, []);
        ShortReports(change, (flow.dstIp, false));
        return;
      }
      ghost var n, s := perOwner, View();
      var owner := ownerOf[flow];
      ownerOf := ownerOf - {flow};
      Changed(owner);
      change := Change(None, None, []);
      if owner in perOwner {
        var dstIdle, ownerIdle := Unfile(owner, flow);
        if !(owner in suppressed && now < suppressed[owner]) {
          change := Closing(owner, flow, dstIdle, ownerIdle);
        }
      }
      if Agree(n, s.ownerOf) { ClosingMeetsSpec(n, s, flow, now, perOwner, change); }
    }

    /** Take `flow` out of its owner's nested sets, dropping what becomes empty. */
    method Unfile(owner: K, flow: Flow) returns (dstIdle: bool, ownerIdle: bool)
      requires owner in perOwner
      modifies this`perOwner
      ensures flow.dstIp in old(perOwner)[owner] ==>
                && perOwner == Removed(old(perOwner), owner, flow)
                && dstIdle == (old(perOwner)[owner][flow.dstIp] - {flow} == {})
                && ownerIdle == (owner !in perOwner)
    {
      var byDst := perOwner[owner];
      dstIdle := false;
      if flow.dstIp in byDst {
        var left := byDst[flow.dstIp] - {flow};
        if left == {} {
          byDst := byDst - {flow.dstIp};
          dstIdle := true;
        } else {
          byDst := byDst[flow.dstIp := left];
        }
      }
      ownerIdle := byDst == map[];
      perOwner := if ownerIdle then perOwner - {owner} else perOwner[owner := byDst];
    }

    method SuppressFor(owner: K, now: nat, window: nat)
      modifies this
      ensures View() == Next(old(View()), SuppressUntil(owner, now + window))
      ensures perOwner == old(perOwner)
    {
      Changed(owner);
      suppressed := suppressed[owner := now + window];
    }

    /** The indexes still agree afterwards exactly when no other owner holds a
        flow of the snapshot. */
    method Reconcile(owner: K, flows: seq<Flow>, now: nat) returns (change: Change<K>)
      modifies this
      ensures old(Agrees()) ==>
                && View() == Next(old(View()), OpenFlowSpec.Reconcile(owner, flows, now))
                && (Agrees() <==> Filable(old(ownerOf), owner, ToSet(flows)))
                && AsReport(change) == Reported(old(View()), OpenFlowSpec.Reconcile(owner, flows, now))
                && NoRepeats(change.dsts)
    {
      ghost var s, n := View(), perOwner;
      if Agree(n, s.ownerOf) { ReconcileMeetsSpec(n, s, owner, flows, now); }
      var wasActive := owner in perOwner;
      var prior, byDst := Refile(owner, flows);
      var newly := ListMarked(byDst.Keys - prior.Keys, true);
      var quiet := owner in suppressed && now < suppressed[owner];
      var gone := [];
      if !quiet {
        gone := ListMarked(prior.Keys - byDst.Keys, false);
      }
      change := Change(Some(owner), if wasActive && byDst == map[] && !quiet then Some(Idle(owner)) else None,
                       newly + gone);
      JoinedReport(change, newly, gone, byDst.Keys - prior.Keys, if quiet then {} else prior.Keys - byDst.Keys);
    }

    /** Replace an owner's flows in both indexes; a non-empty snapshot is
        first-hand evidence and ends suppression. */
    method Refile(owner: K, flows: seq<Flow>) returns (prior: map<Ipv4, set<Flow>>, byDst: map<Ipv4, set<Flow>>)
      modifies this
      ensures prior == Prior(old(perOwner), owner) && byDst == GroupByDst(ToSet(flows))
      ensures byDst == map[] <==> ToSet(flows) == {}
      ensures perOwner == Refiled(old(perOwner), owner, ToSet(flows))
      ensures View() == Touch(old(View()), owner).(
                          ownerOf := (old(ownerOf) - Flattened(prior, prior.Keys)) + AllTo(ToSet(flows), owner),
                          suppressed := if byDst == map[] then old(suppressed) else old(suppressed) - {owner})
    {
      Changed(owner);
      prior := if owner in perOwner then perOwner[owner] else map[];
      perOwner := perOwner - {owner};
      DropOwned(prior);
      byDst := FileAll(owner, flows);
      GroupKeys(ToSet(flows));
      if byDst != map[] {
        assert (old(perOwner) - {owner})[owner := byDst] == old(perOwner)[owner := byDst];
        perOwner := perOwner[owner := byDst];
        suppressed := suppressed - {owner};
      }
    }

    /** Apply a snapshot only if its owner has not changed since it was read. */
    method ReconcileAt(owner: K, revision: nat, flows: seq<Flow>, now: nat) returns (change: Change<K>)
      modifies this
      ensures old(Agrees()) ==>
                && View() == Next(old(View()), OpenFlowSpec.ReconcileAt(owner, revision, flows, now))
                && (Agrees() <==> Proper(old(View()), OpenFlowSpec.ReconcileAt(owner, revision, flows, now)))
                && AsReport(change) == Reported(old(View()), OpenFlowSpec.ReconcileAt(owner, revision, flows, now))
                && NoRepeats(change.dsts)
    {
      var current := RevisionOf(owner);
      if current != revision {
        change := Change(None, None, []);
        assert AsReport(change) == Silent();
        return;
      }
      change := Reconcile(owner, flows, now);
    }

    /** Forget the reverse entries of every flow in `byDst`. */
    method DropOwned(byDst: map<Ipv4, set<Flow>>)
      modifies this`ownerOf
      ensures ownerOf == old(ownerOf) - Flattened(byDst, byDst.Keys)
    {
      var left := byDst.Keys;
      while left != {}
        invariant left <= byDst.Keys
        invariant ownerOf == old(ownerOf) - Flattened(byDst, byDst.Keys - left)
        decreases left
      {
        var d :| d in left;
        ghost var done := byDst.Keys - left;
        ownerOf := ownerOf - byDst[d];
        left := left - {d};
        assert byDst.Keys - left == done + {d};
        assert Flattened(byDst, done + {d}) == Flattened(byDst, done) + byDst[d];
      }
      assert byDst.Keys - left == byDst.Keys;
    }

    /** File a snapshot under `owner` in the reverse index and group it. */
    method FileAll(owner: K, flows: seq<Flow>) returns (byDst: map<Ipv4, set<Flow>>)
      modifies this`ownerOf
      ensures ownerOf == old(ownerOf) + AllTo(ToSet(flows), owner)
      ensures byDst == GroupByDst(ToSet(flows))
    {
      byDst := map[];
      for i := 0 to |flows|
        invariant ownerOf == old(ownerOf) + AllTo(ToSet(flows[..i]), owner)
        invariant byDst == GroupByDst(ToSet(flows[..i]))
      {
        var f := flows[i];
        GroupAnother(ToSet(flows[..i]), f);
        AllToAnother(old(ownerOf), ToSet(flows[..i]), f, owner);
        assert ToSet(flows[..i + 1]) == ToSet(flows[..i]) + {f};
        ownerOf := ownerOf[f := owner];
        byDst := byDst[f.dstIp := (if f.dstIp in byDst then byDst[f.dstIp] else {}) + {f}];
      }
      assert flows[..|flows|] == flows;
    }
  }
}
