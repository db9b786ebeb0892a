/** Which connections are open, grouped by owner (the `OpenFlows` set of
    members/nullnet-client/src/conntrack.rs).

    The specification is one flat map from connection to owner; reports, the
    suppression of idleness and the revisions that guard snapshots are defined
    on it. The class keeps the nested owner/destination index beside the reverse
    index and refines the flat map. */
module OpenFlowSpec {
  import opened Basics
  import opened Flows

  datatype Transition<K> = Active(key: K) | Idle(key: K)

  /** What an update reports: the owner's 0<->1 crossing and the destinations
      whose open-flow count crossed 0<->1, with their new state. */
  datatype Report<K> = Report(ownerKey: Option<K>, owner: Option<Transition<K>>, dsts: set<(Ipv4, bool)>)

  datatype Flat<K(==)> = Flat(
    ownerOf: map<Flow, K>,
    suppressed: map<K, nat>,
    revisions: map<K, nat>,
    nextRevision: nat)

  function Empty<K(==)>(): Flat<K> {
    Flat(map[], map[], map[], 0)
  }

  function Silent<K>(): Report<K> {
    Report(None, None, {})
  }

  function FlowsOf<K(==)>(m: map<Flow, K>, o: K): set<Flow> {
    set f | f in m && m[f] == o
  }

  function DstsOf(fs: set<Flow>): set<Ipv4> {
    set f | f in fs :: f.dstIp
  }

  function Revision<K(==)>(s: Flat<K>, o: K): nat {
    if o in s.revisions then s.revisions[o] else 0
  }

  function Touch<K(==)>(s: Flat<K>, o: K): Flat<K> {
    s.(nextRevision := s.nextRevision + 1, revisions := s.revisions[o := s.nextRevision + 1])
  }

  predicate Suppressed<K(==)>(s: Flat<K>, o: K, now: nat) {
    o in s.suppressed && now < s.suppressed[o]
  }

  function ToSet(fs: seq<Flow>): set<Flow> {
    set f | f in fs
  }

  datatype Op<K> =
    | Insert(owner: K, flow: Flow)
    | Remove(closed: Flow, now: nat)
    | SuppressUntil(owner: K, until: nat)
    | Reconcile(owner: K, flows: seq<Flow>, now: nat)
    | ReconcileAt(owner: K, revision: nat, flows: seq<Flow>, now: nat)

  function AllTo<K(==)>(flows: set<Flow>, o: K): map<Flow, K> {
    map f | f in flows :: o
  }

  function Reconciled<K(==)>(s: Flat<K>, o: K, flows: set<Flow>): Flat<K> {
    Touch(s, o).(
      ownerOf := (s.ownerOf - FlowsOf(s.ownerOf, o)) + AllTo(flows, o),
      suppressed := if flows == {} then s.suppressed else s.suppressed - {o})
  }

  function Next<K(==)>(s: Flat<K>, op: Op<K>): Flat<K> {
    match op
    case Insert(o, f) => Touch(s, o).(ownerOf := s.ownerOf[f := o], suppressed := s.suppressed - {o})
    case Remove(f, _) =>
      if f in s.ownerOf then Touch(s, s.ownerOf[f]).(ownerOf := s.ownerOf - {f}) else s
    case SuppressUntil(o, until) => Touch(s, o).(suppressed := s.suppressed[o := until])
    case Reconcile(o, flows, _) => Reconciled(s, o, ToSet(flows))
    case ReconcileAt(o, revision, flows, _) =>
      if Revision(s, o) == revision then Reconciled(s, o, ToSet(flows)) else s
  }

  function Marked(ds: set<Ipv4>, open: bool): set<(Ipv4, bool)> {
    set d | d in ds :: (d, open)
  }

  function ReconcileReport<K(==)>(s: Flat<K>, o: K, flows: set<Flow>, now: nat): Report<K> {
    var before := DstsOf(FlowsOf(s.ownerOf, o));
    var after := DstsOf(flows);
    var silenced := Suppressed(Reconciled(s, o, flows), o, now);
    Report(Some(o),
           if before != {} && after == {} && !silenced then Some(Idle(o)) else None,
           Marked(after - before, true) + if silenced then {} else Marked(before - after, false))
  }

  function Reported<K(==)>(s: Flat<K>, op: Op<K>): Report<K> {
    match op
    case Insert(o, f) =>
      var mine := FlowsOf(s.ownerOf, o);
      if f in mine then Silent()
      else Report(Some(o), if mine == {} then Some(Active(o)) else None,
                  if f.dstIp in DstsOf(mine) then {} else {(f.dstIp, true)})
    case Remove(f, now) =>
      if f !in s.ownerOf || Suppressed(s, s.ownerOf[f], now) then Silent()
      else
        var o := s.ownerOf[f];
        var left := FlowsOf(s.ownerOf, o) - {f};
        Report(Some(o), if left == {} then Some(Idle(o)) else None,
               if f.dstIp in DstsOf(left) then {} else {(f.dstIp, false)})
    case SuppressUntil(_, _) => Silent()
    case Reconcile(o, flows, now) => ReconcileReport(s, o, ToSet(flows), now)
    case ReconcileAt(o, revision, flows, now) =>
      if Revision(s, o) == revision then ReconcileReport(s, o, ToSet(flows), now) else Silent()
  }

  /** No connection is filed under one owner while another holds it. */
  predicate Filable<K(==)>(m: map<Flow, K>, o: K, flows: set<Flow>) {
    forall f :: f in flows && f in m ==> m[f] == o
  }

  predicate Proper<K(==)>(s: Flat<K>, op: Op<K>) {
    match op
    case Insert(o, f) => Filable(s.ownerOf, o, {f})
    case Remove(_, _) => true
    case SuppressUntil(_, _) => true
    case Reconcile(o, flows, _) => Filable(s.ownerOf, o, ToSet(flows))
    case ReconcileAt(o, revision, flows, _) => Revision(s, o) == revision ==> Filable(s.ownerOf, o, ToSet(flows))
  }

  predicate Legal<K(==)>(s: Flat<K>, ops: seq<Op<K>>)
    decreases |ops|
  {
    |ops| > 0 ==> Proper(s, ops[0]) && Legal(Next(s, ops[0]), ops[1..])
  }

  function Run<K(==)>(s: Flat<K>, ops: seq<Op<K>>): Flat<K>
    decreases |ops|
  {
    if |ops| == 0 then s else Run(Next(s, ops[0]), ops[1..])
  }

  // ------------------------------------------------------------ owner reports

  function Openings<K(==)>(s: Flat<K>, o: K): nat {
    |FlowsOf(s.ownerOf, o)|
  }

  /** Whose flows the operation acts on. */
  function OwnerIn<K(==)>(s: Flat<K>, op: Op<K>): Option<K> {
    match op
    case Insert(o, _) => Some(o)
    case Remove(f, _) => if f in s.ownerOf then Some(s.ownerOf[f]) else None
    case SuppressUntil(o, _) => Some(o)
    case Reconcile(o, _, _) => Some(o)
    case ReconcileAt(o, revision, _, _) => if Revision(s, o) == revision then Some(o) else None
  }

  /** Whether emptiness of the acted-on owner is currently our own doing. */
  predicate Silenced<K(==)>(s: Flat<K>, op: Op<K>) {
    match op
    case Insert(_, _) => false
    case Remove(f, now) => f in s.ownerOf && Suppressed(s, s.ownerOf[f], now)
    case SuppressUntil(_, _) => false
    case Reconcile(o, _, now) => Suppressed(Next(s, op), o, now)
    case ReconcileAt(o, _, _, now) => Suppressed(Next(s, op), o, now)
  }
}
