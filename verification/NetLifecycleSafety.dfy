/** Safety of the net-id lifecycle over every run: an inductive invariant, and
    what follows from it about reuse, activation and conservation of ids. */
module NetLifecycleSafety {
  import opened Basics
  import opened NetIdPools
  import opened NetLifecycle

  // ---------------------------------------------------------------- invariant

  /** Every id below `nextFresh` is queued in the pool once or held by exactly
      one generation, never both. */
  ghost predicate IdsConserved(s: State) {
    && MIN_NET_ID <= s.pool.nextFresh <= MaxNetId(Vxlan) + 1
    && Distinct(s.pool.freed)
    && (forall id :: id in s.pool.freed ==> MIN_NET_ID <= id < s.pool.nextFresh)
    && (forall g, id: nat :: Holds(s, g, id) ==> MIN_NET_ID <= id < s.pool.nextFresh && id !in s.pool.freed)
    && (forall g, g', id: nat :: Holds(s, g, id) && Holds(s, g', id) ==> g == g')
    && (forall id :: MIN_NET_ID <= id < s.pool.nextFresh && id !in s.pool.freed ==> exists g :: Holds(s, g, id))
  }

  /** A live map entry and its generation name each other. */
  ghost predicate EdgesAgree(s: State) {
    && (forall k :: k in s.edges ==>
          && s.edges[k].gen in s.builds
          && s.builds[s.edges[k].gen].key == k
          && (s.edges[k].netId != 0 ==> s.builds[s.edges[k].gen].phase == Live(s.edges[k].netId)))
    && (forall g :: g in s.builds && s.builds[g].phase.Live? ==>
          s.builds[g].key in s.edges
          && s.edges[s.builds[g].key].gen == g
          && s.edges[s.builds[g].key].netId == s.builds[g].phase.id)
  }

  predicate SetupsAcked(acks: set<Ack>, g: Gen) {
    Ack(OfSetup, g, Client) in acks && Ack(OfSetup, g, Server) in acks
  }

  predicate WaitEarned(acks: set<Ack>, w: Wait, to: Node, ack: Ack) {
    && (w.Captured? ==> w.conn.node == to)
    && (w.Acked? ==> ack in acks)
  }

  /** Where `b` may stand, given the confirmations received so far. */
  predicate Earned(acks: set<Ack>, g: Gen, b: Build) {
    && (b.phase.Setting? ==> forall side ::
          WaitEarned(acks, Get(b.phase.waits, side), Dest(b, side), Ack(OfSetup, g, side)))
    && (b.phase.Readying? ==> WaitEarned(acks, b.phase.ready, b.key.node, Ack(OfReady, g, Client)))
    && (b.phase.Readying? || b.phase.Promoting? || b.phase.Live? ==> SetupsAcked(acks, g))
    && (b.phase.Promoting? || b.phase.Live? ==> Ack(OfReady, g, Client) in acks)
    && (b.mustUnreserve ==> b.phase.Tearing? || b.phase.Finished?)
  }

  ghost predicate PhasesEarned(s: State) {
    forall g :: g in s.builds ==> Earned(s.acks, g, s.builds[g])
  }

  /** An open stream belongs to a registered node. */
  ghost predicate HostsSound(s: State) {
    forall n :: Connected(s, n) ==> s.hosts[n].registered
  }

  /** A queued message was sent by the generation that still holds its id, to the
      endpoint it is meant for. */
  predicate MsgSound(s: State, n: Node, m: Msg) {
    && n in s.hosts
    && Holds(s, m.gen, m.id)
    && Dest(s.builds[m.gen], SideOf(m)) == n
    && match m
       case Setup(_, g, _, c) => c == s.builds[g].key.container
       case Ready(_, g) => SetupsAcked(s.acks, g)
       case Teardown(_, g, side) =>
         && s.builds[g].phase.Tearing?
         && Get(s.builds[g].phase.legs, side) == Sent(Conn(n, s.hosts[n].epoch))
  }

  ghost predicate QueuesSound(s: State) {
    forall n, i :: Connected(s, n) && 0 <= i < |s.hosts[n].queue| ==> MsgSound(s, n, s.hosts[n].queue[i])
  }

  /** Nothing of a generation's endpoint is queued behind its teardown. */
  ghost predicate TeardownsLast(s: State) {
    forall n, i, j :: Connected(s, n) && 0 <= i < j < |s.hosts[n].queue| && s.hosts[n].queue[i].Teardown?
      && s.hosts[n].queue[i].gen == s.hosts[n].queue[j].gen
      ==> SideOf(s.hosts[n].queue[i]) != SideOf(s.hosts[n].queue[j])
  }

  /** Kernel state of a connected node belongs to the holder of its id. */
  ghost predicate KernelsSound(s: State) {
    forall n, x :: Connected(s, n) && x in s.hosts[n].kernel ==>
      var g := s.hosts[n].kernel[x];
      Holds(s, g, x.0) && Dest(s.builds[g], x.1) == n
  }

  predicate EntrySound(s: State, n: Node, c: Container, e: Entry) {
    e.Installed? ==>
      && Holds(s, e.gen, e.id)
      && s.builds[e.gen].key == EdgeKey(n, c)
      && (e.active.Some? ==> e.active == Some(e.gen) && SetupsAcked(s.acks, e.gen))
  }

  ghost predicate TriggersSound(s: State) {
    forall n, c :: Connected(s, n) && c in s.hosts[n].triggers ==> EntrySound(s, n, c, s.hosts[n].triggers[c])
  }

  /** Endpoint `side` of `g` holds nothing of it any more. */
  ghost predicate Clean(s: State, g: Gen, side: Side)
    requires g in s.builds && HasId(s.builds[g].phase)
  {
    var n := Dest(s.builds[g], side);
    Connected(s, n) ==>
      && (forall i :: 0 <= i < |s.hosts[n].queue| ==>
            !(s.hosts[n].queue[i].gen == g && SideOf(s.hosts[n].queue[i]) == side))
      && (forall x :: x in s.hosts[n].kernel && x.1 == side ==> s.hosts[n].kernel[x] != g)
      && (side == Client ==> forall c :: c in s.hosts[n].triggers ==>
            !(s.hosts[n].triggers[c].Installed? && s.hosts[n].triggers[c].gen == g))
  }

  ghost predicate LegSound(s: State, g: Gen, side: Side)
    requires g in s.builds && s.builds[g].phase.Tearing?
  {
    var l := Get(s.builds[g].phase.legs, side);
    && (LegSettled(l) ==> Clean(s, g, side))
    && (l.Held? || l.Sent? ==>
          && l.conn.node == Dest(s.builds[g], side)
          && l.conn.node in s.hosts && l.conn.epoch <= s.hosts[l.conn.node].epoch
          && (!Up(s, l.conn) ==> Clean(s, g, side)))
    && (Ack(OfTeardown, g, side) in s.acks ==> l.Sent? || l.Done?)
    && (Ack(OfTeardown, g, side) in s.acks ==> Clean(s, g, side))
  }

  ghost predicate LegsSound(s: State) {
    forall g, side :: g in s.builds && s.builds[g].phase.Tearing? ==> LegSound(s, g, side)
  }

  /** A teardown is confirmed only once it is under way. */
  ghost predicate AcksSound(s: State) {
    forall g, side :: Ack(OfTeardown, g, side) in s.acks ==>
      g in s.builds && (s.builds[g].phase.Tearing? || s.builds[g].phase.Finished?)
  }

  ghost predicate ServerInv(s: State) {
    EdgesAgree(s) && PhasesEarned(s) && AcksSound(s)
  }

  ghost predicate HostInv(s: State) {
    && HostsSound(s)
    && QueuesSound(s)
    && TeardownsLast(s)
    && KernelsSound(s)
    && TriggersSound(s)
  }

  ghost predicate Inv(s: State) {
    IdsConserved(s) && ServerInv(s) && HostInv(s) && LegsSound(s)
  }

  lemma InitInv()
    ensures Inv(INIT)
  {
  }

  // ------------------------------------------------------------ server steps

  /** Same parties and same id; a teardown under way is left alone. */
  predicate Carried(b: Build, b': Build) {
    && b'.key == b.key && b'.proxy == b.proxy
    && HasId(b.phase) && HasId(b'.phase) && b'.phase.id == b.phase.id
    && (b.phase.Tearing? ==> b'.phase == b.phase)
  }

  /** No connected node holds anything of `g`. */
  ghost predicate Absent(s: State, g: Gen) {
    && (forall n, i :: Connected(s, n) && 0 <= i < |s.hosts[n].queue| ==> s.hosts[n].queue[i].gen != g)
    && (forall n, x :: Connected(s, n) && x in s.hosts[n].kernel ==> s.hosts[n].kernel[x] != g)
    && (forall n, c :: Connected(s, n) && c in s.hosts[n].triggers ==>
          !(s.hosts[n].triggers[c].Installed? && s.hosts[n].triggers[c].gen == g))
  }

  /** A step of the server alone: hosts keep their state, and every generation
      still known to a host carries on with the same parties and id. */
  ghost predicate ServerOnly(s: State, s': State) {
    && s'.hosts == s.hosts && s'.acks == s.acks
    && (forall g :: g in s.builds && HasId(s.builds[g].phase) ==>
          Absent(s, g) || (g in s'.builds && Carried(s.builds[g], s'.builds[g])))
  }

  lemma ServerOnlyKeepsHosts(s: State, s': State)
    requires HostInv(s) && ServerOnly(s, s')
    ensures HostInv(s')
  {
    assert forall g, id: nat :: Holds(s, g, id) && !Absent(s, g) ==> Holds(s', g, id);
    forall n, i | Connected(s', n) && 0 <= i < |s'.hosts[n].queue|
      ensures MsgSound(s', n, s'.hosts[n].queue[i])
    {
      assert MsgSound(s, n, s.hosts[n].queue[i]);
    }
  }

  /** Teardowns under way are those of before, or have only just begun. */
  ghost predicate TeardownsKept(s: State, s': State) {
    && s'.hosts == s.hosts && s'.acks == s.acks
    && (forall g :: g in s'.builds && s'.builds[g].phase.Tearing? ==>
          || (g in s.builds && s'.builds[g].phase == s.builds[g].phase
              && s'.builds[g].key == s.builds[g].key && s'.builds[g].proxy == s.builds[g].proxy)
          || (s'.builds[g].phase.legs == Pair(Unlooked, Unlooked)
              && (forall side :: Ack(OfTeardown, g, side) !in s.acks)))
  }

  lemma TeardownsKeptKeepsLegs(s: State, s': State)
    requires LegsSound(s) && TeardownsKept(s, s')
    ensures LegsSound(s')
  {
    forall g, side | g in s'.builds && s'.builds[g].phase.Tearing?
      ensures LegSound(s', g, side)
    {
      if g in s.builds && s'.builds[g].phase == s.builds[g].phase {
        assert LegSound(s, g, side);
      }
    }
  }

  lemma SameHoldersKeepIds(s: State, s': State)
    requires IdsConserved(s) && s'.pool == s.pool
    requires forall g, id: nat :: Holds(s', g, id) <==> Holds(s, g, id)
    ensures IdsConserved(s')
  {
  }

  lemma ServerOnlyKeepsInv(s: State, s': State)
    requires Inv(s) && ServerOnly(s, s') && TeardownsKept(s, s')
    requires IdsConserved(s') && ServerInv(s')
    ensures Inv(s')
  {
    ServerOnlyKeepsHosts(s, s');
    TeardownsKeptKeepsLegs(s, s');
  }

  /** Ids start at 101, so a tunnel never carries the placeholder 0. */
  ghost predicate IdsNonzero(s: State) {
    forall g :: g in s.builds && HasId(s.builds[g].phase) ==> s.builds[g].phase.id != 0
  }

  lemma HeldIdsNonzero(s: State)
    requires IdsConserved(s)
    ensures IdsNonzero(s)
  {
    forall g | g in s.builds && HasId(s.builds[g].phase) ensures s.builds[g].phase.id != 0 {
      assert Holds(s, g, s.builds[g].phase.id);
    }
  }

  lemma ReserveKeepsServer(s: State, g: Gen, k: EdgeKey, proxy: Node)
    requires ServerInv(s) && IdsNonzero(s) && BuildEnabled(s, Reserve(g, k, proxy))
    ensures ServerInv(BuildApply(s, Reserve(g, k, proxy)))
  {
  }

  lemma ReserveKeepsInv(s: State, g: Gen, k: EdgeKey, proxy: Node)
    requires Inv(s) && BuildEnabled(s, Reserve(g, k, proxy))
    ensures Inv(BuildApply(s, Reserve(g, k, proxy)))
  {
    var s' := BuildApply(s, Reserve(g, k, proxy));
    HeldIdsNonzero(s);
    ReserveKeepsServer(s, g, k, proxy);
    assert forall g', id: nat :: Holds(s', g', id) <==> Holds(s, g', id);
    SameHoldersKeepIds(s, s');
    ServerOnlyKeepsInv(s, s');
  }

  predicate Building(p: Phase) {
    p.Setting? || p.Readying? || p.Promoting? || p.Failing? || p.Removed?
  }

  /** A build that moves on within its own id disturbs nothing else. */
  lemma PhaseMoveKeepsServer(s: State, g: Gen, p: Phase)
    requires ServerInv(s) && g in s.builds
    requires Building(s.builds[g].phase) && Building(p) && p.id == s.builds[g].phase.id
    requires Earned(s.acks, g, s.builds[g].(phase := p))
    ensures ServerInv(SetPhase(s, g, p))
  {
  }

  lemma PhaseMoveKeepsInv(s: State, g: Gen, p: Phase)
    requires Inv(s) && g in s.builds
    requires Building(s.builds[g].phase) && Building(p) && p.id == s.builds[g].phase.id
    requires Earned(s.acks, g, s.builds[g].(phase := p))
    ensures Inv(SetPhase(s, g, p))
  {
    var s' := SetPhase(s, g, p);
    PhaseMoveKeepsServer(s, g, p);
    assert forall g', id: nat :: Holds(s', g', id) <==> Holds(s, g', id);
    SameHoldersKeepIds(s, s');
    ServerOnlyKeepsInv(s, s');
  }

  lemma PromoteKeepsServer(s: State, g: Gen)
    requires ServerInv(s) && IdsNonzero(s) && g in s.builds && s.builds[g].phase.Promoting?
    ensures ServerInv(DoPromote(s, g))
  {
  }

  lemma RemoveEdgeKeepsServer(s: State, k: EdgeKey)
    requires ServerInv(s) && IdsNonzero(s) && k in s.edges
    ensures ServerInv(DoRemoveEdge(s, k))
  {
  }

  lemma UnreserveKeepsServer(s: State, g: Gen)
    requires ServerInv(s) && g in s.builds && s.builds[g].mustUnreserve
    ensures ServerInv(DoUnreserve(s, g))
  {
  }

  lemma PromoteMovesNoId(s: State, g: Gen)
    requires g in s.builds && s.builds[g].phase.Promoting?
    ensures ServerOnly(s, DoPromote(s, g)) && TeardownsKept(s, DoPromote(s, g)) && DoPromote(s, g).pool == s.pool
    ensures forall g', id: nat :: Holds(DoPromote(s, g), g', id) <==> Holds(s, g', id)
  {
  }

  lemma PromoteKeepsInv(s: State, g: Gen)
    requires Inv(s) && g in s.builds && s.builds[g].phase.Promoting?
    ensures Inv(DoPromote(s, g))
  {
    HeldIdsNonzero(s);
    PromoteKeepsServer(s, g);
    PromoteMovesNoId(s, g);
    SameHoldersKeepIds(s, DoPromote(s, g));
    ServerOnlyKeepsInv(s, DoPromote(s, g));
  }

  lemma RemoveEdgeMovesNoId(s: State, k: EdgeKey)
    requires EdgesAgree(s) && IdsNonzero(s) && k in s.edges
    ensures ServerOnly(s, DoRemoveEdge(s, k)) && TeardownsKept(s, DoRemoveEdge(s, k)) && DoRemoveEdge(s, k).pool == s.pool
    ensures forall g', id: nat :: Holds(DoRemoveEdge(s, k), g', id) <==> Holds(s, g', id)
  {
  }

  lemma RemoveEdgeKeepsInv(s: State, k: EdgeKey)
    requires Inv(s) && k in s.edges
    ensures Inv(DoRemoveEdge(s, k))
  {
    HeldIdsNonzero(s);
    RemoveEdgeKeepsServer(s, k);
    RemoveEdgeMovesNoId(s, k);
    SameHoldersKeepIds(s, DoRemoveEdge(s, k));
    ServerOnlyKeepsInv(s, DoRemoveEdge(s, k));
  }

  lemma UnreserveMovesNoId(s: State, g: Gen)
    requires g in s.builds && s.builds[g].mustUnreserve
    ensures ServerOnly(s, DoUnreserve(s, g)) && TeardownsKept(s, DoUnreserve(s, g)) && DoUnreserve(s, g).pool == s.pool
    ensures forall g', id: nat :: Holds(DoUnreserve(s, g), g', id) <==> Holds(s, g', id)
  {
  }

  lemma UnreserveKeepsInv(s: State, g: Gen)
    requires Inv(s) && g in s.builds && s.builds[g].mustUnreserve
    ensures Inv(DoUnreserve(s, g))
  {
    UnreserveKeepsServer(s, g);
    UnreserveMovesNoId(s, g);
    SameHoldersKeepIds(s, DoUnreserve(s, g));
    ServerOnlyKeepsInv(s, DoUnreserve(s, g));
  }

  // ------------------------------------------------------------- new messages

  /** `m` may be appended on `c`: it is sound there and nothing forbids it. */
  ghost predicate Sendable(s: State, c: Conn, m: Msg) {
    && Up(s, c)
    && MsgSound(s, c.node, m)
    && (forall i :: 0 <= i < |s.hosts[c.node].queue| && s.hosts[c.node].queue[i].Teardown? ==>
          !(s.hosts[c.node].queue[i].gen == m.gen && s.hosts[c.node].queue[i].side == SideOf(m)))
    && (s.builds[m.gen].phase.Tearing? ==>
          m.Teardown? && Ack(OfTeardown, m.gen, m.side) !in s.acks)
  }

  lemma EnqueueKeepsHosts(s: State, c: Conn, m: Msg)
    requires HostInv(s) && Sendable(s, c, m)
    ensures HostInv(Enqueue(s, c, m))
  {
    var s' := Enqueue(s, c, m);
    assert forall g, id: nat :: Holds(s', g, id) <==> Holds(s, g, id);
    forall n, i | Connected(s', n) && 0 <= i < |s'.hosts[n].queue|
      ensures MsgSound(s', n, s'.hosts[n].queue[i])
    {
      if n == c.node && i == |s.hosts[n].queue| {
        assert s'.hosts[n].queue[i] == m;
      } else {
        assert MsgSound(s, n, s.hosts[n].queue[i]);
      }
    }
  }

  lemma EnqueueKeepsLegs(s: State, c: Conn, m: Msg)
    requires LegsSound(s) && Sendable(s, c, m)
    ensures LegsSound(Enqueue(s, c, m))
  {
    var s' := Enqueue(s, c, m);
    forall g, side | g in s'.builds && s'.builds[g].phase.Tearing?
      ensures LegSound(s', g, side)
    {
      assert LegSound(s, g, side);
      if !(m.gen == g && SideOf(m) == side) && Clean(s, g, side) {
        assert Clean(s', g, side);
      }
    }
  }

  lemma EnqueueKeepsInv(s: State, c: Conn, m: Msg)
    requires Inv(s) && Sendable(s, c, m)
    ensures Inv(Enqueue(s, c, m))
  {
    var s' := Enqueue(s, c, m);
    assert forall g, id: nat :: Holds(s', g, id) <==> Holds(s, g, id);
    SameHoldersKeepIds(s, s');
    EnqueueKeepsHosts(s, c, m);
    EnqueueKeepsLegs(s, c, m);
  }

  lemma SendKeepsInv(s: State, g: Gen, role: Role)
    requires Inv(s) && BuildEnabled(s, Send(g, role))
    ensures Inv(DoSend(s, g, role))
  {
    var b := s.builds[g];
    var c := WaitOf(b.phase, role).conn;
    if Up(s, c) {
      var s1 := SetPhase(s, g, SetWait(b.phase, role, Waiting(c)));
      PhaseMoveKeepsInv(s, g, SetWait(b.phase, role, Waiting(c)));
      assert Sendable(s1, c, MsgFor(g, b, role));
      EnqueueKeepsInv(s1, c, MsgFor(g, b, role));
    } else {
      PhaseMoveKeepsInv(s, g, SetWait(b.phase, role, GaveUp));
    }
  }

  // ---------------------------------------------------------- teardown steps

  lemma BeginTeardownKeepsServer(s: State, g: Gen)
    requires ServerInv(s) && TeardownEnabled(s, BeginTeardown(g))
    ensures ServerInv(TeardownApply(s, BeginTeardown(g)))
  {
  }

  lemma BeginTeardownKeepsInv(s: State, g: Gen)
    requires Inv(s) && TeardownEnabled(s, BeginTeardown(g))
    ensures Inv(TeardownApply(s, BeginTeardown(g)))
  {
    var s' := TeardownApply(s, BeginTeardown(g));
    BeginTeardownKeepsServer(s, g);
    assert forall g', id: nat :: Holds(s', g', id) <==> Holds(s, g', id);
    SameHoldersKeepIds(s, s');
    ServerOnlyKeepsInv(s, s');
  }

  /** `l` may become endpoint `side`'s half of the teardown of `g`. */
  ghost predicate LegAllowed(s: State, g: Gen, side: Side, l: Leg)
    requires g in s.builds && s.builds[g].phase.Tearing?
  {
    && (Get(s.builds[g].phase.legs, side).Sent? || LegSettled(l) ==> Clean(s, g, side))
    && (l.Held? || l.Sent? ==>
          && l.conn.node == Dest(s.builds[g], side)
          && l.conn.node in s.hosts && l.conn.epoch <= s.hosts[l.conn.node].epoch
          && (!Up(s, l.conn) ==> Clean(s, g, side)))
    && (Ack(OfTeardown, g, side) in s.acks ==> l.Sent? || l.Done?)
  }

  function SetLeg(s: State, g: Gen, side: Side, l: Leg): State
    requires g in s.builds && s.builds[g].phase.Tearing?
  {
    SetPhase(s, g, s.builds[g].phase.(legs := Put(s.builds[g].phase.legs, side, l)))
  }

  lemma LegMoveKeepsHosts(s: State, g: Gen, side: Side, l: Leg)
    requires HostInv(s)
    requires g in s.builds && s.builds[g].phase.Tearing? && LegAllowed(s, g, side, l)
    ensures HostInv(SetLeg(s, g, side, l))
  {
    var s' := SetLeg(s, g, side, l);
    assert forall g, id: nat :: Holds(s', g, id) <==> Holds(s, g, id);
    forall n, i | Connected(s', n) && 0 <= i < |s'.hosts[n].queue|
      ensures MsgSound(s', n, s'.hosts[n].queue[i])
    {
      assert MsgSound(s, n, s.hosts[n].queue[i]);
    }
  }

  lemma LegMoveKeepsLegs(s: State, g: Gen, side: Side, l: Leg)
    requires LegsSound(s)
    requires g in s.builds && s.builds[g].phase.Tearing? && LegAllowed(s, g, side, l)
    ensures LegsSound(SetLeg(s, g, side, l))
  {
    var s' := SetLeg(s, g, side, l);
    forall g', side' | g' in s'.builds && s'.builds[g'].phase.Tearing?
      ensures LegSound(s', g', side')
    {
      assert LegSound(s, g', side');
      LegMoveKeepsLeg(s, g, side, l, g', side');
    }
  }

  lemma LegMoveKeepsLeg(s: State, g: Gen, side: Side, l: Leg, g': Gen, side': Side)
    requires g in s.builds && s.builds[g].phase.Tearing? && LegAllowed(s, g, side, l)
    requires g' in s.builds && s.builds[g'].phase.Tearing? && LegSound(s, g', side')
    ensures LegSound(SetLeg(s, g, side, l), g', side')
  {
    LegMoveKeepsClean(s, g, side, l, g', side');
  }

  lemma LegMoveKeepsClean(s: State, g: Gen, side: Side, l: Leg, g': Gen, side': Side)
    requires g in s.builds && s.builds[g].phase.Tearing? && g' in s.builds && HasId(s.builds[g'].phase)
    ensures Clean(SetLeg(s, g, side, l), g', side') == Clean(s, g', side')
  {
  }

  lemma LegMoveKeepsInv(s: State, g: Gen, side: Side, l: Leg)
    requires Inv(s)
    requires g in s.builds && s.builds[g].phase.Tearing? && LegAllowed(s, g, side, l)
    ensures Inv(SetLeg(s, g, side, l))
  {
    var s' := SetLeg(s, g, side, l);
    assert forall g, id: nat :: Holds(s', g, id) <==> Holds(s, g, id);
    SameHoldersKeepIds(s, s');
    LegMoveKeepsHosts(s, g, side, l);
    LegMoveKeepsLegs(s, g, side, l);
  }

  lemma LookKeepsInv(s: State, g: Gen, side: Side)
    requires Inv(s) && TeardownEnabled(s, Look(g, side))
    ensures Inv(DoLook(s, g, side))
  {
    assert LegSound(s, g, side);
    match Registered(s, Dest(s.builds[g], side))
    case Some(c) => LegMoveKeepsInv(s, g, side, Held(c));
    case None => LegMoveKeepsInv(s, g, side, Skipped);
  }

  lemma SettleKeepsInv(s: State, g: Gen, side: Side)
    requires Inv(s) && TeardownEnabled(s, Settle(g, side))
    ensures Inv(SetLeg(s, g, side, Done))
  {
    assert LegSound(s, g, side);
    LegMoveKeepsInv(s, g, side, Done);
  }

  lemma SendTeardownKeepsInv(s: State, g: Gen, side: Side)
    requires Inv(s) && TeardownEnabled(s, SendTeardown(g, side))
    ensures Inv(DoSendTeardown(s, g, side))
  {
    assert LegSound(s, g, side);
    var p := s.builds[g].phase;
    var c := Get(p.legs, side).conn;
    if Up(s, c) {
      LegMoveKeepsInv(s, g, side, Sent(c));
      assert Sendable(SetLeg(s, g, side, Sent(c)), c, Teardown(p.id, g, side));
      EnqueueKeepsInv(SetLeg(s, g, side, Sent(c)), c, Teardown(p.id, g, side));
    } else {
      LegMoveKeepsInv(s, g, side, Done);
    }
  }

  // ------------------------------------------------------------- id steps

  function HeldIds(s: State): set<nat> {
    set g | g in s.builds && HasId(s.builds[g].phase) :: s.builds[g].phase.id
  }

  ghost predicate OneHolder(s: State) {
    forall g, g', id: nat :: Holds(s, g, id) && Holds(s, g', id) ==> g == g'
  }

  lemma HeldHaveHolders(s: State)
    ensures forall g, id: nat :: Holds(s, g, id) ==> id in HeldIds(s)
    ensures forall id: nat :: id in HeldIds(s) ==> exists g :: Holds(s, g, id)
  {
    forall id: nat | id in HeldIds(s)
      ensures exists g :: Holds(s, g, id)
    {
      var g :| g in s.builds && HasId(s.builds[g].phase) && s.builds[g].phase.id == id;
      assert Holds(s, g, id);
    }
  }

  /** Conservation is the pool's own partition, with one holder for each id. */
  lemma ConservedIsPartition(s: State)
    ensures IdsConserved(s) <==> Partitions(Vxlan, s.pool, HeldIds(s)) && OneHolder(s)
  {
    HeldHaveHolders(s);
  }

  lemma TakeIdKeepsIds(s: State, g: Gen)
    requires IdsConserved(s) && g in s.builds && s.builds[g].phase.Reserved?
    ensures IdsConserved(DoTakeId(s, g))
  {
    var s' := DoTakeId(s, g);
    var (taken, _) := Allocate(Vxlan, s.pool);
    ConservedIsPartition(s);
    AllocateKeepsPartition(Vxlan, s.pool, HeldIds(s));
    if taken.Some? {
      assert forall g', id: nat :: Holds(s', g', id) <==> Holds(s, g', id) || (g' == g && id == taken.value);
      HeldAfterTake(s, s', g, taken.value);
    } else {
      assert forall g', id: nat :: Holds(s', g', id) <==> Holds(s, g', id);
      SameHoldersKeepIds(s, s');
    }
  }

  lemma HeldAfterTake(s: State, s': State, g: Gen, i: nat)
    requires OneHolder(s) && i !in HeldIds(s) && Partitions(Vxlan, s'.pool, HeldIds(s) + {i})
    requires forall g', id: nat :: Holds(s', g', id) <==> Holds(s, g', id) || (g' == g && id == i)
    ensures IdsConserved(s')
  {
    assert Holds(s', g, i);
    HeldHaveHolders(s);
    HeldHaveHolders(s');
    assert HeldIds(s') == HeldIds(s) + {i};
    ConservedIsPartition(s');
  }

  lemma TakeIdKeepsServer(s: State, g: Gen)
    requires ServerInv(s) && g in s.builds && s.builds[g].phase.Reserved?
    ensures ServerInv(DoTakeId(s, g))
  {
  }

  lemma TakeIdKeepsInv(s: State, g: Gen)
    requires Inv(s) && g in s.builds && s.builds[g].phase.Reserved?
    ensures Inv(DoTakeId(s, g))
  {
    TakeIdKeepsIds(s, g);
    TakeIdKeepsServer(s, g);
    TakeIdIsServerOnly(s, g);
    ServerOnlyKeepsInv(s, DoTakeId(s, g));
  }

  lemma TakeIdIsServerOnly(s: State, g: Gen)
    requires g in s.builds && s.builds[g].phase.Reserved?
    ensures ServerOnly(s, DoTakeId(s, g)) && TeardownsKept(s, DoTakeId(s, g))
  {
  }

  /** Both halves settled: no connected node holds anything of `g`. */
  lemma SettledMeansGone(s: State, g: Gen)
    requires Inv(s) && TeardownEnabled(s, FreeId(g))
    ensures Absent(s, g)
  {
    forall side ensures Clean(s, g, side) {
      assert LegSound(s, g, side);
    }
    forall n, i | Connected(s, n) && 0 <= i < |s.hosts[n].queue|
      ensures s.hosts[n].queue[i].gen != g
    {
      assert MsgSound(s, n, s.hosts[n].queue[i]);
      assert Clean(s, g, SideOf(s.hosts[n].queue[i]));
    }
    forall n, x | Connected(s, n) && x in s.hosts[n].kernel
      ensures s.hosts[n].kernel[x] != g
    {
      assert Clean(s, g, x.1);
    }
    assert Clean(s, g, Client);
  }

  lemma FreeIdKeepsIds(s: State, g: Gen)
    requires IdsConserved(s) && TeardownEnabled(s, FreeId(g))
    ensures IdsConserved(TeardownApply(s, FreeId(g)))
  {
    var s' := TeardownApply(s, FreeId(g));
    var i := s.builds[g].phase.id;
    assert Holds(s, g, i);
    ConservedIsPartition(s);
    FreeKeepsPartitionIff(Vxlan, s.pool, HeldIds(s), i);
    assert forall g', id: nat :: Holds(s', g', id) <==> Holds(s, g', id) && g' != g;
    HeldHaveHolders(s);
    HeldHaveHolders(s');
    assert HeldIds(s') == HeldIds(s) - {i};
    ConservedIsPartition(s');
  }

  lemma FreeIdKeepsServer(s: State, g: Gen)
    requires ServerInv(s) && TeardownEnabled(s, FreeId(g))
    ensures ServerInv(TeardownApply(s, FreeId(g)))
  {
  }

  lemma FreeIdKeepsInv(s: State, g: Gen)
    requires Inv(s) && TeardownEnabled(s, FreeId(g))
    ensures Inv(TeardownApply(s, FreeId(g)))
  {
    SettledMeansGone(s, g);
    FreeIdKeepsIds(s, g);
    FreeIdKeepsServer(s, g);
    ServerOnlyKeepsInv(s, TeardownApply(s, FreeId(g)));
  }

  // ------------------------------------------------------------- host steps

  /** A step of node `n` alone: the server's own state is untouched and the
      other nodes keep theirs. */
  ghost predicate HostOnly(s: State, s': State, n: Node) {
    && s'.pool == s.pool && s'.edges == s.edges && s'.builds == s.builds
    && s.acks <= s'.acks
    && (forall a :: a in s'.acks - s.acks && a.kind.OfTeardown? ==>
          a.gen in s.builds && s.builds[a.gen].phase.Tearing?)
    && n in s'.hosts && s'.hosts.Keys == s.hosts.Keys + {n}
    && (forall n' :: n' in s.hosts && n' != n ==> s'.hosts[n'] == s.hosts[n'])
  }

  /** What stands on `n` after the step was sound before it or is sound anew. */
  ghost predicate NodeSound(s: State, n: Node) {
    Connected(s, n) ==>
      && s.hosts[n].registered
      && (forall i :: 0 <= i < |s.hosts[n].queue| ==> MsgSound(s, n, s.hosts[n].queue[i]))
      && (forall i, j :: 0 <= i < j < |s.hosts[n].queue| && s.hosts[n].queue[i].Teardown?
            && s.hosts[n].queue[i].gen == s.hosts[n].queue[j].gen
            ==> SideOf(s.hosts[n].queue[i]) != SideOf(s.hosts[n].queue[j]))
      && (forall x :: x in s.hosts[n].kernel ==>
            Holds(s, s.hosts[n].kernel[x], x.0) && Dest(s.builds[s.hosts[n].kernel[x]], x.1) == n)
      && (forall c :: c in s.hosts[n].triggers ==> EntrySound(s, n, c, s.hosts[n].triggers[c]))
  }

  lemma HostOnlyKeepsServer(s: State, s': State, n: Node)
    requires ServerInv(s) && HostOnly(s, s', n)
    ensures ServerInv(s')
  {
  }

  lemma HostOnlyKeepsHosts(s: State, s': State, n: Node)
    requires HostInv(s) && HostOnly(s, s', n) && NodeSound(s', n)
    ensures HostInv(s')
  {
    assert forall g, id: nat :: Holds(s', g, id) <==> Holds(s, g, id);
    forall n', i | Connected(s', n') && 0 <= i < |s'.hosts[n'].queue|
      ensures MsgSound(s', n', s'.hosts[n'].queue[i])
    {
      if n' != n {
        assert MsgSound(s, n', s.hosts[n'].queue[i]);
      }
    }
    forall n', c | Connected(s', n') && c in s'.hosts[n'].triggers
      ensures EntrySound(s', n', c, s'.hosts[n'].triggers[c])
    {
      if n' != n {
        assert EntrySound(s, n', c, s.hosts[n'].triggers[c]);
      }
    }
  }

  predicate Blank(s: State, n: Node) {
    Connected(s, n) ==>
      s.hosts[n].queue == [] && s.hosts[n].kernel == map[] && s.hosts[n].triggers == map[]
  }

  /** Clean endpoints stay clean, a newly confirmed teardown left its endpoint
      clean, and a stream that ended took everything with it. */
  ghost predicate CleanKept(s: State, s': State, n: Node)
    requires HostOnly(s, s', n)
  {
    && (n in s.hosts ==> s.hosts[n].epoch <= s'.hosts[n].epoch)
    && (Blank(s', n) || (n in s.hosts && s'.hosts[n].epoch == s.hosts[n].epoch && s'.hosts[n].open == s.hosts[n].open))
    && (forall g, side :: g in s.builds && s.builds[g].phase.Tearing? && Dest(s.builds[g], side) == n ==>
          && (Clean(s, g, side) ==> Clean(s', g, side))
          && (Ack(OfTeardown, g, side) in s'.acks - s.acks ==>
                Get(s.builds[g].phase.legs, side).Sent? && Clean(s', g, side)))
    && (forall a :: a in s'.acks - s.acks && a.kind.OfTeardown? ==> Dest(s.builds[a.gen], a.side) == n)
  }

  lemma HostOnlyKeepsLegs(s: State, s': State, n: Node)
    requires LegsSound(s) && HostOnly(s, s', n) && CleanKept(s, s', n)
    ensures LegsSound(s')
  {
    forall g, side | g in s'.builds && s'.builds[g].phase.Tearing?
      ensures LegSound(s', g, side)
    {
      assert LegSound(s, g, side);
      var l := Get(s.builds[g].phase.legs, side);
      if Dest(s.builds[g], side) != n {
        assert Clean(s, g, side) ==> Clean(s', g, side);
        assert Ack(OfTeardown, g, side) !in s'.acks - s.acks;
      } else {
        if (l.Held? || l.Sent?) && !Up(s', l.conn) && Up(s, l.conn) {
          assert Clean(s', g, side);
        }
        if Ack(OfTeardown, g, side) in s'.acks && Ack(OfTeardown, g, side) !in s.acks {
          assert Ack(OfTeardown, g, side) in s'.acks - s.acks;
        }
      }
    }
  }

  lemma HostOnlyKeepsInv(s: State, s': State, n: Node)
    requires Inv(s) && HostOnly(s, s', n) && NodeSound(s', n) && CleanKept(s, s', n)
    ensures Inv(s')
  {
    assert forall g, id: nat :: Holds(s', g, id) <==> Holds(s, g, id);
    SameHoldersKeepIds(s, s');
    HostOnlyKeepsServer(s, s', n);
    HostOnlyKeepsHosts(s, s', n);
    HostOnlyKeepsLegs(s, s', n);
  }

  /** Closing, forgetting a stream, and coming back after a purge. */
  lemma StreamStepsKeepInv(s: State, n: Node, step: NodeStep)
    requires Inv(s) && NodeEnabled(s, n, step) && (step.Close? || step.Unregister? || step.Register?)
    ensures Inv(NodeApply(s, n, step))
  {
    HostOnlyKeepsInv(s, NodeApply(s, n, step), n);
  }

  lemma TriggerStepsKeepInv(s: State, n: Node, step: NodeStep)
    requires Inv(s) && NodeEnabled(s, n, step) && (step.ClaimTrigger? || step.ForgetTrigger?)
    ensures Inv(NodeApply(s, n, step))
  {
    var s' := NodeApply(s, n, step);
    TriggerStepIsSound(s, n, step);
    TriggerStepKeepsClean(s, n, step);
    HostOnlyKeepsInv(s, s', n);
  }

  lemma TriggerStepIsSound(s: State, n: Node, step: NodeStep)
    requires HostInv(s) && NodeEnabled(s, n, step) && (step.ClaimTrigger? || step.ForgetTrigger?)
    ensures HostOnly(s, NodeApply(s, n, step), n) && NodeSound(NodeApply(s, n, step), n)
  {
  }

  lemma TriggerStepKeepsClean(s: State, n: Node, step: NodeStep)
    requires NodeEnabled(s, n, step) && (step.ClaimTrigger? || step.ForgetTrigger?)
    requires HostOnly(s, NodeApply(s, n, step), n)
    ensures CleanKept(s, NodeApply(s, n, step), n)
  {
  }

  /** The queue without its message `i`. */
  lemma PopShifts(h: Host, i: nat)
    requires i < |h.queue|
    ensures forall j :: 0 <= j < |Pop(h, i).queue| ==>
              Pop(h, i).queue[j] == h.queue[if j < i then j else j + 1]
  {
  }

  /** Taking a message off the queue keeps the rest sound and in order. */
  lemma PopKeepsQueue(s: State, s': State, n: Node, i: nat)
    requires HostInv(s) && HostOnly(s, s', n) && Connected(s, n) && i < |s.hosts[n].queue|
    requires s'.hosts[n].queue == Pop(s.hosts[n], i).queue && s'.hosts[n].epoch == s.hosts[n].epoch
    ensures forall j :: 0 <= j < |s'.hosts[n].queue| ==> MsgSound(s', n, s'.hosts[n].queue[j])
    ensures forall j, k :: 0 <= j < k < |s'.hosts[n].queue| && s'.hosts[n].queue[j].Teardown?
              && s'.hosts[n].queue[j].gen == s'.hosts[n].queue[k].gen
              ==> SideOf(s'.hosts[n].queue[j]) != SideOf(s'.hosts[n].queue[k])
  {
    PopShifts(s.hosts[n], i);
    forall j | 0 <= j < |s'.hosts[n].queue|
      ensures MsgSound(s', n, s'.hosts[n].queue[j])
    {
      assert MsgSound(s, n, s.hosts[n].queue[if j < i then j else j + 1]);
    }
  }

  lemma HandleSetupSound(s: State, n: Node, i: nat, kernelUp: bool, prepared: bool, ok: bool)
    requires HostInv(s) && NodeEnabled(s, n, HandleSetup(i, kernelUp, prepared, ok))
    ensures NodeSound(DoHandleSetup(s, n, i, kernelUp, prepared, ok), n)
  {
    var s' := DoHandleSetup(s, n, i, kernelUp, prepared, ok);
    assert MsgSound(s, n, s.hosts[n].queue[i]);
    PopKeepsQueue(s, s', n, i);
    forall c | c in s'.hosts[n].triggers
      ensures EntrySound(s', n, c, s'.hosts[n].triggers[c])
    {
      if c in s.hosts[n].triggers {
        assert EntrySound(s, n, c, s.hosts[n].triggers[c]);
      }
    }
  }

  lemma HandleSetupClean(s: State, n: Node, i: nat, kernelUp: bool, prepared: bool, ok: bool)
    requires HostInv(s) && NodeEnabled(s, n, HandleSetup(i, kernelUp, prepared, ok))
    ensures CleanKept(s, DoHandleSetup(s, n, i, kernelUp, prepared, ok), n)
  {
    var s' := DoHandleSetup(s, n, i, kernelUp, prepared, ok);
    PopShifts(s.hosts[n], i);
  }

  lemma HandleSetupKeepsInv(s: State, n: Node, i: nat, kernelUp: bool, prepared: bool, ok: bool)
    requires Inv(s) && NodeEnabled(s, n, HandleSetup(i, kernelUp, prepared, ok))
    ensures Inv(DoHandleSetup(s, n, i, kernelUp, prepared, ok))
  {
    HandleSetupSound(s, n, i, kernelUp, prepared, ok);
    HandleSetupClean(s, n, i, kernelUp, prepared, ok);
    HostOnlyKeepsInv(s, DoHandleSetup(s, n, i, kernelUp, prepared, ok), n);
  }

  /** A NetReady releases packets only of the generation that sent it, and only
      after both endpoints confirmed that generation's setup. */
  lemma ReadyActivatesItsOwnTunnel(s: State, n: Node, i: nat, c: Container)
    requires Inv(s) && NodeEnabled(s, n, HandleReady(i, Some(c)))
    ensures s.hosts[n].triggers[c].gen == s.hosts[n].queue[i].gen
    ensures SetupsAcked(s.acks, s.hosts[n].queue[i].gen)
  {
  }

  lemma HandleReadySound(s: State, n: Node, i: nat, found: Option<Container>)
    requires Inv(s) && NodeEnabled(s, n, HandleReady(i, found))
    ensures NodeSound(DoHandleReady(s, n, i, found), n)
  {
    var s' := DoHandleReady(s, n, i, found);
    PopKeepsQueue(s, s', n, i);
    if found.Some? { ReadyActivatesItsOwnTunnel(s, n, i, found.value); }
    forall c | c in s'.hosts[n].triggers
      ensures EntrySound(s', n, c, s'.hosts[n].triggers[c])
    {
      assert EntrySound(s, n, c, s.hosts[n].triggers[c]);
    }
  }

  lemma HandleReadyClean(s: State, n: Node, i: nat, found: Option<Container>)
    requires NodeEnabled(s, n, HandleReady(i, found))
    ensures HostOnly(s, DoHandleReady(s, n, i, found), n)
    ensures CleanKept(s, DoHandleReady(s, n, i, found), n)
  {
    PopShifts(s.hosts[n], i);
  }

  lemma HandleReadyKeepsInv(s: State, n: Node, i: nat, found: Option<Container>)
    requires Inv(s) && NodeEnabled(s, n, HandleReady(i, found))
    ensures Inv(DoHandleReady(s, n, i, found))
  {
    HandleReadySound(s, n, i, found);
    HandleReadyClean(s, n, i, found);
    HostOnlyKeepsInv(s, DoHandleReady(s, n, i, found), n);
  }

  lemma HandleTeardownSound(s: State, n: Node, i: nat, kernelGone: bool, found: Option<Container>, ok: bool)
    requires HostInv(s) && NodeEnabled(s, n, HandleTeardown(i, kernelGone, found, ok))
    ensures HostOnly(s, DoHandleTeardown(s, n, i, kernelGone, found, ok), n)
    ensures NodeSound(DoHandleTeardown(s, n, i, kernelGone, found, ok), n)
  {
    var s' := DoHandleTeardown(s, n, i, kernelGone, found, ok);
    assert MsgSound(s, n, s.hosts[n].queue[i]);
    PopKeepsQueue(s, s', n, i);
    forall c | c in s'.hosts[n].triggers
      ensures EntrySound(s', n, c, s'.hosts[n].triggers[c])
    {
      assert EntrySound(s, n, c, s.hosts[n].triggers[c]);
    }
  }

  /** A confirmed teardown leaves nothing of its tunnel on that endpoint: it ran
      after every earlier command for the id, and nothing was queued behind it. */
  lemma TeardownCleans(s: State, n: Node, i: nat, found: Option<Container>)
    requires IdsConserved(s) && HostInv(s) && NodeEnabled(s, n, HandleTeardown(i, true, found, true))
    ensures var m := s.hosts[n].queue[i];
            Clean(DoHandleTeardown(s, n, i, true, found, true), m.gen, m.side)
  {
    var h := s.hosts[n];
    var m := h.queue[i];
    var s' := DoHandleTeardown(s, n, i, true, found, true);
    var h' := s'.hosts[n];
    assert MsgSound(s, n, m);
    PopShifts(h, i);
    forall j | 0 <= j < |h'.queue|
      ensures !(h'.queue[j].gen == m.gen && SideOf(h'.queue[j]) == m.side)
    {
      assert MsgSound(s, n, h.queue[if j < i then j else j + 1]);
    }
    if m.side == Client {
      forall c | c in h'.triggers
        ensures !(h'.triggers[c].Installed? && h'.triggers[c].gen == m.gen)
      {
        assert EntrySound(s, n, c, h.triggers[c]);
        if found.Some? {
          assert EntrySound(s, n, found.value, h.triggers[found.value]);
        }
      }
    }
  }

  /** What is clean stays clean: a teardown only takes away. */
  lemma TeardownSoilsNothing(s: State, n: Node, i: nat, kernelGone: bool, found: Option<Container>, ok: bool, g: Gen, side: Side)
    requires NodeEnabled(s, n, HandleTeardown(i, kernelGone, found, ok))
    requires g in s.builds && HasId(s.builds[g].phase) && Dest(s.builds[g], side) == n && Clean(s, g, side)
    ensures Clean(DoHandleTeardown(s, n, i, kernelGone, found, ok), g, side)
  {
  }

  lemma HandleTeardownClean(s: State, n: Node, i: nat, kernelGone: bool, found: Option<Container>, ok: bool)
    requires IdsConserved(s) && HostInv(s) && NodeEnabled(s, n, HandleTeardown(i, kernelGone, found, ok))
    requires HostOnly(s, DoHandleTeardown(s, n, i, kernelGone, found, ok), n)
    ensures CleanKept(s, DoHandleTeardown(s, n, i, kernelGone, found, ok), n)
  {
    var s' := DoHandleTeardown(s, n, i, kernelGone, found, ok);
    assert MsgSound(s, n, s.hosts[n].queue[i]);
    forall g, side | g in s.builds && HasId(s.builds[g].phase) && Dest(s.builds[g], side) == n && Clean(s, g, side)
      ensures Clean(s', g, side)
    {
      TeardownSoilsNothing(s, n, i, kernelGone, found, ok, g, side);
    }
    if ok { TeardownCleans(s, n, i, found); }
  }

  lemma HandleTeardownKeepsInv(s: State, n: Node, i: nat, kernelGone: bool, found: Option<Container>, ok: bool)
    requires Inv(s) && NodeEnabled(s, n, HandleTeardown(i, kernelGone, found, ok))
    ensures Inv(DoHandleTeardown(s, n, i, kernelGone, found, ok))
  {
    HandleTeardownSound(s, n, i, kernelGone, found, ok);
    HandleTeardownClean(s, n, i, kernelGone, found, ok);
    HostOnlyKeepsInv(s, DoHandleTeardown(s, n, i, kernelGone, found, ok), n);
  }

  // ------------------------------------------------------------ every run

  lemma TickKeepsInv(s: State)
    requires Inv(s)
    ensures Inv(BuildApply(s, Tick))
  {
    var s' := BuildApply(s, Tick);
    assert forall g, id: nat :: Holds(s', g, id) <==> Holds(s, g, id);
    SameHoldersKeepIds(s, s');
    ServerOnlyKeepsInv(s, s');
  }

  lemma SendingStepsKeepInv(s: State, step: BuildStep)
    requires Inv(s) && BuildEnabled(s, step)
    requires step.Capture? || step.AckArrives? || step.GiveUp?
    ensures Inv(BuildApply(s, step))
  {
    var p := s.builds[step.gen].phase;
    match step
    case Capture(g, role) =>
      var to := Registered(s, Dest(s.builds[g], RoleSide(role)));
      PhaseMoveKeepsInv(s, g, SetWait(p, role, if to.Some? then Captured(to.value) else GaveUp));
    case AckArrives(g, role) => PhaseMoveKeepsInv(s, g, SetWait(p, role, Acked));
    case GiveUp(g, role) => PhaseMoveKeepsInv(s, g, SetWait(p, role, GaveUp));
  }

  lemma JoinStepsKeepInv(s: State, step: BuildStep)
    requires Inv(s) && BuildEnabled(s, step)
    requires step.JoinSetups? || step.JoinReady?
    ensures Inv(BuildApply(s, step))
  {
    var p := s.builds[step.gen].phase;
    match step
    case JoinSetups(g) =>
      assert WaitEarned(s.acks, Get(p.waits, Client), Dest(s.builds[g], Client), Ack(OfSetup, g, Client));
      assert WaitEarned(s.acks, Get(p.waits, Server), Dest(s.builds[g], Server), Ack(OfSetup, g, Server));
      PhaseMoveKeepsInv(s, g, if p.waits == Pair(Acked, Acked) then Readying(p.id, Unsent) else Failing(p.id));
    case JoinReady(g) => PhaseMoveKeepsInv(s, g, if p.ready.Acked? then Promoting(p.id) else Failing(p.id));
  }

  lemma BuildStepKeepsInv(s: State, step: BuildStep)
    requires Inv(s) && BuildEnabled(s, step)
    ensures Inv(BuildApply(s, step))
  {
    match step
    case Tick => TickKeepsInv(s);
    case Reserve(g, k, proxy) => ReserveKeepsInv(s, g, k, proxy);
    case TakeId(g) => TakeIdKeepsInv(s, g);
    case Capture(_, _) => SendingStepsKeepInv(s, step);
    case Send(g, role) => SendKeepsInv(s, g, role);
    case AckArrives(_, _) => SendingStepsKeepInv(s, step);
    case GiveUp(_, _) => SendingStepsKeepInv(s, step);
    case JoinSetups(_) => JoinStepsKeepInv(s, step);
    case JoinReady(_) => JoinStepsKeepInv(s, step);
    case Promote(g) => PromoteKeepsInv(s, g);
    case RemoveEdge(k) => RemoveEdgeKeepsInv(s, k);
    case Unreserve(g) => UnreserveKeepsInv(s, g);
  }

  lemma TeardownStepKeepsInv(s: State, step: TeardownStep)
    requires Inv(s) && TeardownEnabled(s, step)
    ensures Inv(TeardownApply(s, step))
  {
    match step
    case BeginTeardown(g) => BeginTeardownKeepsInv(s, g);
    case Look(g, side) => LookKeepsInv(s, g, side);
    case SendTeardown(g, side) => SendTeardownKeepsInv(s, g, side);
    case Settle(g, side) => SettleKeepsInv(s, g, side);
    case FreeId(g) => FreeIdKeepsInv(s, g);
  }

  lemma NodeStepKeepsInv(s: State, n: Node, step: NodeStep)
    requires Inv(s) && NodeEnabled(s, n, step)
    ensures Inv(NodeApply(s, n, step))
  {
    match step
    case HandleSetup(i, kernelUp, prepared, ok) => HandleSetupKeepsInv(s, n, i, kernelUp, prepared, ok);
    case HandleReady(i, found) => HandleReadyKeepsInv(s, n, i, found);
    case HandleTeardown(i, kernelGone, found, ok) => HandleTeardownKeepsInv(s, n, i, kernelGone, found, ok);
    case ClaimTrigger(_) => TriggerStepsKeepInv(s, n, step);
    case ForgetTrigger(_) => TriggerStepsKeepInv(s, n, step);
    case Close => StreamStepsKeepInv(s, n, step);
    case Unregister => StreamStepsKeepInv(s, n, step);
    case Register => StreamStepsKeepInv(s, n, step);
  }

  lemma StepKeepsInv(s: State, step: Step)
    requires Inv(s) && Enabled(s, step)
    ensures Inv(Apply(s, step))
  {
    match step
    case OnBuild(b) => BuildStepKeepsInv(s, b);
    case OnTeardown(t) => TeardownStepKeepsInv(s, t);
    case OnNode(n, step) => NodeStepKeepsInv(s, n, step);
  }

  lemma {:induction false} RunKeepsInv(s: State, steps: seq<Step>)
    requires Inv(s) && Legal(s, steps)
    ensures Inv(Run(s, steps))
    decreases |steps|
  {
    if |steps| > 0 {
      StepKeepsInv(s, steps[0]);
      RunKeepsInv(Apply(s, steps[0]), steps[1..]);
    }
  }
}
