/** What the lifecycle protocol guarantees over every run, stated on runs from
    the empty system. */
module NetLifecycleTheorems {
  import opened Basics
  import opened NetIdPools
  import opened NetLifecycle
  import opened NetLifecycleSafety

  ghost predicate Reachable(s: State) {
    exists steps :: Legal(INIT, steps) && s == Run(INIT, steps)
  }

  lemma ReachableInv(s: State)
    requires Reachable(s)
    ensures Inv(s)
  {
    var steps :| Legal(INIT, steps) && s == Run(INIT, steps);
    InitInv();
    RunKeepsInv(INIT, steps);
  }

  ghost predicate Available(s: State, id: nat) {
    id in s.pool.freed || id >= s.pool.nextFresh
  }

  /** When an id can be handed out, no connected node holds kernel state or
      steering for it, and no message naming it waits for a connected node. */
  lemma ReusedIdIsClean(s: State, id: nat, n: Node)
    requires Reachable(s) && Available(s, id) && Connected(s, n)
    ensures forall i :: 0 <= i < |s.hosts[n].queue| ==> s.hosts[n].queue[i].id != id
    ensures forall x :: x in s.hosts[n].kernel ==> x.0 != id
    ensures forall c :: c in s.hosts[n].triggers && s.hosts[n].triggers[c].Installed? ==> s.hosts[n].triggers[c].id != id
  {
    ReachableInv(s);
    forall i | 0 <= i < |s.hosts[n].queue|
      ensures s.hosts[n].queue[i].id != id
    {
      assert MsgSound(s, n, s.hosts[n].queue[i]);
    }
    forall x | x in s.hosts[n].kernel
      ensures x.0 != id
    {
      assert Holds(s, s.hosts[n].kernel[x], x.0);
    }
    forall c | c in s.hosts[n].triggers && s.hosts[n].triggers[c].Installed?
      ensures s.hosts[n].triggers[c].id != id
    {
      assert EntrySound(s, n, c, s.hosts[n].triggers[c]);
    }
  }

  /** Packets of a tunnel flow only on its own NetReady, after both endpoints
      confirmed its setup, however often its id was used before. */
  lemma ActiveSteeringIsItsOwn(s: State, n: Node, c: Container)
    requires Reachable(s) && Connected(s, n) && c in s.hosts[n].triggers
    requires s.hosts[n].triggers[c].Installed? && s.hosts[n].triggers[c].active.Some?
    ensures var e := s.hosts[n].triggers[c];
            && e.active.value == e.gen
            && SetupsAcked(s.acks, e.gen)
            && Holds(s, e.gen, e.id)
            && s.builds[e.gen].key == EdgeKey(n, c)
  {
    ReachableInv(s);
    assert EntrySound(s, n, c, s.hosts[n].triggers[c]);
  }

  // ------------------------------------------------------------ conservation

  predicate BuildRuns(p: Phase) {
    p.Setting? || p.Readying? || p.Promoting? || p.Failing?
  }

  predicate TeardownRuns(p: Phase) {
    p.Removed? || p.Tearing?
  }

  ghost predicate InBuild(s: State, id: nat) {
    exists g :: Holds(s, g, id) && BuildRuns(s.builds[g].phase)
  }

  ghost predicate OnLiveEdge(s: State, id: nat) {
    exists k :: k in s.edges && s.edges[k].netId == id
  }

  ghost predicate InTeardown(s: State, id: nat) {
    exists g :: Holds(s, g, id) && TeardownRuns(s.builds[g].phase)
  }

  function Count(b: bool): nat { if b then 1 else 0 }

  /** Every id ever allocated is in exactly one of: a running build, a live
      edge, a teardown, the freed queue. */
  lemma IdsAreConserved(s: State, id: nat)
    requires Reachable(s) && MIN_NET_ID <= id < s.pool.nextFresh
    ensures Count(id in s.pool.freed) + Count(InBuild(s, id)) + Count(OnLiveEdge(s, id)) + Count(InTeardown(s, id)) == 1
  {
    ReachableInv(s);
    if OnLiveEdge(s, id) {
      var k :| k in s.edges && s.edges[k].netId == id;
      assert Holds(s, s.edges[k].gen, id);
    }
    if id !in s.pool.freed {
      var g :| Holds(s, g, id);
      var p := s.builds[g].phase;
      assert BuildRuns(p) ==> InBuild(s, id);
      assert TeardownRuns(p) ==> InTeardown(s, id);
      if p.Live? {
        assert s.edges[s.builds[g].key].netId == id;
        assert OnLiveEdge(s, id);
      }
    }
  }

  lemma LiveEdgesNeverShareAnId(s: State, k: EdgeKey, k': EdgeKey)
    requires Reachable(s) && k in s.edges && k' in s.edges
    requires s.edges[k].netId == s.edges[k'].netId != 0
    ensures k == k'
  {
    ReachableInv(s);
    assert Holds(s, s.edges[k].gen, s.edges[k].netId);
    assert Holds(s, s.edges[k'].gen, s.edges[k].netId);
  }

  ghost predicate Held(s: State, id: nat) {
    exists g :: Holds(s, g, id)
  }

  /** Whether this step hands `id` out. */
  ghost predicate Takes(s: State, step: Step, id: nat) {
    step.OnBuild? && step.b.TakeId? && Allocate(Vxlan, s.pool).0 == Some(id)
  }

  /** Whether this step returns `id`. */
  predicate Frees(s: State, step: Step, id: nat) {
    step.OnTeardown? && step.t.FreeId? && Holds(s, step.t.gen, id)
  }

  ghost function TakeCount(s: State, steps: seq<Step>, id: nat): nat
    requires Legal(s, steps)
    decreases |steps|
  {
    if |steps| == 0 then 0
    else Count(Takes(s, steps[0], id)) + TakeCount(Apply(s, steps[0]), steps[1..], id)
  }

  ghost function FreeCount(s: State, steps: seq<Step>, id: nat): nat
    requires Legal(s, steps)
    decreases |steps|
  {
    if |steps| == 0 then 0
    else Count(Frees(s, steps[0], id)) + FreeCount(Apply(s, steps[0]), steps[1..], id)
  }

  lemma BuildStepsKeepHolders(s: State, step: BuildStep)
    requires EdgesAgree(s) && BuildEnabled(s, step) && !step.TakeId?
    ensures forall g, id: nat :: Holds(BuildApply(s, step), g, id) <==> Holds(s, g, id)
  {
  }

  lemma TeardownStepsKeepHolders(s: State, step: TeardownStep)
    requires TeardownEnabled(s, step) && !step.FreeId?
    ensures forall g, id: nat :: Holds(TeardownApply(s, step), g, id) <==> Holds(s, g, id)
  {
  }

  /** Outside those two steps the held ids stand still. */
  lemma OtherStepsKeepHolders(s: State, step: Step)
    requires EdgesAgree(s) && Enabled(s, step)
    requires !(step.OnBuild? && step.b.TakeId?) && !(step.OnTeardown? && step.t.FreeId?)
    ensures forall g, id: nat :: Holds(Apply(s, step), g, id) <==> Holds(s, g, id)
  {
    match step
    case OnBuild(b) => BuildStepsKeepHolders(s, b);
    case OnTeardown(t) => TeardownStepsKeepHolders(s, t);
    case OnNode(n, step) => assert NodeApply(s, n, step).builds == s.builds;
  }

  lemma StepBalances(s: State, step: Step, id: nat)
    requires Inv(s) && Enabled(s, step)
    ensures Count(Held(s, id)) + Count(Takes(s, step, id)) == Count(Held(Apply(s, step), id)) + Count(Frees(s, step, id))
  {
    var s' := Apply(s, step);
    if step.OnBuild? && step.b.TakeId? {
      var g := step.b.gen;
      var (taken, pool) := Allocate(Vxlan, s.pool);
      if taken.Some? {
        assert |s.pool.freed| > 0 ==> taken.value in s.pool.freed;
        assert forall g', i: nat :: Holds(s', g', i) <==> Holds(s, g', i) || (g' == g && i == taken.value);
        assert Holds(s', g, taken.value);
        assert id != taken.value ==> (Held(s', id) <==> Held(s, id));
      } else {
        assert forall g', i: nat :: Holds(s', g', i) <==> Holds(s, g', i);
        assert Held(s', id) <==> Held(s, id);
      }
    } else if step.OnTeardown? && step.t.FreeId? {
      var g := step.t.gen;
      assert Holds(s, g, s.builds[g].phase.id);
      assert forall g', i: nat :: Holds(s', g', i) <==> Holds(s, g', i) && g' != g;
      if !Frees(s, step, id) {
        assert Held(s', id) <==> Held(s, id);
      }
    } else {
      OtherStepsKeepHolders(s, step);
      assert Held(s', id) <==> Held(s, id);
    }
  }

  lemma {:induction false} RunBalances(s: State, steps: seq<Step>, id: nat)
    requires Inv(s) && Legal(s, steps)
    ensures Count(Held(s, id)) + TakeCount(s, steps, id)
            == Count(Held(Run(s, steps), id)) + FreeCount(s, steps, id)
    decreases |steps|
  {
    if |steps| > 0 {
      StepBalances(s, steps[0], id);
      StepKeepsInv(s, steps[0]);
      RunBalances(Apply(s, steps[0]), steps[1..], id);
    }
  }

  /** Over a whole run an id is freed as often as it was handed out, less one
      while somebody holds it: no allocation is freed twice or forgotten. */
  lemma AllocationsAndFreesBalance(steps: seq<Step>, id: nat)
    requires Legal(INIT, steps)
    ensures TakeCount(INIT, steps, id) == FreeCount(INIT, steps, id) + Count(Held(Run(INIT, steps), id))
  {
    InitInv();
    RunBalances(INIT, steps, id);
    assert !Held(INIT, id);
  }

  // ------------------------------------------------------------- generations

  /** The generation whose task takes this step. */
  function TaskOf(step: Step): Option<Gen> {
    match step
    case OnBuild(Tick) => None
    case OnBuild(RemoveEdge(_)) => None
    case OnBuild(Reserve(_, _, _)) => None
    case OnBuild(b) => Some(b.gen)
    case OnTeardown(t) => Some(t.gen)
    case OnNode(_, _) => None
  }

  /** A build whose reservation was removed or replaced neither promotes nor
      deletes what stands there now. */
  lemma StaleBuildIsHarmless(s: State, step: Step, k: EdgeKey)
    requires Enabled(s, step) && k in s.edges
    requires TaskOf(step).Some? && s.edges[k].gen != TaskOf(step).value
    ensures k in Apply(s, step).edges && Apply(s, step).edges[k] == s.edges[k]
  {
  }

  /** A tunnel its build could not promote is torn down by that build. */
  lemma UnpromotedTunnelIsTornDown(s: State, g: Gen)
    requires Reachable(s) && g in s.builds && s.builds[g].phase.Promoting?
    requires s.builds[g].key in s.edges ==> s.edges[s.builds[g].key].gen != g
    ensures var s' := BuildApply(s, Promote(g));
            s'.edges == s.edges && TeardownEnabled(s', BeginTeardown(g)) && Holds(s', g, s.builds[g].phase.id)
  {
  }

  /** An id is withheld only by an endpoint that is still connected, was told to
      tear down, and has not confirmed; otherwise the teardown can move on. */
  lemma TeardownWaitsOnlyForConfirmation(s: State, g: Gen)
    requires g in s.builds && s.builds[g].phase.Tearing?
    ensures (exists t: TeardownStep :: t.gen == g && TeardownEnabled(s, t))
            || (exists side ::
                  var l := Get(s.builds[g].phase.legs, side);
                  l.Sent? && Up(s, l.conn) && Ack(OfTeardown, g, side) !in s.acks)
  {
    var legs := s.builds[g].phase.legs;
    if legs.client.Unlooked? {
      assert TeardownEnabled(s, Look(g, Client));
    } else if legs.server.Unlooked? {
      assert TeardownEnabled(s, Look(g, Server));
    } else if legs.client.Held? {
      assert TeardownEnabled(s, SendTeardown(g, Client));
    } else if legs.server.Held? {
      assert TeardownEnabled(s, SendTeardown(g, Server));
    } else if legs.client.Sent? && TeardownEnabled(s, Settle(g, Client)) {
    } else if legs.server.Sent? && TeardownEnabled(s, Settle(g, Server)) {
    } else if legs.client.Sent? {
      assert Get(legs, Client).Sent? && Up(s, Get(legs, Client).conn);
    } else if legs.server.Sent? {
      assert Get(legs, Server).Sent? && Up(s, Get(legs, Server).conn);
    } else {
      assert TeardownEnabled(s, FreeId(g));
    }
  }
}
