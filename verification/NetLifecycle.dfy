/** The net-id lifecycle protocol: server orchestrator, per-node control channel
    and client kernel state (members/nullnet-server/src/orchestrator.rs,
    members/nullnet-client/src/control_channel.rs).

    Every asynchronous task of the server is a step machine: `Build` records how
    far the build of one egress edge, and afterwards the teardown of its tunnel,
    has come. A step is the code between two await points, so any interleaving of
    tasks, acks, timeouts and disconnects is a sequence of steps. Message ids are
    unique (`Uuid::new_v4`), so a message is named by the generation that sent it
    and its role. The generation on a message or on client state is bookkeeping
    of the model: no client step branches on it. */
module NetLifecycle {
  import opened Basics
  import opened NetIdPools

  type Node = nat
  type Gen = nat
  type Container = nat

  /** Initiator replica: its node and its container. */
  datatype EdgeKey = EdgeKey(node: Node, container: Container)

  datatype Side = Client | Server

  datatype Msg =
    | Setup(id: nat, gen: Gen, side: Side, container: Container)
    | Ready(id: nat, gen: Gen)
    | Teardown(id: nat, gen: Gen, side: Side)

  datatype Kind = OfSetup | OfReady | OfTeardown

  /** The confirmation of one message. */
  datatype Ack = Ack(kind: Kind, gen: Gen, side: Side)

  /** One control stream: a node's `epoch`-th registration. */
  datatype Conn = Conn(node: Node, epoch: nat)

  /** One `send_control` call (orchestrator.rs:1027-1048). */
  datatype Wait = Unsent | Captured(conn: Conn) | Waiting(conn: Conn) | Acked | GaveUp

  /** One endpoint's half of a teardown (orchestrator.rs:1265-1366). */
  datatype Leg = Unlooked | Skipped | Held(conn: Conn) | Sent(conn: Conn) | Done

  datatype Pair<+T> = Pair(client: T, server: T)

  function Get<T>(p: Pair<T>, side: Side): T {
    if side == Client then p.client else p.server
  }

  function Put<T>(p: Pair<T>, side: Side, v: T): Pair<T> {
    if side == Client then p.(client := v) else p.(server := v)
  }

  datatype Phase =
    | Reserved                             // slot taken, no id yet
    | Setting(id: nat, waits: Pair<Wait>)  // setup sent to both endpoints
    | Readying(id: nat, ready: Wait)       // NetReady sent to the initiator
    | Promoting(id: nat)
    | Failing(id: nat)
    | Live(id: nat)                        // promoted: the map entry owns the id
    | Removed(id: nat)                     // taken out of the map, or never promoted
    | Tearing(id: nat, legs: Pair<Leg>)
    | Finished(id: nat)                    // id returned; 0 when none was allocated

  /** `mustUnreserve`: the task still has to drop its own reservation. */
  datatype Build = Build(key: EdgeKey, proxy: Node, phase: Phase, mustUnreserve: bool)

  /** `netId == 0` marks a reservation still being built. */
  datatype Edge = Edge(gen: Gen, netId: nat, proxy: Node, reservedAt: nat)

  /** An entry of the client's trigger table (triggers.rs:28-41). `active` is
      the generation whose NetReady released its packets. */
  datatype Entry = Pending | Installed(id: nat, gen: Gen, active: Option<Gen>)

  /** A node as the protocol sees it: its place in the server's client map, its
      stream, and what the running client process holds. */
  datatype Host = Host(
    epoch: nat,
    registered: bool,
    open: bool,
    queue: seq<Msg>,
    kernel: map<(nat, Side), Gen>,
    triggers: map<Container, Entry>)

  datatype State = State(
    pool: Pool,
    edges: map<EdgeKey, Edge>,
    builds: map<Gen, Build>,
    hosts: map<Node, Host>,
    acks: set<Ack>,
    now: nat)

  const INIT := State(EMPTY_POOL, map[], map[], map[], {}, 0)

  const EDGE_CLAIM_TIMEOUT: nat := 90

  /** Which control message of a build a step is about. */
  datatype Role = SetupOf(side: Side) | ReadyOf

  predicate HasId(p: Phase) {
    !p.Reserved? && !p.Finished?
  }

  predicate Holds(s: State, g: Gen, id: nat) {
    g in s.builds && HasId(s.builds[g].phase) && s.builds[g].phase.id == id
  }

  function Dest(b: Build, side: Side): Node {
    if side == Client then b.key.node else b.proxy
  }

  function SideOf(m: Msg): Side {
    match m
    case Setup(_, _, side, _) => side
    case Ready(_, _) => Client
    case Teardown(_, _, side) => side
  }

  function AckOf(m: Msg): Ack {
    match m
    case Setup(_, g, side, _) => Ack(OfSetup, g, side)
    case Ready(_, g) => Ack(OfReady, g, Client)
    case Teardown(_, g, side) => Ack(OfTeardown, g, side)
  }

  predicate InRole(p: Phase, role: Role) {
    match role
    case SetupOf(_) => p.Setting?
    case ReadyOf => p.Readying?
  }

  function WaitOf(p: Phase, role: Role): Wait
    requires InRole(p, role)
  {
    match role
    case SetupOf(side) => Get(p.waits, side)
    case ReadyOf => p.ready
  }

  function SetWait(p: Phase, role: Role, w: Wait): Phase
    requires InRole(p, role)
  {
    match role
    case SetupOf(side) => p.(waits := Put(p.waits, side, w))
    case ReadyOf => p.(ready := w)
  }

  function RoleSide(role: Role): Side {
    match role
    case SetupOf(side) => side
    case ReadyOf => Client
  }

  function MsgFor(g: Gen, b: Build, role: Role): Msg
    requires HasId(b.phase)
  {
    match role
    case SetupOf(side) => Setup(b.phase.id, g, side, b.key.container)
    case ReadyOf => Ready(b.phase.id, g)
  }

  /** The stream registered for `n`, if any (`clients.get(&dest)`). */
  function Registered(s: State, n: Node): Option<Conn> {
    if n in s.hosts && s.hosts[n].registered then Some(Conn(n, s.hosts[n].epoch)) else None
  }

  /** Whether this very stream is still open. */
  predicate Up(s: State, c: Conn) {
    c.node in s.hosts && s.hosts[c.node].open && s.hosts[c.node].epoch == c.epoch
  }

  predicate Connected(s: State, n: Node) {
    n in s.hosts && s.hosts[n].open
  }

  function Enqueue(s: State, c: Conn, m: Msg): State
    requires Up(s, c)
  {
    var h := s.hosts[c.node];
    s.(hosts := s.hosts[c.node := h.(queue := h.queue + [m])])
  }

  function SetPhase(s: State, g: Gen, p: Phase): State
    requires g in s.builds
  {
    s.(builds := s.builds[g := s.builds[g].(phase := p)])
  }

  /** Message `i` is the oldest one queued at `n` for its id: the client runs
      one id's commands in order and different ids side by side
      (control_channel/lifecycle.rs:15-38). */
  predicate Runnable(s: State, n: Node, i: nat) {
    && Connected(s, n)
    && i < |s.hosts[n].queue|
    && (forall j :: 0 <= j < i ==> s.hosts[n].queue[j].id != s.hosts[n].queue[i].id)
  }

  function Pop(h: Host, i: nat): Host
    requires i < |h.queue|
  {
    h.(queue := h.queue[..i] + h.queue[i + 1..])
  }

  /** Steps of a build task and of whoever edits the edge map. */
  datatype BuildStep =
    | Tick
    | Reserve(gen: Gen, key: EdgeKey, proxy: Node)
    | TakeId(gen: Gen)
    | Capture(gen: Gen, role: Role)
    | Send(gen: Gen, role: Role)
    | AckArrives(gen: Gen, role: Role)
    | GiveUp(gen: Gen, role: Role)
    | JoinSetups(gen: Gen)
    | JoinReady(gen: Gen)
    | Promote(gen: Gen)
    | RemoveEdge(key: EdgeKey)
    | Unreserve(gen: Gen)

  /** Steps of a teardown task. */
  datatype TeardownStep =
    | BeginTeardown(gen: Gen)
    | Look(gen: Gen, side: Side)
    | SendTeardown(gen: Gen, side: Side)
    | Settle(gen: Gen, side: Side)
    | FreeId(gen: Gen)

  /** Steps of a node. The flags are outcomes the kernel decides. */
  datatype NodeStep =
    | HandleSetup(index: nat, kernelUp: bool, prepared: bool, ok: bool)
    | HandleReady(index: nat, found: Option<Container>)
    | HandleTeardown(index: nat, kernelGone: bool, found: Option<Container>, ok: bool)
    | ClaimTrigger(container: Container)
    | ForgetTrigger(container: Container)
    | Close
    | Unregister
    | Register

  datatype Step = OnBuild(b: BuildStep) | OnTeardown(t: TeardownStep) | OnNode(node: Node, n: NodeStep)

  predicate LegSettled(l: Leg) {
    l.Skipped? || l.Done?
  }

  /** `found` is an entry installed for `id`, or there is none
      (triggers.rs:157-174 and :203-223 scan the table). */
  predicate FoundBy(t: map<Container, Entry>, id: nat, found: Option<Container>) {
    match found
    case Some(c) => c in t && t[c].Installed? && t[c].id == id
    case None => forall c :: c in t ==> !(t[c].Installed? && t[c].id == id)
  }

  predicate BuildEnabled(s: State, step: BuildStep) {
    match step
    case Tick => true
    case Reserve(g, k, _) =>
      && g !in s.builds
      // orchestrator.rs:301: a live edge or a young reservation is left alone
      && (k in s.edges ==> s.edges[k].netId == 0 && s.now >= s.edges[k].reservedAt + EDGE_CLAIM_TIMEOUT)
    case TakeId(g) => g in s.builds && s.builds[g].phase.Reserved?
    case Capture(g, role) =>
      g in s.builds && InRole(s.builds[g].phase, role) && WaitOf(s.builds[g].phase, role).Unsent?
    case Send(g, role) =>
      g in s.builds && InRole(s.builds[g].phase, role) && WaitOf(s.builds[g].phase, role).Captured?
    case AckArrives(g, role) =>
      && g in s.builds && InRole(s.builds[g].phase, role) && WaitOf(s.builds[g].phase, role).Waiting?
      && AckOf(MsgFor(g, s.builds[g], role)) in s.acks
    case GiveUp(g, role) =>
      g in s.builds && InRole(s.builds[g].phase, role) && WaitOf(s.builds[g].phase, role).Waiting?
    case JoinSetups(g) =>
      && g in s.builds && s.builds[g].phase.Setting?
      && (forall side :: Get(s.builds[g].phase.waits, side).Acked? || Get(s.builds[g].phase.waits, side).GaveUp?)
    case JoinReady(g) =>
      && g in s.builds && s.builds[g].phase.Readying?
      && (s.builds[g].phase.ready.Acked? || s.builds[g].phase.ready.GaveUp?)
    case Promote(g) => g in s.builds && s.builds[g].phase.Promoting?
    case RemoveEdge(k) => k in s.edges
    case Unreserve(g) => g in s.builds && s.builds[g].mustUnreserve
  }

  predicate TeardownEnabled(s: State, step: TeardownStep) {
    match step
    case BeginTeardown(g) =>
      g in s.builds && (s.builds[g].phase.Failing? || s.builds[g].phase.Removed?)
    case Look(g, side) =>
      && g in s.builds && s.builds[g].phase.Tearing?
      && Get(s.builds[g].phase.legs, side).Unlooked?
      && (side == Server ==> !s.builds[g].phase.legs.client.Unlooked?)
    case SendTeardown(g, side) =>
      && g in s.builds && s.builds[g].phase.Tearing?
      && Get(s.builds[g].phase.legs, side).Held?
      && !s.builds[g].phase.legs.server.Unlooked?
      && (side == Server ==> !s.builds[g].phase.legs.client.Held?)
    case Settle(g, side) =>
      && g in s.builds && s.builds[g].phase.Tearing?
      && Get(s.builds[g].phase.legs, side).Sent?
      && (Ack(OfTeardown, g, side) in s.acks || !Up(s, Get(s.builds[g].phase.legs, side).conn))
    case FreeId(g) =>
      && g in s.builds && s.builds[g].phase.Tearing?
      && (forall side :: LegSettled(Get(s.builds[g].phase.legs, side)))
  }

  predicate NodeEnabled(s: State, n: Node, step: NodeStep) {
    match step
    case HandleSetup(i, kernelUp, prepared, ok) =>
      && Runnable(s, n, i) && s.hosts[n].queue[i].Setup?
      // acked only after the tunnel and, on the initiator, its steering are in
      && (ok ==> kernelUp && (s.hosts[n].queue[i].side == Client ==> prepared))
      && (prepared ==> s.hosts[n].queue[i].side == Client)
    case HandleReady(i, found) =>
      && Runnable(s, n, i) && s.hosts[n].queue[i].Ready?
      // a failed readiness step returns before the table is touched
      && (found.Some? ==> FoundBy(s.hosts[n].triggers, s.hosts[n].queue[i].id, found))
    case HandleTeardown(i, kernelGone, found, ok) =>
      && Runnable(s, n, i) && s.hosts[n].queue[i].Teardown?
      && FoundBy(s.hosts[n].triggers, s.hosts[n].queue[i].id, found)
      // acked last, after every kernel object is gone
      && (ok ==> kernelGone)
    case ClaimTrigger(c) =>
      Connected(s, n) && (c in s.hosts[n].triggers ==> s.hosts[n].triggers[c].Pending?)
    case ForgetTrigger(c) =>
      Connected(s, n) && c in s.hosts[n].triggers && s.hosts[n].triggers[c].Pending?
    case Close => Connected(s, n)
    case Unregister => n in s.hosts && s.hosts[n].registered && !s.hosts[n].open
    case Register => n in s.hosts ==> !s.hosts[n].registered
  }

  function BuildApply(s: State, step: BuildStep): State
    requires BuildEnabled(s, step)
  {
    match step
    case Tick => s.(now := s.now + 1)
    case Reserve(g, k, proxy) =>
      s.(edges := s.edges[k := Edge(g, 0, proxy, s.now)],
         builds := s.builds[g := Build(k, proxy, Reserved, false)])
    case TakeId(g) => DoTakeId(s, g)
    case Capture(g, role) => DoCapture(s, g, role)
    case Send(g, role) => DoSend(s, g, role)
    case AckArrives(g, role) => SetPhase(s, g, SetWait(s.builds[g].phase, role, Acked))
    case GiveUp(g, role) => SetPhase(s, g, SetWait(s.builds[g].phase, role, GaveUp))
    case JoinSetups(g) =>
      var p := s.builds[g].phase;
      SetPhase(s, g, if p.waits == Pair(Acked, Acked) then Readying(p.id, Unsent) else Failing(p.id))
    case JoinReady(g) =>
      var p := s.builds[g].phase;
      SetPhase(s, g, if p.ready.Acked? then Promoting(p.id) else Failing(p.id))
    case Promote(g) => DoPromote(s, g)
    case RemoveEdge(k) => DoRemoveEdge(s, k)
    case Unreserve(g) => DoUnreserve(s, g)
  }

  function TeardownApply(s: State, step: TeardownStep): State
    requires TeardownEnabled(s, step)
  {
    match step
    case BeginTeardown(g) =>
      var b := s.builds[g];
      s.(builds := s.builds[g := b.(phase := Tearing(b.phase.id, Pair(Unlooked, Unlooked)),
                                    mustUnreserve := b.phase.Failing?)])
    case Look(g, side) => DoLook(s, g, side)
    case SendTeardown(g, side) => DoSendTeardown(s, g, side)
    case Settle(g, side) =>
      var p := s.builds[g].phase;
      SetPhase(s, g, p.(legs := Put(p.legs, side, Done)))
    case FreeId(g) =>
      var id := s.builds[g].phase.id;
      SetPhase(s, g, Finished(id)).(pool := Free(Vxlan, s.pool, id))
  }

  function NodeApply(s: State, n: Node, step: NodeStep): State
    requires NodeEnabled(s, n, step)
  {
    match step
    case HandleSetup(i, kernelUp, prepared, ok) => DoHandleSetup(s, n, i, kernelUp, prepared, ok)
    case HandleReady(i, found) => DoHandleReady(s, n, i, found)
    case HandleTeardown(i, kernelGone, found, ok) => DoHandleTeardown(s, n, i, kernelGone, found, ok)
    case ClaimTrigger(c) =>
      s.(hosts := s.hosts[n := s.hosts[n].(triggers := s.hosts[n].triggers[c := Pending])])
    case ForgetTrigger(c) =>
      s.(hosts := s.hosts[n := s.hosts[n].(triggers := s.hosts[n].triggers - {c})])
    case Close => s.(hosts := s.hosts[n := s.hosts[n].(open := false)])
    case Unregister => s.(hosts := s.hosts[n := s.hosts[n].(registered := false)])
    // the client process starts over and purges before it registers
    case Register =>
      var epoch := if n in s.hosts then s.hosts[n].epoch + 1 else 0;
      s.(hosts := s.hosts[n := Host(epoch, true, true, [], map[], map[])])
  }

  predicate Enabled(s: State, step: Step) {
    match step
    case OnBuild(b) => BuildEnabled(s, b)
    case OnTeardown(t) => TeardownEnabled(s, t)
    case OnNode(n, step) => NodeEnabled(s, n, step)
  }

  function Apply(s: State, step: Step): State
    requires Enabled(s, step)
  {
    match step
    case OnBuild(b) => BuildApply(s, b)
    case OnTeardown(t) => TeardownApply(s, t)
    case OnNode(n, step) => NodeApply(s, n, step)
  }

  /** orchestrator.rs:348-352. */
  function DoTakeId(s: State, g: Gen): State
    requires g in s.builds
  {
    var (id, pool) := Allocate(Vxlan, s.pool);
    match id
    case Some(i) => SetPhase(s, g, Setting(i, Pair(Unsent, Unsent))).(pool := pool)
    case None => s.(builds := s.builds[g := s.builds[g].(phase := Finished(0), mustUnreserve := true)])
  }

  /** orchestrator.rs:1032: no stream, no message. */
  function DoCapture(s: State, g: Gen, role: Role): State
    requires g in s.builds && InRole(s.builds[g].phase, role)
  {
    match Registered(s, Dest(s.builds[g], RoleSide(role)))
    case Some(c) => SetPhase(s, g, SetWait(s.builds[g].phase, role, Captured(c)))
    case None => SetPhase(s, g, SetWait(s.builds[g].phase, role, GaveUp))
  }

  /** orchestrator.rs:1037-1040: sending on a closed stream fails. */
  function DoSend(s: State, g: Gen, role: Role): State
    requires g in s.builds && InRole(s.builds[g].phase, role) && WaitOf(s.builds[g].phase, role).Captured?
  {
    var b := s.builds[g];
    var c := WaitOf(b.phase, role).conn;
    if Up(s, c) then
      Enqueue(SetPhase(s, g, SetWait(b.phase, role, Waiting(c))), c, MsgFor(g, b, role))
    else
      SetPhase(s, g, SetWait(b.phase, role, GaveUp))
  }

  /** orchestrator.rs:415-430: only the reservation of this very generation is
      promoted. */
  function DoPromote(s: State, g: Gen): State
    requires g in s.builds && s.builds[g].phase.Promoting?
  {
    var b := s.builds[g];
    if b.key in s.edges && s.edges[b.key].gen == g then
      SetPhase(s, g, Live(b.phase.id)).(edges := s.edges[b.key := s.edges[b.key].(netId := b.phase.id)])
    else
      SetPhase(s, g, Removed(b.phase.id))
  }

  /** orchestrator.rs:637-656 for one matched key, whatever the predicate; the
      caller then tears down what had an id (:659-677, :714-729, :972-988). */
  function DoRemoveEdge(s: State, k: EdgeKey): State
    requires k in s.edges
  {
    var e := s.edges[k];
    var s' := s.(edges := s.edges - {k});
    if e.netId != 0 && e.gen in s.builds then SetPhase(s', e.gen, Removed(e.netId)) else s'
  }

  /** orchestrator.rs:1270-1290. */
  function DoLook(s: State, g: Gen, side: Side): State
    requires g in s.builds && s.builds[g].phase.Tearing?
  {
    var p := s.builds[g].phase;
    match Registered(s, Dest(s.builds[g], side))
    case Some(c) => SetPhase(s, g, p.(legs := Put(p.legs, side, Held(c))))
    case None => SetPhase(s, g, p.(legs := Put(p.legs, side, Skipped)))
  }

  /** orchestrator.rs:1329-1341. */
  function DoSendTeardown(s: State, g: Gen, side: Side): State
    requires g in s.builds && s.builds[g].phase.Tearing? && Get(s.builds[g].phase.legs, side).Held?
  {
    var p := s.builds[g].phase;
    var c := Get(p.legs, side).conn;
    if Up(s, c) then
      Enqueue(SetPhase(s, g, p.(legs := Put(p.legs, side, Sent(c)))), c, Teardown(p.id, g, side))
    else
      SetPhase(s, g, p.(legs := Put(p.legs, side, Done)))
  }

  /** orchestrator.rs:349 and :405: drop the slot only if it is still ours. */
  function DoUnreserve(s: State, g: Gen): State
    requires g in s.builds
  {
    var b := s.builds[g];
    var s' := s.(builds := s.builds[g := b.(mustUnreserve := false)]);
    if b.key in s.edges && s.edges[b.key].gen == g then s'.(edges := s.edges - {b.key}) else s'
  }

  function Confirm(s: State, m: Msg, ok: bool): set<Ack> {
    if ok then s.acks + {AckOf(m)} else s.acks
  }

  /** control_channel.rs:497-850. A failed setup may leave part of its state. */
  function DoHandleSetup(s: State, n: Node, i: nat, kernelUp: bool, prepared: bool, ok: bool): State
    requires Runnable(s, n, i) && s.hosts[n].queue[i].Setup?
  {
    var h := s.hosts[n];
    var m := h.queue[i];
    var h' := Pop(h, i).(
      kernel := if kernelUp then h.kernel[(m.id, m.side) := m.gen] else h.kernel,
      triggers := if prepared then h.triggers[m.container := Installed(m.id, m.gen, None)] else h.triggers);
    s.(hosts := s.hosts[n := h'], acks := Confirm(s, m, ok))
  }

  /** control_channel.rs:214-274. */
  function DoHandleReady(s: State, n: Node, i: nat, found: Option<Container>): State
    requires Runnable(s, n, i) && s.hosts[n].queue[i].Ready?
    requires found.Some? ==> FoundBy(s.hosts[n].triggers, s.hosts[n].queue[i].id, found)
  {
    var h := s.hosts[n];
    var m := h.queue[i];
    var h' := Pop(h, i).(
      triggers := match found
                  case Some(c) => h.triggers[c := h.triggers[c].(active := Some(m.gen))]
                  case None => h.triggers);
    s.(hosts := s.hosts[n := h'], acks := Confirm(s, m, found.Some?))
  }

  /** control_channel.rs:853-991. */
  function DoHandleTeardown(s: State, n: Node, i: nat, kernelGone: bool, found: Option<Container>, ok: bool): State
    requires Runnable(s, n, i) && s.hosts[n].queue[i].Teardown?
  {
    var h := s.hosts[n];
    var m := h.queue[i];
    var h' := Pop(h, i).(
      kernel := if kernelGone then h.kernel - {(m.id, m.side)} else h.kernel,
      triggers := match found
                  case Some(c) => h.triggers - {c}
                  case None => h.triggers);
    s.(hosts := s.hosts[n := h'], acks := Confirm(s, m, ok))
  }

  /** A run: every step is enabled where it is taken. */
  predicate Legal(s: State, steps: seq<Step>)
    decreases |steps|
  {
    |steps| > 0 ==> Enabled(s, steps[0]) && Legal(Apply(s, steps[0]), steps[1..])
  }

  function Run(s: State, steps: seq<Step>): State
    requires Legal(s, steps)
    decreases |steps|
  {
    if |steps| == 0 then s else Run(Apply(s, steps[0]), steps[1..])
  }
}
