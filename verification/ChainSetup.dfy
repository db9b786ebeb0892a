/** Any number of concurrent chain setups over one registry, and what they keep. */
module ChainSetups {
  import opened EdgeRegistries

  type Chain = nat
  datatype Build = Build(chain: Chain, key: Key)
  datatype Held = Held(chain: Chain, hold: Hold)

  /** `building` are the edge setups in flight, by reservation token; `held` the
      references chains took and have not given back. */
  datatype State = State(registry: Registry, building: map<Token, Build>, held: seq<Held>,
                         nextToken: Token, nextBorn: nat)

  const INIT := State(map[], map[], [], 0, 0)

  datatype Step =
    | Take(chain: Chain, key: Key, registered: bool, placeable: bool) // claim an edge
    | Abort(token: Token)                                             // its build fails
    | Finish(token: Token, netId: NetId, landed: bool)                // its build succeeds
    | GiveBack(chain: Chain, byId: bool)                              // unwound, or completed and spent
    | Vanish(key: Key)                                                // the entry goes some other way

  ghost predicate Enabled(s: State, step: Step) {
    match step
    case Abort(token) => token in s.building
    case Finish(token, _, _) => token in s.building
    case GiveBack(chain, _) => forall t :: t in s.building ==> s.building[t].chain != chain
    case _ => true
  }

  /** The references a chain holds, in the order it took them. */
  function HoldsOf(held: seq<Held>, c: Chain): seq<Hold> {
    if held == [] then []
    else (if held[0].chain == c then [held[0].hold] else []) + HoldsOf(held[1..], c)
  }

  function Others(held: seq<Held>, c: Chain): seq<Held> {
    if held == [] then []
    else (if held[0].chain == c then [] else [held[0]]) + Others(held[1..], c)
  }

  function Apply(s: State, step: Step): State
    requires Enabled(s, step)
  {
    match step
    case Take(chain, key, registered, placeable) =>
      var (r, c) := Claimed(s.registry, key, s.nextToken, registered, placeable);
      (match c
       case Reused(netId, born) => s.(registry := r, held := s.held + [Held(chain, Hold(key, netId, born))])
       case Wait(_) => s
       case Refused => s
       case Mine =>
         s.(registry := r, building := s.building[s.nextToken := Build(chain, key)], nextToken := s.nextToken + 1))
    case Abort(token) =>
      s.(registry := Released(s.registry, s.building[token].key, token), building := s.building - {token})
    case Finish(token, netId, landed) =>
      var b := s.building[token];
      var s' := s.(registry := Promoted(s.registry, b.key, token, netId, s.nextBorn, landed),
                   building := s.building - {token});
      if Owns(s.registry, b.key, token) && landed then
        s'.(held := s.held + [Held(b.chain, Hold(b.key, netId, s.nextBorn))], nextBorn := s.nextBorn + 1)
      else s'
    case GiveBack(chain, byId) =>
      s.(registry := Unwound(s.registry, HoldsOf(s.held, chain), byId), held := Others(s.held, chain))
    case Vanish(key) => s.(registry := s.registry - {key})
  }

  // -------------------------------------------------------------- counting holders

  /** How many of `edges` are references to this edge. */
  function Own(edges: seq<Hold>, k: Key, born: nat): nat {
    if edges == [] then 0
    else (if edges[0].key == k && edges[0].born == born then 1 else 0) + Own(edges[1..], k, born)
  }

  /** How many of `edges` are taken for references to this edge. */
  function Hits(edges: seq<Hold>, k: Key, netId: NetId, byId: bool): nat {
    if edges == [] then 0
    else
      (if edges[0].key == k && (byId ==> edges[0].netId == netId) then 1 else 0)
      + Hits(edges[1..], k, netId, byId)
  }

  /** How many references to this edge are held. */
  function Holders(held: seq<Held>, k: Key, born: nat): nat {
    if held == [] then 0
    else (if held[0].hold.key == k && held[0].hold.born == born then 1 else 0) + Holders(held[1..], k, born)
  }

  lemma {:induction false} HoldersAppend(held: seq<Held>, h: Held, k: Key, born: nat)
    ensures
      Holders(held + [h], k, born)
      == Holders(held, k, born) + (if h.hold.key == k && h.hold.born == born then 1 else 0)
  {
    if held == [] {
      assert held + [h] == [h];
    } else {
      assert (held + [h])[1..] == held[1..] + [h];
      HoldersAppend(held[1..], h, k, born);
    }
  }

  lemma {:induction false} HoldersSplit(held: seq<Held>, c: Chain, k: Key, born: nat)
    ensures Holders(held, k, born) == Own(HoldsOf(held, c), k, born) + Holders(Others(held, c), k, born)
  {
    if held != [] {
      HoldersSplit(held[1..], c, k, born);
      var mine, theirs := HoldsOf(held[1..], c), Others(held[1..], c);
      if held[0].chain == c {
        assert ([held[0].hold] + mine)[1..] == mine;
        assert [] + theirs == theirs;
      } else {
        assert ([held[0]] + theirs)[1..] == theirs;
        assert [] + mine == mine;
      }
    }
  }

  lemma {:induction false} HoldersNew(held: seq<Held>, k: Key, born: nat)
    requires forall h :: h in held ==> h.hold.born < born
    ensures Holders(held, k, born) == 0
  {
    if held != [] {
      HoldersNew(held[1..], k, born);
    }
  }

  // ---------------------------------------------------------------- the invariant

  /** Every live edge is referenced exactly as often as it is held, and only by its
      own net id. */
  ghost predicate Exact(r: Registry, held: seq<Held>) {
    forall k :: k in r && r[k].Live? ==> r[k].refs == Holders(held, k, r[k].born) && r[k].refs > 0
  }

  ghost predicate SameId(r: Registry, held: seq<Held>) {
    forall h :: h in held ==> HoldsSameId(r, h.hold)
  }

  ghost predicate HoldsSameId(r: Registry, h: Hold) {
    h.key in r && r[h.key].Live? && r[h.key].born == h.born ==> r[h.key].netId == h.netId
  }

  /** A reservation belongs to the one build in flight with its token. */
  ghost predicate Reservations(s: State) {
    && (forall k :: k in s.registry && s.registry[k].Reserved? ==> OwnedBy(s, k, s.registry[k].token))
    && (forall t :: t in s.building ==> t < s.nextToken)
  }

  ghost predicate OwnedBy(s: State, k: Key, t: Token) {
    t in s.building && s.building[t].key == k
  }

  ghost predicate Young(s: State) {
    && (forall h :: h in s.held ==> h.hold.born < s.nextBorn)
    && (forall k :: k in s.registry && s.registry[k].Live? ==> s.registry[k].born < s.nextBorn)
  }

  ghost predicate Inv(s: State) {
    Exact(s.registry, s.held) && SameId(s.registry, s.held) && Reservations(s) && Young(s)
  }

  // ------------------------------------------------------------------- unwinding

  function Min(x: nat, y: nat): nat { if x < y then x else y }

  /** What giving back leaves of an entry: a live edge loses one reference for every
      hold taken for one on it, and goes when it has none left. */
  ghost predicate LosesHits(before: Registry, after: Registry, edges: seq<Hold>, byId: bool, k: Key) {
    if k !in before || before[k].Reserved? then
      (k in after <==> k in before) && (k in before ==> after[k] == before[k])
    else
      var left := before[k].refs - Min(Hits(edges, k, before[k].netId, byId), before[k].refs);
      if left == 0 then k !in after else k in after && after[k] == before[k].(refs := left)
  }

  ghost predicate Positive(r: Registry) {
    forall k :: k in r && r[k].Live? ==> r[k].refs > 0
  }

  lemma UnwindOne(r: Registry, h: Hold, byId: bool, k: Key)
    requires Positive(r)
    ensures
      var r' := if Matches(r, h, byId) then Decremented(r, h.key) else r;
      Positive(r') && LosesHits(r, r', [h], byId, k)
  {
    if k in r && r[k].Live? {
      HitsOne(h, k, r[k].netId, byId);
    }
  }

  lemma HitsOne(h: Hold, k: Key, netId: NetId, byId: bool)
    ensures Hits([h], k, netId, byId) == if h.key == k && (byId ==> h.netId == netId) then 1 else 0
  {
    assert [h][1..] == [];
  }

  lemma LosesThenLoses(a: Registry, b: Registry, c: Registry, h: Hold, rest: seq<Hold>, edges: seq<Hold>, byId: bool, k: Key)
    requires edges != [] && edges[0] == h && edges[1..] == rest
    requires LosesHits(a, b, [h], byId, k) && LosesHits(b, c, rest, byId, k)
    ensures LosesHits(a, c, edges, byId, k)
  {
    if k in a && a[k].Live? {
      HitsOne(h, k, a[k].netId, byId);
    }
  }

  lemma {:induction false} UnwindLosesHits(r: Registry, edges: seq<Hold>, byId: bool, k: Key)
    requires Positive(r)
    ensures LosesHits(r, Unwound(r, edges, byId), edges, byId, k)
    decreases |edges|
  {
    if edges != [] {
      var r' := if Matches(r, edges[0], byId) then Decremented(r, edges[0].key) else r;
      UnwindOne(r, edges[0], byId, k);
      UnwindLosesHits(r', edges[1..], byId, k);
      LosesThenLoses(r, r', Unwound(r, edges, byId), edges[0], edges[1..], edges, byId, k);
    }
  }

  // -------------------------------------------------- exactly what the chain took

  /** The chain holds a reference to an earlier edge under this key that it cannot tell
      from one to the edge there now. */
  ghost predicate Mistakes(s: State, c: Chain, byId: bool, k: Key)
    requires k in s.registry && s.registry[k].Live?
  {
    exists h :: Held(c, h) in s.held && Mistaken(s.registry[k], h, byId, k)
  }

  ghost predicate Mistaken(e: Entry, h: Hold, byId: bool, k: Key)
    requires e.Live?
  {
    h.key == k && (byId ==> h.netId == e.netId) && h.born != e.born
  }

  /** Where the chain mistakes an edge, nobody else holds it. */
  ghost predicate HarmlessAt(s: State, c: Chain, byId: bool, k: Key) {
    k in s.registry && s.registry[k].Live? && Mistakes(s, c, byId, k) ==>
      Holders(Others(s.held, c), k, s.registry[k].born) == 0
  }

  ghost predicate Harmless(s: State, c: Chain, byId: bool) {
    forall k :: HarmlessAt(s, c, byId, k)
  }

  /** Every edge is left with the references of the other chains, and goes when
      there are none. */
  ghost predicate GivesBack(s: State, after: Registry, c: Chain, k: Key) {
    k in s.registry && s.registry[k].Live? ==>
      var others := Holders(Others(s.held, c), k, s.registry[k].born);
      if others == 0 then k !in after else k in after && after[k] == s.registry[k].(refs := others)
  }

  ghost predicate GivesBackExactly(s: State, c: Chain, byId: bool) {
    forall k :: GivesBack(s, Unwound(s.registry, HoldsOf(s.held, c), byId), c, k)
  }

  lemma HoldsOfCons(held: seq<Held>, c: Chain)
    requires held != []
    ensures
      if held[0].chain == c
      then HoldsOf(held, c) != [] && HoldsOf(held, c)[0] == held[0].hold && HoldsOf(held, c)[1..] == HoldsOf(held[1..], c)
      else HoldsOf(held, c) == HoldsOf(held[1..], c)
  {
  }

  /** A chain takes at least its own holds for references to the edge, and more exactly
      when it mistakes another one. */
  lemma {:induction false} HitsVsOwn(e: Entry, held: seq<Held>, c: Chain, byId: bool, k: Key)
    requires e.Live?
    requires forall h :: h in held && h.hold.key == k && h.hold.born == e.born ==> h.hold.netId == e.netId
    ensures
      var hits, own := Hits(HoldsOf(held, c), k, e.netId, byId), Own(HoldsOf(held, c), k, e.born);
      own <= hits && (own < hits <==> exists h :: Held(c, h) in held && Mistaken(e, h, byId, k))
  {
    if held != [] {
      HitsVsOwn(e, held[1..], c, byId, k);
      HoldsOfCons(held, c);
      assert held == [held[0]] + held[1..];
      if held[0].chain == c && Mistaken(e, held[0].hold, byId, k) {
        assert held[0] == Held(c, held[0].hold);
        assert Held(c, held[0].hold) in held;
      }
    }
  }

  lemma GivesBackIff(s: State, c: Chain, byId: bool, k: Key)
    requires Exact(s.registry, s.held) && SameId(s.registry, s.held)
    ensures GivesBack(s, Unwound(s.registry, HoldsOf(s.held, c), byId), c, k) <==> HarmlessAt(s, c, byId, k)
  {
    UnwindLosesHits(s.registry, HoldsOf(s.held, c), byId, k);
    if k in s.registry && s.registry[k].Live? {
      var e := s.registry[k];
      HoldersSplit(s.held, c, k, e.born);
      forall h | h in s.held && h.hold.key == k && h.hold.born == e.born
        ensures h.hold.netId == e.netId
      {
        assert HoldsSameId(s.registry, h.hold);
      }
      HitsVsOwn(e, s.held, c, byId, k);
    }
  }

  /** A chain gives back exactly the references it took if and only if no edge that
      others hold stands under a key for which it holds an earlier edge it cannot tell
      from this one: by net id for a failed or ownerless chain, at all for a completed
      one. */
  lemma GivesBackExactlyIff(s: State, c: Chain, byId: bool)
    requires Inv(s)
    ensures GivesBackExactly(s, c, byId) <==> Harmless(s, c, byId)
  {
    forall k
      ensures GivesBack(s, Unwound(s.registry, HoldsOf(s.held, c), byId), c, k) <==> HarmlessAt(s, c, byId, k)
    {
      GivesBackIff(s, c, byId, k);
    }
  }

  /** An edge rebuilt under a net id the chain never set up is not touched when the
      chain is unwound. */
  lemma RebuiltEdgeIsUntouched(s: State, c: Chain, k: Key)
    requires Inv(s) && k in s.registry && s.registry[k].Live?
    requires forall h :: h in s.held && h.chain == c && h.hold.key == k ==> h.hold.netId != s.registry[k].netId
    ensures
      var r := Unwound(s.registry, HoldsOf(s.held, c), true);
      k in r && r[k] == s.registry[k]
  {
    NoHits(s.held, c, k, s.registry[k].netId);
    UnwindLosesHits(s.registry, HoldsOf(s.held, c), true, k);
  }

  lemma {:induction false} NoHits(held: seq<Held>, c: Chain, k: Key, netId: NetId)
    requires forall h :: h in held && h.chain == c && h.hold.key == k ==> h.hold.netId != netId
    ensures Hits(HoldsOf(held, c), k, netId, true) == 0
  {
    if held != [] {
      NoHits(held[1..], c, k, netId);
      HoldsOfCons(held, c);
    }
  }

  const EDGE := Key(7, 8)
  const STALE := Held(1, Hold(EDGE, 101, 0))

  function Rebuilt(id: NetId): State {
    State(map[EDGE := Live(id, 1, 1)], map[], [STALE, Held(2, Hold(EDGE, id, 1))], 2, 2)
  }

  /** Chain 1 sets up id 101 and loses the entry; chain 2 rebuilds the edge. */
  lemma RebuiltIsReached(id: NetId)
    ensures
      var s3 := Apply(Apply(Apply(INIT, Take(1, EDGE, true, true)), Finish(0, 101, true)), Vanish(EDGE));
      Apply(Apply(s3, Take(2, EDGE, true, true)), Finish(1, id, true)) == Rebuilt(id)
  {
    var s1 := Apply(INIT, Take(1, EDGE, true, true));
    assert s1 == State(map[EDGE := Reserved(0)], map[0 := Build(1, EDGE)], [], 1, 0);
    var s2 := Apply(s1, Finish(0, 101, true));
    assert s2 == State(map[EDGE := Live(101, 1, 0)], map[], [STALE], 1, 1);
    var s3 := Apply(s2, Vanish(EDGE));
    assert s3 == State(map[], map[], [STALE], 1, 1);
    var s4 := Apply(s3, Take(2, EDGE, true, true));
    assert s4 == State(map[EDGE := Reserved(1)], map[1 := Build(2, EDGE)], [STALE], 2, 1);
  }

  /** When chain 1 then gives back, it takes the edge chain 2 holds away: if it failed
      and the id was 101 again, or if it had completed, whatever the id. */
  lemma OthersEdgeIsTaken(id: NetId, byId: bool)
    requires byId ==> id == 101
    ensures Enabled(Rebuilt(id), GiveBack(1, byId)) && Holders(Rebuilt(id).held, EDGE, 1) == 1
    ensures EDGE !in Apply(Rebuilt(id), GiveBack(1, byId)).registry
    ensures Holders(Apply(Rebuilt(id), GiveBack(1, byId)).held, EDGE, 1) == 1
  {
    var held, current := Rebuilt(id).held, Held(2, Hold(EDGE, id, 1));
    assert held == [STALE, current] && held[1..] == [current] && [current][1..] == [];
    assert HoldsOf([current], 1) == HoldsOf([], 1) == [];
    assert HoldsOf(held, 1) == [STALE.hold] + HoldsOf([current], 1) == [STALE.hold];
    assert Others([current], 1) == [current] + Others([], 1) == [current];
    assert Others(held, 1) == Others([current], 1);
    assert Holders([current], EDGE, 1) == 1 + Holders([], EDGE, 1);
    assert Holders(held, EDGE, 1) == Holders([current], EDGE, 1);
    UnwindLosesHits(Rebuilt(id).registry, [STALE.hold], byId, EDGE);
    HitsOne(STALE.hold, EDGE, id, byId);
  }

  // -------------------------------------------------------------------- every step

  lemma TakeKeepsInv(s: State, step: Step)
    requires Inv(s) && step.Take?
    ensures Inv(Apply(s, step))
  {
    var (r, c) := Claimed(s.registry, step.key, s.nextToken, step.registered, step.placeable);
    if c.Reused? {
      AddHold(s, step.chain, step.key, c.netId, c.born, r);
    }
  }

  lemma AddHold(s: State, chain: Chain, key: Key, netId: NetId, born: nat, r: Registry)
    requires Exact(s.registry - {key}, s.held) && SameId(s.registry - {key}, s.held)
    requires key in r && r[key] == Live(netId, Holders(s.held, key, born) + 1, born) && r - {key} == s.registry - {key}
    requires forall h :: h in s.held && h.hold.key == key && h.hold.born == born ==> h.hold.netId == netId
    ensures
      var held := s.held + [Held(chain, Hold(key, netId, born))];
      Exact(r, held) && SameId(r, held)
  {
    var h := Held(chain, Hold(key, netId, born));
    forall k | k in r && r[k].Live?
      ensures r[k].refs == Holders(s.held + [h], k, r[k].born) && r[k].refs > 0
    {
      HoldersAppend(s.held, h, k, r[k].born);
      if k != key {
        assert k in r - {key};
        assert (r - {key})[k] == (s.registry - {key})[k];
      }
    }
    forall x | x in s.held + [h]
      ensures HoldsSameId(r, x.hold)
    {
      if x in s.held && x.hold.key != key && x.hold.key in r {
        assert x.hold.key in r - {key};
        assert (r - {key})[x.hold.key] == (s.registry - {key})[x.hold.key];
        assert HoldsSameId(s.registry - {key}, x.hold);
      }
    }
  }

  lemma FinishKeepsInv(s: State, token: Token, netId: NetId, landed: bool)
    requires Inv(s) && token in s.building
    ensures Inv(Apply(s, Finish(token, netId, landed)))
  {
    var b := s.building[token];
    if Owns(s.registry, b.key, token) && landed {
      HoldersNew(s.held, b.key, s.nextBorn);
      AddHold(s, b.chain, b.key, netId, s.nextBorn, Promoted(s.registry, b.key, token, netId, s.nextBorn, true));
    } else {
      AbortKeepsInv(s, token);
    }
  }

  lemma AbortKeepsInv(s: State, token: Token)
    requires Inv(s) && token in s.building
    ensures Inv(Apply(s, Abort(token)))
  {
  }

  lemma OthersAreHeld(held: seq<Held>, c: Chain)
    ensures forall h :: h in Others(held, c) ==> h in held
  {
  }

  /** An entry left is the one that was there, with the others' references. */
  ghost predicate LeftBy(s: State, r: Registry, c: Chain, k: Key) {
    k in r ==>
      && k in s.registry
      && (r[k].Reserved? ==> r[k] == s.registry[k])
      && (r[k].Live? ==>
            && s.registry[k].Live? && r[k] == s.registry[k].(refs := r[k].refs)
            && r[k].refs == Holders(Others(s.held, c), k, r[k].born) && r[k].refs > 0)
  }

  lemma GiveBackLeaves(s: State, c: Chain, byId: bool, k: Key)
    requires Inv(s) && HarmlessAt(s, c, byId, k)
    ensures LeftBy(s, Unwound(s.registry, HoldsOf(s.held, c), byId), c, k)
  {
    UnwindLosesHits(s.registry, HoldsOf(s.held, c), byId, k);
    GivesBackIff(s, c, byId, k);
  }

  lemma GiveBackKeepsInv(s: State, c: Chain, byId: bool)
    requires Inv(s) && Enabled(s, GiveBack(c, byId)) && Harmless(s, c, byId)
    ensures Inv(Apply(s, GiveBack(c, byId)))
  {
    var r, others := Unwound(s.registry, HoldsOf(s.held, c), byId), Others(s.held, c);
    OthersAreHeld(s.held, c);
    forall k
      ensures LeftBy(s, r, c, k)
    {
      assert HarmlessAt(s, c, byId, k);
      GiveBackLeaves(s, c, byId, k);
    }
    assert forall k :: k in r ==> LeftBy(s, r, c, k);
    forall h | h in others
      ensures HoldsSameId(r, h.hold)
    {
      assert HoldsSameId(s.registry, h.hold);
    }
  }

  ghost predicate Faithful(s: State, step: Step) {
    step.GiveBack? ==> Harmless(s, step.chain, step.byId)
  }

  lemma StepKeepsInv(s: State, step: Step)
    requires Inv(s) && Enabled(s, step) && Faithful(s, step)
    ensures Inv(Apply(s, step))
  {
    match step
    case Take(_, _, _, _) => TakeKeepsInv(s, step);
    case Abort(token) => AbortKeepsInv(s, token);
    case Finish(token, netId, landed) => FinishKeepsInv(s, token, netId, landed);
    case GiveBack(chain, byId) => GiveBackKeepsInv(s, chain, byId);
    case Vanish(key) =>
  }

  ghost predicate LegalRun(s: State, steps: seq<Step>)
    decreases |steps|
  {
    steps == []
    || (Enabled(s, steps[0]) && Faithful(s, steps[0]) && LegalRun(Apply(s, steps[0]), steps[1..]))
  }

  ghost function Run(s: State, steps: seq<Step>): State
    requires LegalRun(s, steps)
    decreases |steps|
  {
    if steps == [] then s else Run(Apply(s, steps[0]), steps[1..])
  }

  lemma {:induction false} RunKeepsInv(s: State, steps: seq<Step>)
    requires Inv(s) && LegalRun(s, steps)
    ensures Inv(Run(s, steps))
    decreases |steps|
  {
    if steps != [] {
      StepKeepsInv(s, steps[0]);
      RunKeepsInv(Apply(s, steps[0]), steps[1..]);
    }
  }

  /** After any run of any number of chains: a live edge has as many references as
      chains hold it for, and a reserved one is being built by exactly one task. */
  lemma RefsAreHolders(steps: seq<Step>, k: Key)
    requires LegalRun(INIT, steps) && k in Run(INIT, steps).registry
    ensures
      var s := Run(INIT, steps);
      var e := s.registry[k];
      if e.Live? then e.refs == Holders(s.held, k, e.born) && e.refs > 0
      else OwnedBy(s, k, e.token)
  {
    RunKeepsInv(INIT, steps);
    var s := Run(INIT, steps);
    assert s.registry[k].Reserved? ==> OwnedBy(s, k, s.registry[k].token);
  }

  // --------------------------------------------------- when nothing is mistaken

  /** Each hold that would be taken for one on the edge now there, by net id or by
      key alone, is a hold on that edge. */
  ghost predicate Truthful(s: State, byId: bool) {
    forall h :: h in s.held && Matches(s.registry, h.hold, byId) ==> s.registry[h.hold.key].born == h.hold.born
  }

  /** When an edge is built, no chain still holds one under its key; with `byId`, none
      under its key and its net id. */
  ghost predicate FreshBuild(s: State, step: Step, byId: bool) {
    step.Finish? && step.token in s.building ==>
      forall h :: h in s.held && h.hold.key == s.building[step.token].key ==> byId && h.hold.netId != step.netId
  }

  lemma StepKeepsTruthful(s: State, step: Step, byId: bool)
    requires Inv(s) && Truthful(s, byId) && Enabled(s, step) && FreshBuild(s, step, byId)
    ensures Truthful(Apply(s, step), byId)
  {
    if step.GiveBack? {
      var mine := HoldsOf(s.held, step.chain);
      var r := Unwound(s.registry, mine, step.byId);
      OthersAreHeld(s.held, step.chain);
      forall h | h in Others(s.held, step.chain) && Matches(r, h.hold, byId)
        ensures r[h.hold.key].born == h.hold.born
      {
        UnwindLosesHits(s.registry, mine, step.byId, h.hold.key);
      }
    }
  }

  /** Runs whose builds are fresh; where only net ids are, no completed chain gives
      back, since it would not compare them. */
  ghost predicate FreshRun(s: State, steps: seq<Step>, byId: bool)
    decreases |steps|
  {
    steps == []
    || (&& Enabled(s, steps[0]) && FreshBuild(s, steps[0], byId)
        && (byId && steps[0].GiveBack? ==> steps[0].byId)
        && FreshRun(Apply(s, steps[0]), steps[1..], byId))
  }

  lemma TruthfulIsHarmless(s: State, c: Chain, byId: bool)
    requires Truthful(s, byId)
    ensures Harmless(s, c, byId) && Harmless(s, c, true)
  {
  }

  lemma {:induction false} FreshRunIsLegal(s: State, steps: seq<Step>, byId: bool)
    requires Inv(s) && Truthful(s, byId) && FreshRun(s, steps, byId)
    ensures LegalRun(s, steps)
    decreases |steps|
  {
    if steps != [] {
      if steps[0].GiveBack? {
        TruthfulIsHarmless(s, steps[0].chain, byId);
      }
      StepKeepsInv(s, steps[0]);
      StepKeepsTruthful(s, steps[0], byId);
      FreshRunIsLegal(Apply(s, steps[0]), steps[1..], byId);
    }
  }

  /** If no edge is built while a chain still holds an earlier one under the same key,
      nobody is ever misled, whether chains fail, complete or lose their owner: every run
      keeps references equal to holders. */
  lemma FreshKeysKeepRefsExact(steps: seq<Step>)
    requires FreshRun(INIT, steps, false)
    ensures LegalRun(INIT, steps) && Exact(Run(INIT, steps).registry, Run(INIT, steps).held)
  {
    FreshRunIsLegal(INIT, steps, false);
    RunKeepsInv(INIT, steps);
  }

  /** Where no completed chain gives back, it is enough that no build is given an id
      that some chain still holds for the same edge. */
  lemma FreshIdsKeepRefsExact(steps: seq<Step>)
    requires FreshRun(INIT, steps, true)
    ensures LegalRun(INIT, steps) && Exact(Run(INIT, steps).registry, Run(INIT, steps).held)
  {
    FreshRunIsLegal(INIT, steps, true);
    RunKeepsInv(INIT, steps);
  }

  lemma FreshFrom(s: State, step: Step, rest: seq<Step>)
    requires Enabled(s, step) && FreshBuild(s, step, true) && !step.GiveBack?
    requires FreshRun(Apply(s, step), rest, true)
    ensures FreshRun(s, [step] + rest, true)
  {
    assert ([step] + rest)[1..] == rest;
  }

  /** With completed chains it is not: the five steps to `Rebuilt(id)` give fresh ids, and
      chain 1, completed, then takes the edge that chain 2 holds. */
  lemma FreshIdsDoNotSuffice(id: NetId)
    requires id != 101
    ensures
      FreshRun(INIT, [Take(1, EDGE, true, true)] + ([Finish(0, 101, true)] + ([Vanish(EDGE)]
               + ([Take(2, EDGE, true, true)] + ([Finish(1, id, true)] + [])))), true)
    ensures EDGE !in Apply(Rebuilt(id), GiveBack(1, false)).registry
    ensures Holders(Apply(Rebuilt(id), GiveBack(1, false)).held, EDGE, 1) == 1
  {
    RebuiltIsReached(id);
    OthersEdgeIsTaken(id, false);
    var s1 := Apply(INIT, Take(1, EDGE, true, true));
    assert s1 == State(map[EDGE := Reserved(0)], map[0 := Build(1, EDGE)], [], 1, 0);
    var s2 := Apply(s1, Finish(0, 101, true));
    assert s2 == State(map[EDGE := Live(101, 1, 0)], map[], [STALE], 1, 1);
    var s3 := Apply(s2, Vanish(EDGE));
    var s4 := Apply(s3, Take(2, EDGE, true, true));
    assert s4 == State(map[EDGE := Reserved(1)], map[1 := Build(2, EDGE)], [STALE], 2, 1);
    var run5 := [Finish(1, id, true)] + [];
    FreshFrom(s4, Finish(1, id, true), []);
    var run4 := [Take(2, EDGE, true, true)] + run5;
    FreshFrom(s3, Take(2, EDGE, true, true), run5);
    var run3 := [Vanish(EDGE)] + run4;
    FreshFrom(s2, Vanish(EDGE), run4);
    FreshFrom(s1, Finish(0, 101, true), run3);
    FreshFrom(INIT, Take(1, EDGE, true, true), [Finish(0, 101, true)] + run3);
  }

  /** A build whose reservation was removed or replaced leaves the registry alone,
      and takes no reference. */
  lemma StaleBuildIsHarmless(s: State, token: Token, netId: NetId, landed: bool)
    requires token in s.building && !Owns(s.registry, s.building[token].key, token)
    ensures Apply(s, Abort(token)).registry == s.registry && Apply(s, Abort(token)).held == s.held
    ensures Apply(s, Finish(token, netId, landed)) == Apply(s, Abort(token))
  {
  }
}
