/** Every run of claims, builds, cancellations, reaps and history writes. */
module BackendSessionTheorems {
  import opened Basics
  import opened Reaping
  import opened BackendSessions

  // ----------------------------------------------------------------- the invariant

  /** Each generation claimed is held by exactly one session, or has been consumed. */
  ghost predicate GensConserved(m: Sessions, consumed: set<Gen>, nextGen: Gen) {
    && (forall g: Gen :: g < nextGen <==> g in consumed || Held(m, g))
    && (forall k :: k in m ==> m[k].gen !in consumed)
    && (forall j, k :: j in m && k in m && m[j].gen == m[k].gen ==> j == k)
  }

  ghost predicate Held(m: Sessions, g: Gen) {
    exists k :: Current(m, k, g)
  }

  /** A generation is at one stage of its build and its history at a time, and has
      no row before it is attached. */
  ghost predicate Staged(s: State) {
    && (forall g :: g in s.building ==> g < s.nextGen && g !in s.finished && g !in s.opening)
    && (forall g :: g in s.finished ==> g < s.nextGen && g !in s.opening)
    && (forall g :: g in s.opening ==> g < s.nextGen)
    && (forall k :: k in s.sessions ==> SessionStaged(s, k, s.sessions[k]))
  }

  ghost predicate SessionStaged(s: State, k: Key, e: Session) {
    && (e.building <==> e.gen in s.building)
    && (e.gen in s.building ==> s.building[e.gen] == k)
    && (e.gen in s.finished ==> s.finished[e.gen] == k)
    && (e.gen in s.opening ==> s.opening[e.gen].0 == k)
    && (e.gen in s.building || e.gen in s.finished || e.gen in s.opening ==> e.history.None?)
  }

  /** The places a row can be: about to be attached, attached, to be closed, closed. */
  ghost predicate Awaiting(s: State, g: Gen, r: Row) {
    g in s.opening && s.opening[g].1 == Some(r)
  }

  ghost predicate Attached(m: Sessions, k: Key, r: Row) {
    k in m && m[k].history == Some(r)
  }

  /** Every row ever opened is in exactly one of those places. */
  ghost predicate RowsConserved(s: State) {
    && (forall r: Row :: r < s.nextRow <==> Placed(s, r))
    && (forall g, h, r :: Awaiting(s, g, r) && Awaiting(s, h, r) ==> g == h)
    && (forall j, k, r :: Attached(s.sessions, j, r) && Attached(s.sessions, k, r) ==> j == k)
    && (forall g, k, r :: Awaiting(s, g, r) ==> !Attached(s.sessions, k, r))
    && (forall g, r :: Awaiting(s, g, r) ==> r !in s.due && r !in s.closed)
    && (forall k, r :: Attached(s.sessions, k, r) ==> r !in s.due && r !in s.closed)
    && (forall r :: r in s.due ==> r !in s.closed)
    && (forall i, j :: 0 <= i < j < |s.closed| ==> s.closed[i] != s.closed[j])
  }

  ghost predicate Placed(s: State, r: Row) {
    || (exists g :: Awaiting(s, g, r))
    || (exists k :: Attached(s.sessions, k, r))
    || r in s.due
    || r in s.closed
  }

  ghost predicate Inv(s: State) {
    GensConserved(s.sessions, s.consumed, s.nextGen) && Staged(s) && RowsConserved(s)
  }

  // ------------------------------------------------------------ generations, once

  lemma ClaimKeepsGens(m: Sessions, consumed: set<Gen>, nextGen: Gen, key: Key, e: Session)
    requires GensConserved(m, consumed, nextGen) && key !in m && e.gen == nextGen
    ensures GensConserved(m[key := e], consumed, nextGen + 1)
  {
    var m' := m[key := e];
    assert Current(m', key, nextGen);
    forall g: Gen
      ensures Held(m', g) <==> Held(m, g) || g == nextGen
    {
      if Held(m, g) {
        var k :| Current(m, k, g);
        assert Current(m', k, g);
      }
      if Held(m', g) {
        var k :| Current(m', k, g);
        assert k == key || Current(m, k, g);
      }
    }
    assert forall k :: k in m ==> Current(m, k, m[k].gen);
  }

  /** Changing a session but not its generation. */
  lemma EditKeepsGens(m: Sessions, consumed: set<Gen>, nextGen: Gen, key: Key, e: Session)
    requires GensConserved(m, consumed, nextGen) && key in m && e.gen == m[key].gen
    ensures GensConserved(m[key := e], consumed, nextGen)
  {
    var m' := m[key := e];
    assert forall k: Key, g: Gen :: Current(m', k, g) <==> Current(m, k, g);
    assert forall g: Gen :: Held(m', g) <==> Held(m, g);
  }

  lemma RemoveKeepsGens(m: Sessions, consumed: set<Gen>, nextGen: Gen, keys: set<Key>)
    requires GensConserved(m, consumed, nextGen)
    ensures GensConserved(Without(m, keys), consumed + GensOf(m, keys), nextGen)
    ensures GensOf(m, keys) !! consumed
  {
    var m', gone := Without(m, keys), GensOf(m, keys);
    forall g: Gen
      ensures Held(m, g) <==> Held(m', g) || g in gone
    {
      if Held(m, g) {
        var k :| Current(m, k, g);
        assert k !in keys ==> Current(m', k, g);
      }
      if Held(m', g) {
        var k :| Current(m', k, g);
        assert Current(m, k, g);
      }
      if g in gone {
        var k :| k in keys && k in m && m[k].gen == g;
        assert Current(m, k, g);
      }
    }
  }

  lemma StepKeepsGens(s: State, step: Step)
    requires Enabled(s, step) && GensConserved(s.sessions, s.consumed, s.nextGen)
    ensures
      var s' := Apply(s, step);
      GensConserved(s'.sessions, s'.consumed, s'.nextGen)
  {
    match step
    case Claim(key) =>
      if key !in s.sessions {
        ClaimKeepsGens(s.sessions, s.consumed, s.nextGen, key, Session(s.nextGen, None, true, None));
      }
    case Finish(g) =>
      var k := s.building[g];
      if Current(s.sessions, k, g) {
        EditKeepsGens(s.sessions, s.consumed, s.nextGen, k, s.sessions[k].(building := false));
      }
    case Attach(g) =>
      var (k, row) := s.opening[g];
      if Current(s.sessions, k, g) {
        EditKeepsGens(s.sessions, s.consumed, s.nextGen, k, s.sessions[k].(history := row));
      }
    case Cancel(key, g) => RemoveKeepsGens(s.sessions, s.consumed, s.nextGen, OfGen(s.sessions, key, g));
    case CancelBuild(key) => RemoveKeepsGens(s.sessions, s.consumed, s.nextGen, OfBuild(s.sessions, key));
    case TakeDue(debounce, now) =>
      RemoveKeepsGens(s.sessions, s.consumed, s.nextGen, DueKeys(s.sessions, debounce, now));
    case Forget(keys) => RemoveKeepsGens(s.sessions, s.consumed, s.nextGen, keys);
    case Liveness(key, active, now) =>
      if key in s.sessions {
        EditKeepsGens(s.sessions, s.consumed, s.nextGen, key, WithLiveness(s.sessions, key, active, now)[key]);
      }
    case _ =>
  }

  // -------------------------------------------------------------------- one stage

  lemma Young(m: Sessions, consumed: set<Gen>, nextGen: Gen, k: Key)
    requires GensConserved(m, consumed, nextGen) && k in m
    ensures m[k].gen < nextGen
  {
    assert Current(m, k, m[k].gen);
  }

  /** Sessions leaving, and liveness, move no generation to another stage. */
  lemma ShrinkKeepsStaged(s: State, s': State)
    requires Staged(s)
    requires s'.building == s.building && s'.finished == s.finished && s'.opening == s.opening && s'.nextGen == s.nextGen
    requires forall k :: k in s'.sessions ==> k in s.sessions && SameStage(s.sessions[k], s'.sessions[k])
    ensures Staged(s')
  {
  }

  lemma WithoutKeepsStaged(s: State, keys: set<Key>, s': State)
    requires Staged(s)
    requires s'.building == s.building && s'.finished == s.finished && s'.opening == s.opening && s'.nextGen == s.nextGen
    requires s'.sessions == s.sessions || s'.sessions == Without(s.sessions, keys)
    ensures Staged(s')
  {
  }

  ghost predicate SameStage(e: Session, f: Session) {
    e.gen == f.gen && e.building == f.building && e.history == f.history
  }

  lemma ClaimKeepsStaged(s: State, key: Key)
    requires Staged(s) && GensConserved(s.sessions, s.consumed, s.nextGen)
    ensures Staged(Apply(s, Claim(key)))
  {
    var s' := Apply(s, Claim(key));
    forall k | k in s'.sessions
      ensures SessionStaged(s', k, s'.sessions[k])
    {
      if k in s.sessions {
        assert SessionStaged(s, k, s.sessions[k]);
        Young(s.sessions, s.consumed, s.nextGen, k);
      }
    }
  }

  lemma FinishKeepsStaged(s: State, g: Gen)
    requires Staged(s) && g in s.building
    ensures Staged(Apply(s, Finish(g)))
  {
  }

  lemma OpenKeepsStaged(s: State, g: Gen, queued: bool)
    requires Staged(s) && g in s.finished
    ensures Staged(Apply(s, Open(g, queued)))
  {
  }

  lemma AttachKeepsStaged(s: State, g: Gen)
    requires Staged(s) && g in s.opening
    ensures Staged(Apply(s, Attach(g)))
  {
  }

  lemma LeavingKeepsStaged(s: State, step: Step)
    requires Enabled(s, step) && Staged(s)
    requires !step.Claim? && !step.Finish? && !step.Open? && !step.Attach?
    ensures Staged(Apply(s, step))
  {
    var s' := Apply(s, step);
    match step
    case Cancel(key, g) => WithoutKeepsStaged(s, OfGen(s.sessions, key, g), s');
    case CancelBuild(key) => WithoutKeepsStaged(s, OfBuild(s.sessions, key), s');
    case TakeDue(debounce, now) => WithoutKeepsStaged(s, DueKeys(s.sessions, debounce, now), s');
    case Forget(keys) => WithoutKeepsStaged(s, keys, s');
    case Liveness(key, active, now) => ShrinkKeepsStaged(s, s');
    case Close(row) => ShrinkKeepsStaged(s, s');
  }

  lemma StepKeepsStaged(s: State, step: Step)
    requires Enabled(s, step) && Staged(s) && GensConserved(s.sessions, s.consumed, s.nextGen)
    ensures Staged(Apply(s, step))
  {
    match step
    case Claim(key) => ClaimKeepsStaged(s, key);
    case Finish(g) => FinishKeepsStaged(s, g);
    case Open(g, queued) => OpenKeepsStaged(s, g, queued);
    case Attach(g) => AttachKeepsStaged(s, g);
    case _ => LeavingKeepsStaged(s, step);
  }

  // ------------------------------------------------------------------ rows, once

  /** Nothing moves a row. */
  lemma SameRows(s: State, s': State)
    requires RowsConserved(s)
    requires s'.opening == s.opening && s'.due == s.due && s'.closed == s.closed && s'.nextRow == s.nextRow
    requires forall k, r :: Attached(s'.sessions, k, r) <==> Attached(s.sessions, k, r)
    ensures RowsConserved(s')
  {
    assert forall g, r :: Awaiting(s', g, r) <==> Awaiting(s, g, r);
    assert forall r: Row :: Placed(s', r) <==> Placed(s, r);
  }

  lemma OpenKeepsRows(s: State, g: Gen, queued: bool)
    requires RowsConserved(s) && Staged(s) && g in s.finished
    ensures RowsConserved(Apply(s, Open(g, queued)))
  {
    var s' := Apply(s, Open(g, queued));
    var new_ := s.nextRow;
    assert !Placed(s, new_);
    assert forall h, r :: Awaiting(s', h, r) <==> Awaiting(s, h, r) || (queued && h == g && r == new_);
    assert forall k, r :: Attached(s'.sessions, k, r) <==> Attached(s.sessions, k, r);
    forall r: Row
      ensures Placed(s', r) <==> Placed(s, r) || (queued && r == new_)
    {
      if queued && r == new_ {
        assert Awaiting(s', g, r);
      }
    }
  }

  lemma AttachKeepsRows(s: State, g: Gen)
    requires RowsConserved(s) && Staged(s) && g in s.opening
    ensures RowsConserved(Apply(s, Attach(g)))
  {
    var s' := Apply(s, Attach(g));
    var (k, row) := s.opening[g];
    assert row.Some? ==> Awaiting(s, g, row.value);
    assert forall h, r :: Awaiting(s', h, r) <==> Awaiting(s, h, r) && h != g;
    if Current(s.sessions, k, g) {
      assert SessionStaged(s, k, s.sessions[k]);
      assert forall j, r: Row :: Attached(s'.sessions, j, r) <==> Attached(s.sessions, j, r) || (j == k && row == Some(r));
    } else {
      assert forall j, r :: Attached(s'.sessions, j, r) <==> Attached(s.sessions, j, r);
    }
    forall r: Row
      ensures Placed(s', r) <==> Placed(s, r)
    {
      AttachPlaces(s, s', g, r);
    }
  }

  lemma AttachPlaces(s: State, s': State, g: Gen, r: Row)
    requires Staged(s) && g in s.opening && s' == Apply(s, Attach(g))
    ensures Placed(s', r) <==> Placed(s, r)
  {
    var (k, row) := s.opening[g];
    if Current(s.sessions, k, g) {
      assert SessionStaged(s, k, s.sessions[k]);
    }
    if exists h :: Awaiting(s, h, r) {
      var h :| Awaiting(s, h, r);
      assert h != g ==> Awaiting(s', h, r);
      assert h == g && Current(s.sessions, k, g) ==> Attached(s'.sessions, k, r);
    }
    if exists j :: Attached(s.sessions, j, r) {
      var j :| Attached(s.sessions, j, r);
      assert Attached(s'.sessions, j, r);
    }
    if exists h :: Awaiting(s', h, r) {
      var h :| Awaiting(s', h, r);
      assert Awaiting(s, h, r);
    }
    if exists j :: Attached(s'.sessions, j, r) {
      var j :| Attached(s'.sessions, j, r);
      assert Attached(s.sessions, j, r) || Awaiting(s, g, r);
    }
    if row == Some(r) {
      assert Awaiting(s, g, r);
    }
  }

  lemma RemoveKeepsRows(s: State, keys: set<Key>)
    requires RowsConserved(s)
    ensures RowsConserved(Removed(s, keys))
  {
    var s' := Removed(s, keys);
    assert forall g, r :: Awaiting(s', g, r) <==> Awaiting(s, g, r);
    assert forall k, r :: Attached(s'.sessions, k, r) <==> Attached(s.sessions, k, r) && k !in keys;
    forall r: Row
      ensures r in s'.due <==> r in s.due || exists k :: k in keys && Attached(s.sessions, k, r)
    {
      if exists k :: k in keys && Attached(s.sessions, k, r) {
        var k :| k in keys && Attached(s.sessions, k, r);
        assert k in s.sessions && s.sessions[k].history.value == r;
      }
    }
    forall r: Row
      ensures Placed(s', r) <==> Placed(s, r)
    {
      if exists k :: Attached(s.sessions, k, r) {
        var k :| Attached(s.sessions, k, r);
        assert k !in keys ==> Attached(s'.sessions, k, r);
      }
    }
  }

  lemma CloseKeepsRows(s: State, row: Row)
    requires RowsConserved(s) && row in s.due
    ensures RowsConserved(Apply(s, Close(row)))
  {
    var s' := Apply(s, Close(row));
    assert forall g, r :: Awaiting(s', g, r) <==> Awaiting(s, g, r);
    assert forall k, r :: Attached(s'.sessions, k, r) <==> Attached(s.sessions, k, r);
    assert forall r: Row :: Placed(s', r) <==> Placed(s, r);
  }

  lemma StepKeepsRows(s: State, step: Step)
    requires Enabled(s, step) && RowsConserved(s) && Staged(s)
    ensures RowsConserved(Apply(s, step))
  {
    match step
    case Open(g, queued) => OpenKeepsRows(s, g, queued);
    case Attach(g) => AttachKeepsRows(s, g);
    case Cancel(key, g) => RemoveKeepsRows(s, OfGen(s.sessions, key, g));
    case CancelBuild(key) =>
      assert key in s.sessions ==> SessionStaged(s, key, s.sessions[key]);
      SameRows(s, Apply(s, step));
    case TakeDue(debounce, now) => RemoveKeepsRows(s, DueKeys(s.sessions, debounce, now));
    case Forget(keys) => RemoveKeepsRows(s, keys);
    case Close(row) => CloseKeepsRows(s, row);
    case _ => SameRows(s, Apply(s, step));
  }

  // -------------------------------------------------------------------- every run

  lemma StepKeepsInv(s: State, step: Step)
    requires Inv(s) && Enabled(s, step)
    ensures Inv(Apply(s, step))
  {
    StepKeepsGens(s, step);
    StepKeepsStaged(s, step);
    StepKeepsRows(s, step);
  }

  ghost predicate LegalRun(s: State, steps: seq<Step>)
    decreases |steps|
  {
    steps == [] || (Enabled(s, steps[0]) && LegalRun(Apply(s, steps[0]), steps[1..]))
  }

  ghost function Run(s: State, steps: seq<Step>): State
    requires LegalRun(s, steps)
    decreases |steps|
  {
    if steps == [] then s else Run(Apply(s, steps[0]), steps[1..])
  }

  lemma {:induction false} RunKeepsInv(s: State, steps: seq<Step>)
    requires Inv(s) && LegalRun(s, steps)
    ensures Inv(Run(s, steps))
    decreases |steps|
  {
    if steps != [] {
      StepKeepsInv(s, steps[0]);
      RunKeepsInv(Apply(s, steps[0]), steps[1..]);
    }
  }

  lemma InitInv()
    ensures Inv(INIT)
  {
  }

  /** On every run, each generation claimed is either held by exactly one session or
      consumed, never both. */
  lemma GenerationsAreConsumedOnce(steps: seq<Step>, g: Gen)
    requires LegalRun(INIT, steps) && g < Run(INIT, steps).nextGen
    ensures g in Run(INIT, steps).consumed <==> !Held(Run(INIT, steps).sessions, g)
    ensures
      forall j, k :: Current(Run(INIT, steps).sessions, j, g) && Current(Run(INIT, steps).sessions, k, g) ==> j == k
  {
    InitInv();
    RunKeepsInv(INIT, steps);
  }

  /** A generation that a step consumes was held until then, and once consumed is
      never held again. */
  lemma ConsumptionIsFinal(s: State, step: Step, g: Gen)
    requires Inv(s) && Enabled(s, step)
    ensures g in s.consumed ==> g in Apply(s, step).consumed && !Held(Apply(s, step).sessions, g)
    ensures g in Apply(s, step).consumed && g !in s.consumed ==> Held(s.sessions, g)
    ensures Held(s.sessions, g) && !Held(Apply(s, step).sessions, g) ==> g in Apply(s, step).consumed
  {
    StepKeepsInv(s, step);
    assert Held(s.sessions, g) ==> g < s.nextGen;
    assert s.nextGen <= Apply(s, step).nextGen;
    if g in Apply(s, step).consumed && g !in s.consumed {
      var k :| k in s.sessions && s.sessions[k].gen == g;
      assert Current(s.sessions, k, g);
    }
  }

  /** What a stale generation does late (finish, attach its history, or cancel) leaves
      every session as it is. */
  lemma StaleGenerationIsHarmless(s: State, g: Gen)
    requires Inv(s) && g in s.consumed
    ensures g in s.building ==> Apply(s, Finish(g)).sessions == s.sessions
    ensures g in s.opening ==> Apply(s, Attach(g)).sessions == s.sessions
    ensures forall k :: Apply(s, Cancel(k, g)).sessions == s.sessions
    ensures g in s.opening ==> Rows(s.opening[g].1) <= Apply(s, Attach(g)).due
  {
  }

  /** On every run, a row opened is closed at most once, never while it is attached
      or about to be, and otherwise is closed or waiting to be: so once the closes
      due are made, each row whose session has gone is closed exactly once. */
  lemma RowsAreClosedOnce(steps: seq<Step>, r: Row)
    requires LegalRun(INIT, steps) && r < Run(INIT, steps).nextRow
    ensures
      var s := Run(INIT, steps);
      var live := (exists g :: Awaiting(s, g, r)) || (exists k :: Attached(s.sessions, k, r));
      && (live <==> r !in s.due && r !in s.closed)
      && (r in s.due ==> r !in s.closed)
      && multiset(s.closed)[r] == (if r in s.closed then 1 else 0)
  {
    InitInv();
    RunKeepsInv(INIT, steps);
    var s := Run(INIT, steps);
    OnceInDistinct(s.closed, r);
    assert Placed(s, r);
  }

  lemma {:induction false} OnceInDistinct(xs: seq<Row>, r: Row)
    requires forall i, j :: 0 <= i < j < |xs| ==> xs[i] != xs[j]
    ensures multiset(xs)[r] == if r in xs then 1 else 0
  {
    if xs != [] {
      assert xs == [xs[0]] + xs[1..];
      OnceInDistinct(xs[1..], r);
      assert xs[0] !in xs[1..];
    }
  }
}
