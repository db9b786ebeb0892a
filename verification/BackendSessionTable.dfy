/** The table the tasks share (members/nullnet-server/src/orchestrator.rs:771-954), as
    an object whose every call is a step of the machine: `run` is where the machine
    stands, and what is proved of all its runs holds here. */
module BackendSessionTables {
  import opened Basics
  import opened Reaping
  import opened BackendSessions
  import opened BackendSessionTheorems

  class BackendSessionTable {
    var sessions: Sessions
    var nextGen: Gen
    var nextRow: Row
    ghost var run: State

    ghost predicate Valid()
      reads this
    {
      Inv(run) && sessions == run.sessions && nextGen == run.nextGen && nextRow == run.nextRow
    }

    constructor ()
      ensures Valid() && run == INIT
    {
      sessions, nextGen, nextRow, run := map[], 0, 0, INIT;
      InitInv();
    }

    /** One claim per key at a time, under a generation nobody ever held. */
    method ClaimSession(k: Key) returns (g: Option<Gen>)
      requires Valid()
      modifies this
      ensures Valid() && run == Apply(old(run), Claim(k))
      ensures g.None? <==> k in old(sessions)
      ensures g.Some? ==> Current(sessions, k, g.value) && sessions[k].building && !EverHeld(old(run), g.value)
    {
      StepKeepsInv(run, Claim(k));
      g := None;
      if k !in sessions {
        g := Some(nextGen);
        NeverHeld(run);
        sessions := sessions[k := Session(nextGen, None, true, None)];
        nextGen := nextGen + 1;
      }
      run := Apply(run, Claim(k));
    }

    /** A build ends; it still owns its claim unless somebody consumed it meanwhile. */
    method FinishSession(k: Key, g: Gen) returns (mine: bool)
      requires Valid() && g in run.building && run.building[g] == k
      modifies this
      ensures Valid() && run == Apply(old(run), Finish(g))
      ensures mine <==> g !in old(run).consumed
      ensures !mine ==> sessions == old(sessions)
    {
      StepKeepsInv(run, Finish(g));
      OwnedUnlessConsumed(run, g, k);
      mine := k in sessions && sessions[k].gen == g;
      if mine {
        sessions := sessions[k := sessions[k].(building := false)];
      }
      run := Apply(run, Finish(g));
    }

    /** The store takes the row, or refuses it. */
    method OpenRow(g: Gen, queued: bool) returns (row: Option<Row>)
      requires Valid() && g in run.finished
      modifies this
      ensures Valid() && run == Apply(old(run), Open(g, queued))
      ensures g in run.opening && run.opening[g] == (old(run).finished[g], row)
    {
      StepKeepsInv(run, Open(g, queued));
      row := None;
      if queued {
        row := Some(nextRow);
        nextRow := nextRow + 1;
      }
      run := Apply(run, Open(g, queued));
    }

    /** The row joins the session that opened it, or comes back to be closed, exactly
        when that session was consumed in between. */
    method AttachRow(k: Key, g: Gen, row: Option<Row>) returns (toClose: Option<Row>)
      requires Valid() && g in run.opening && run.opening[g] == (k, row)
      modifies this
      ensures Valid() && run == Apply(old(run), Attach(g))
      ensures toClose == if g in old(run).consumed then row else None
      ensures Rows(toClose) <= run.due
      ensures g in old(run).consumed ==> sessions == old(sessions)
    {
      StepKeepsInv(run, Attach(g));
      OwnedUnlessConsumed(run, g, k);
      toClose := None;
      if k in sessions && sessions[k].gen == g {
        sessions := sessions[k := sessions[k].(history := row)];
      } else {
        toClose := row;
      }
      run := Apply(run, Attach(g));
    }

    /** The generation is consumed if it is still held, and its row left to close. */
    method CancelSession(k: Key, g: Gen) returns (toClose: Option<Row>)
      requires Valid()
      modifies this
      ensures Valid() && run == Apply(old(run), Cancel(k, g))
      ensures Current(old(sessions), k, g) ==> g in run.consumed && !Held(sessions, g)
      ensures !Current(old(sessions), k, g) ==> sessions == old(sessions)
      ensures run.due == old(run).due + Rows(toClose)
    {
      StepKeepsInv(run, Cancel(k, g));
      CancelConsumes(run, k, g);
      toClose := None;
      if k in sessions && sessions[k].gen == g {
        toClose := sessions[k].history;
        sessions := sessions - {k};
      }
      run := Apply(run, Cancel(k, g));
    }

    /** A build loses its claim; it had no row, so none is left behind. */
    method CancelBuilding(k: Key) returns (cancelled: bool)
      requires Valid()
      modifies this
      ensures Valid() && run == Apply(old(run), CancelBuild(k))
      ensures cancelled <==> k in old(sessions) && old(sessions)[k].gen in old(run).building
      ensures cancelled ==> RowsOf(old(sessions), {k}) == {} && old(sessions)[k].gen in run.consumed
      ensures sessions == if cancelled then old(sessions) - {k} else old(sessions)
    {
      StepKeepsInv(run, CancelBuild(k));
      CancelBuildConsumes(run, k);
      cancelled := k in sessions && sessions[k].building;
      if cancelled {
        sessions := sessions - {k};
      }
      run := Apply(run, CancelBuild(k));
    }

    /** A report dates the idleness of the session held, and invents none. */
    method SetLiveness(k: Key, active: bool, now: nat)
      requires Valid()
      modifies this
      ensures Valid() && run == Apply(old(run), Liveness(k, active, now))
      ensures sessions.Keys == old(sessions).Keys
    {
      StepKeepsInv(run, Liveness(k, active, now));
      if k in sessions {
        sessions := sessions[k := sessions[k].(idleSince := if active then None else Some(now))];
      }
      run := Apply(run, Liveness(k, active, now));
    }

    /** Take the sessions that are due out, each with the row it leaves to close. */
    method TakeDueSessions(debounce: nat, now: nat) returns (rows: seq<Option<Row>>)
      requires Valid()
      modifies this
      ensures Valid() && run == Apply(old(run), BackendSessions.TakeDue(debounce, now))
      ensures forall r :: Some(r) in rows <==> r in RowsOf(old(sessions), DueKeys(old(sessions), debounce, now))
    {
      StepKeepsInv(run, BackendSessions.TakeDue(debounce, now));
      var taken := ListDue(sessions, debounce, now);
      rows := TakeOut(taken);
      run := Apply(run, BackendSessions.TakeDue(debounce, now));
    }

    /** Another teardown spent these chains' references: drop the claims. */
    method ForgetSessions(keys: seq<Key>) returns (rows: seq<Option<Row>>)
      requires Valid()
      modifies this
      ensures Valid() && run == Apply(old(run), Forget(set k | k in keys))
      ensures forall r :: Some(r) in rows <==> r in RowsOf(old(sessions), set k | k in keys)
    {
      StepKeepsInv(run, Forget(set k | k in keys));
      rows := TakeOut(keys);
      run := Apply(run, Forget(set k | k in keys));
    }

    /** Remove the sessions listed, noting the row of each one found. */
    method TakeOut(keys: seq<Key>) returns (rows: seq<Option<Row>>)
      modifies `sessions
      ensures sessions == Without(old(sessions), set k | k in keys)
      ensures forall r :: Some(r) in rows <==> r in RowsOf(old(sessions), set k | k in keys)
    {
      rows := [];
      for i := 0 to |keys|
        invariant sessions == Without(old(sessions), set k | k in keys[..i])
        invariant forall r :: Some(r) in rows <==> r in RowsOf(old(sessions), set k | k in keys[..i])
      {
        assert keys[..i + 1] == keys[..i] + [keys[i]];
        if keys[i] in sessions {
          rows := rows + [sessions[keys[i]].history];
          sessions := sessions - {keys[i]};
        }
      }
      assert keys[..|keys|] == keys;
    }

    /** A close that was left for after the lock: made once, of a row nothing holds. */
    method CloseRow(row: Row)
      requires Valid() && row in run.due
      modifies this
      ensures Valid() && run == Apply(old(run), Close(row))
      ensures row !in old(run).closed && row !in run.due
    {
      StepKeepsInv(run, Close(row));
      run := Apply(run, Close(row));
    }
  }

  ghost predicate EverHeld(s: State, g: Gen) {
    g in s.consumed || Held(s.sessions, g)
  }

  lemma NeverHeld(s: State)
    requires Inv(s)
    ensures !EverHeld(s, s.nextGen)
  {
  }

  lemma CancelConsumes(s: State, k: Key, g: Gen)
    requires GensConserved(s.sessions, s.consumed, s.nextGen)
    ensures
      var s' := Apply(s, Cancel(k, g));
      if Current(s.sessions, k, g)
      then
        && s'.sessions == s.sessions - {k} && s'.due == s.due + Rows(s.sessions[k].history)
        && g in s'.consumed && !Held(s'.sessions, g)
      else s' == s
  {
    if Current(s.sessions, k, g) {
      RemoveKeepsGens(s.sessions, s.consumed, s.nextGen, {k});
      assert RowsOf(s.sessions, {k}) == Rows(s.sessions[k].history);
      assert GensOf(s.sessions, {k}) == {g};
    } else {
      assert Without(s.sessions, {}) == s.sessions;
    }
  }

  method ListDue(m: Sessions, debounce: nat, now: nat) returns (keys: seq<Key>)
    ensures (set k | k in keys) == DueKeys(m, debounce, now)
  {
    var _, taken := Reaping.TakeDue(Clocks(m), debounce, now);
    keys := taken;
  }

  /** A session still being built has no row yet, so its removal leaves none behind. */
  lemma CancelBuildConsumes(s: State, k: Key)
    requires Staged(s)
    ensures
      var s' := Apply(s, CancelBuild(k));
      if k in s.sessions && s.sessions[k].building
      then
        && s'.sessions == s.sessions - {k} && s.sessions[k].gen in s.building
        && RowsOf(s.sessions, {k}) == {} && s.sessions[k].gen in s'.consumed
      else s' == s && (k in s.sessions ==> s.sessions[k].gen !in s.building)
  {
    if k in s.sessions {
      assert SessionStaged(s, k, s.sessions[k]);
      assert GensOf(s.sessions, {k}) == {s.sessions[k].gen};
    }
    assert Without(s.sessions, {}) == s.sessions;
  }

  /** A generation at work on `k` owns the session there, unless it was consumed. */
  lemma OwnedUnlessConsumed(s: State, g: Gen, k: Key)
    requires Inv(s)
    requires (g in s.building && s.building[g] == k) || (g in s.opening && s.opening[g].0 == k)
    ensures Current(s.sessions, k, g) <==> g !in s.consumed
  {
    if g !in s.consumed {
      var j :| Current(s.sessions, j, g);
      assert SessionStaged(s, j, s.sessions[j]);
    }
  }
}
