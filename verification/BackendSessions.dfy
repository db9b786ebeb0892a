/** Trigger-chain sessions (members/nullnet-server/src/orchestrator.rs:771-954,
    members/nullnet-server/src/timeout.rs:132-162): who holds the one reference of
    a chain, under which generation, and which history row it must close. */
module BackendSessions {
  import opened Basics
  import opened Reaping

  type Key = nat
  type Gen = nat
  type Row = nat

  datatype Session = Session(gen: Gen, history: Option<Row>, building: bool, idleSince: Option<nat>)

  type Sessions = map<Key, Session>

  function Clock(s: Session): Timer {
    Timer(!s.building, s.idleSince)
  }

  function Clocks(m: Sessions): Table<Key> {
    map k | k in m :: Clock(m[k])
  }

  predicate Current(m: Sessions, k: Key, g: Gen) {
    k in m && m[k].gen == g
  }

  // ------------------------------------------------- what each operation does to them

  function Claimed(m: Sessions, k: Key, g: Gen): Sessions {
    if k in m then m else m[k := Session(g, None, true, None)]
  }

  function Finished(m: Sessions, k: Key, g: Gen): Sessions {
    if Current(m, k, g) then m[k := m[k].(building := false)] else m
  }

  function WithHistory(m: Sessions, k: Key, g: Gen, row: Option<Row>): Sessions {
    if Current(m, k, g) then m[k := m[k].(history := row)] else m
  }

  /** The row a late open must close, its session being gone. */
  function Orphaned(m: Sessions, k: Key, g: Gen, row: Option<Row>): Option<Row> {
    if Current(m, k, g) then None else row
  }

  /** The session cancelled with a generation: that one only. */
  function OfGen(m: Sessions, k: Key, g: Gen): set<Key> {
    if Current(m, k, g) then {k} else {}
  }

  function OfBuild(m: Sessions, k: Key): set<Key> {
    if k in m && m[k].building then {k} else {}
  }

  function WithLiveness(m: Sessions, k: Key, active: bool, now: nat): Sessions {
    if k in m then m[k := m[k].(idleSince := if active then None else Some(now))] else m
  }

  function DueKeys(m: Sessions, debounce: nat, now: nat): set<Key> {
    set k | k in m && Due(Clock(m[k]), debounce, now)
  }

  function Without(m: Sessions, keys: set<Key>): Sessions {
    map k | k in m && k !in keys :: m[k]
  }

  function RowsOf(m: Sessions, keys: set<Key>): set<Row> {
    set k | k in keys && k in m && m[k].history.Some? :: m[k].history.value
  }

  // ------------------------------------------------------------ the machine of all tasks

  /** `finished` are builds whose history is still to be opened, `opened` those
      opened and still to be attached; `due` are the rows to close once the lock is
      let go, `closed` those closed, in order. `consumed` are the generations whose
      session has gone. */
  datatype State = State(sessions: Sessions, building: map<Gen, Key>, finished: map<Gen, Key>,
                         opening: map<Gen, (Key, Option<Row>)>, due: set<Row>, closed: seq<Row>,
                         consumed: set<Gen>, nextGen: Gen, nextRow: Row)

  const INIT := State(map[], map[], map[], map[], {}, [], {}, 0, 0)

  datatype Step =
    | Claim(key: Key)
    | Finish(gen: Gen)
    | Open(gen: Gen, queued: bool)      // the store may refuse the row
    | Attach(gen: Gen)
    | Cancel(key: Key, gen: Gen)
    | CancelBuild(key: Key)
    | TakeDue(debounce: nat, now: nat)
    | Forget(keys: set<Key>)
    | Liveness(key: Key, active: bool, now: nat)
    | Close(row: Row)

  ghost predicate Enabled(s: State, step: Step) {
    match step
    case Finish(g) => g in s.building
    case Open(g, _) => g in s.finished
    case Attach(g) => g in s.opening
    case Close(row) => row in s.due
    case _ => true
  }

  /** Sessions leave with their rows to close and their generations consumed. */
  function Removed(s: State, keys: set<Key>): State {
    s.(sessions := Without(s.sessions, keys), due := s.due + RowsOf(s.sessions, keys),
       consumed := s.consumed + GensOf(s.sessions, keys))
  }

  function GensOf(m: Sessions, keys: set<Key>): set<Gen> {
    set k | k in keys && k in m :: m[k].gen
  }

  function Rows(row: Option<Row>): set<Row> {
    if row.Some? then {row.value} else {}
  }

  function Apply(s: State, step: Step): State
    requires Enabled(s, step)
  {
    match step
    case Claim(key) =>
      if key in s.sessions then s
      else
        s.(sessions := Claimed(s.sessions, key, s.nextGen), building := s.building[s.nextGen := key],
           nextGen := s.nextGen + 1)
    case Finish(g) =>
      var k := s.building[g];
      s.(sessions := Finished(s.sessions, k, g), building := s.building - {g},
         finished := if Current(s.sessions, k, g) then s.finished[g := k] else s.finished)
    case Open(g, queued) =>
      s.(finished := s.finished - {g}, opening := s.opening[g := (s.finished[g], if queued then Some(s.nextRow) else None)],
         nextRow := if queued then s.nextRow + 1 else s.nextRow)
    case Attach(g) =>
      var (k, row) := s.opening[g];
      s.(sessions := WithHistory(s.sessions, k, g, row), opening := s.opening - {g},
         due := s.due + Rows(Orphaned(s.sessions, k, g, row)))
    case Cancel(key, g) => Removed(s, OfGen(s.sessions, key, g))
    case CancelBuild(key) =>
      // The build is only told its claim is gone; no row is closed.
      var keys := OfBuild(s.sessions, key);
      s.(sessions := Without(s.sessions, keys), consumed := s.consumed + GensOf(s.sessions, keys))
    case TakeDue(debounce, now) => Removed(s, DueKeys(s.sessions, debounce, now))
    case Forget(keys) => Removed(s, keys)
    case Liveness(key, active, now) => s.(sessions := WithLiveness(s.sessions, key, active, now))
    case Close(row) => s.(due := s.due - {row}, closed := s.closed + [row])
  }
}
