/**
 Requests interleaved at every await. Only map inserts and removes and single row writes are atomic; launches,
 health checks and stops take any time and end either way, a request may be dropped at any await, the host may
 restart, and registry rows may be written by anyone at any moment.
 */
module Ownership {
  import opened Wrappers
  import opened Database
  import opened Sequences

  /** A runtime is named by the number of its spawn, so every spawn is a new runtime. */
  type HandleId = nat
  type RequestId = nat

  datatype Cell = Cell(status: string, enabled: bool)

  /** The await points of the three requests, with the row that a start must put back if it fails. */
  datatype Point =
    | StartReading
    | StartMarking(prior: Cell)        // about to write the running row
    | StartSpawning(prior: Cell)
    | StartProbing(prior: Cell)        // spawned; waiting for the runtime to answer
    | StartKilling(prior: Cell)        // it did not answer
    | StartRollingBack(prior: Cell)
    | StopReading
    | StopTaking                       // the row said running
    | StopStopping
    | StopMarking                      // about to write the installed row
    | UninstallTaking
    | UninstallStopping
    | UninstallDeleting

  /** The points between which a request alone knows of a runtime. */
  predicate Holding(point: Point) {
    point.StartProbing? || point.StartKilling? || point.StopStopping? || point.UninstallStopping?
  }

  datatype Request = Request(p: string, point: Point, held: Option<HandleId>)
  {
    function Runtimes(): set<HandleId> {
      if held.Some? then {held.value} else {}
    }

    predicate Stopping() {
      held.Some? && (point.StopStopping? || point.UninstallStopping? || point.StartKilling?)
    }
  }

  datatype State = State(
    rows: map<string, Cell>,
    active: map<string, HandleId>,
    requests: map<RequestId, Request>,
    launchedFor: seq<string>,        // the plugin of each spawn so far
    stopped: set<HandleId>,
    dropped: set<HandleId>)          // runtimes that nothing refers to any more

  const INITIAL: State := State(map[], map[], map[], [], {}, {})

  datatype Action =
    | Arrive(r: RequestId, p: string, point: Point)
    | Advance(r: RequestId, succeeds: bool)
    | Cancel(r: RequestId)
    | WriteRow(p: string, row: Option<Cell>)
    | Restart

  // ---- What a request does between two awaits ----

  /** What happens to a runtime: spawned, taken from the map, put into it, ended, or lost. */
  datatype Deed = Nothing | Launch | Take | Put | End | Lose

  datatype RowWrite = Leave | Write(cell: Cell) | Delete

  datatype Move = Move(deed: Deed, write: RowWrite, next: Option<Point>)

  /** The program of each request: `succeeds` is what it was waiting for. */
  function Plan(s: State, q: Request, succeeds: bool): Move {
    match q.point
    case StartReading =>
      if succeeds && q.p in s.rows && s.rows[q.p].status != PENDING && s.rows[q.p].status != RUNNING
      then Move(Nothing, Leave, Some(StartMarking(s.rows[q.p]))) else Move(Nothing, Leave, None)
    case StartMarking(prior) =>
      Move(Nothing, if succeeds then Write(Cell(RUNNING, true)) else Leave, Some(StartSpawning(prior)))
    case StartSpawning(prior) =>
      if succeeds then Move(Launch, Leave, Some(StartProbing(prior)))
      else Move(Nothing, Leave, Some(StartRollingBack(prior)))
    case StartProbing(prior) =>
      if succeeds then Move(Put, Leave, None) else Move(Nothing, Leave, Some(StartKilling(prior)))
    case StartKilling(prior) => Move(if succeeds then End else Lose, Leave, Some(StartRollingBack(prior)))
    case StartRollingBack(prior) => Move(Nothing, if succeeds then Write(prior) else Leave, None)
    case StopReading =>
      if succeeds && q.p in s.rows && s.rows[q.p].status == RUNNING
      then Move(Nothing, Leave, Some(StopTaking)) else Move(Nothing, Leave, None)
    case StopTaking => if q.p in s.active then Move(Take, Leave, Some(StopStopping)) else Move(Nothing, Leave, None)
    case StopStopping => if succeeds then Move(End, Leave, Some(StopMarking)) else Move(Put, Leave, None)
    case StopMarking => Move(Nothing, if succeeds then Write(Cell(INSTALLED, false)) else Leave, None)
    case UninstallTaking =>
      if q.p in s.active then Move(Take, Leave, Some(UninstallStopping))
      else Move(Nothing, Leave, Some(UninstallDeleting))
    case UninstallStopping => if succeeds then Move(End, Leave, Some(UninstallDeleting)) else Move(Lose, Leave, None)
    case UninstallDeleting => Move(Nothing, if succeeds then Delete else Leave, None)
  }

  /** The value a map insert throws away. */
  function Overwritten(s: State, p: string): set<HandleId> {
    if p in s.active then {s.active[p]} else {}
  }

  function Do(s: State, r: RequestId, deed: Deed): State
    requires r in s.requests
  {
    var q := s.requests[r];
    var freed := s.requests[r := q.(held := None)];
    match deed
    case Nothing => s
    case Launch =>
      s.(launchedFor := s.launchedFor + [q.p], dropped := s.dropped + q.Runtimes(),
         requests := s.requests[r := q.(held := Some(|s.launchedFor|))])
    case Take =>
      if q.p !in s.active then s
      else s.(active := s.active - {q.p}, dropped := s.dropped + q.Runtimes(),
              requests := s.requests[r := q.(held := Some(s.active[q.p]))])
    case Put =>
      if q.held.None? then s
      else s.(active := s.active[q.p := q.held.value], dropped := s.dropped + Overwritten(s, q.p), requests := freed)
    case End => s.(stopped := s.stopped + q.Runtimes(), requests := freed)
    case Lose => s.(dropped := s.dropped + q.Runtimes(), requests := freed)
  }

  function WriteCell(s: State, p: string, w: RowWrite): State {
    match w
    case Leave => s
    case Write(cell) => if p in s.rows then s.(rows := s.rows[p := cell]) else s
    case Delete => s.(rows := s.rows - {p})
  }

  /** A request that ends loses what it still holds. */
  function Goto(s: State, r: RequestId, next: Option<Point>): State
    requires r in s.requests
  {
    match next
    case Some(point) => s.(requests := s.requests[r := s.requests[r].(point := point)])
    case None => s.(requests := s.requests - {r}, dropped := s.dropped + s.requests[r].Runtimes())
  }

  function AdvanceRequest(s: State, r: RequestId, succeeds: bool): State
    requires r in s.requests
  {
    var m := Plan(s, s.requests[r], succeeds);
    Goto(WriteCell(Do(s, r, m.deed), s.requests[r].p, m.write), r, m.next)
  }

  function AllHeld(s: State): set<HandleId> {
    set r | r in s.requests && s.requests[r].held.Some? :: s.requests[r].held.value
  }

  /** A restart forgets the map and every request. */
  function Restarted(s: State): State {
    s.(active := map[], requests := map[], dropped := s.dropped + s.active.Values + AllHeld(s))
  }

  /** Any action in any state; one that cannot happen changes nothing. */
  function Next(s: State, a: Action): State {
    match a
    case Arrive(r, p, point) =>
      if r !in s.requests && (point.StartReading? || point.StopReading? || point.UninstallTaking?)
      then s.(requests := s.requests[r := Request(p, point, None)]) else s
    case Advance(r, succeeds) => if r in s.requests then AdvanceRequest(s, r, succeeds) else s
    case Cancel(r) => if r in s.requests then Goto(s, r, None) else s
    case WriteRow(p, row) =>
      if row.Some? then s.(rows := s.rows[p := row.value]) else s.(rows := s.rows - {p})
    case Restart => Restarted(s)
  }

  function RunFrom(s: State, actions: seq<Action>): State {
    if actions == [] then s else Next(RunFrom(s, actions[..|actions| - 1]), actions[|actions| - 1])
  }

  function Run(actions: seq<Action>): State {
    RunFrom(INITIAL, actions)
  }

  lemma {:induction false} RunAppend(s: State, a: seq<Action>, b: seq<Action>)
    ensures RunFrom(s, a + b) == RunFrom(RunFrom(s, a), b)
  {
    hide Next;
    if b == [] {
      assert a + b == a;
    } else {
      RunAppend(s, a, b[..|b| - 1]);
      ConcatInit(a, b);
    }
  }

  lemma RunSnoc(s: State, actions: seq<Action>, a: Action)
    ensures RunFrom(s, actions + [a]) == Next(RunFrom(s, actions), a)
  {
    hide Next;
    assert (actions + [a])[..|actions|] == actions;
  }

  /** No request brings back a row that is gone; a write from outside sets or removes one row and no more. */
  lemma RowsStayGone(s: State, a: Action, p: string)
    ensures a.WriteRow? ==> Next(s, a) == s.(rows := if a.row.Some? then s.rows[a.p := a.row.value] else s.rows - {a.p})
    ensures !a.WriteRow? && p !in s.rows ==> p !in Next(s, a).rows
  {
    if a.Advance? && a.r in s.requests {
      hide Plan;
    }
  }

  /** A start goes on from its checks only for a row that says neither pending nor running, a stop only for running. */
  lemma ChecksDecide(s: State, r: RequestId, succeeds: bool)
    requires r in s.requests && (s.requests[r].point.StartReading? || s.requests[r].point.StopReading?)
    requires s.requests[r].held.None?
    ensures var q, rows := s.requests[r], s.rows;
      var passes := succeeds && q.p in rows
          && if q.point.StartReading? then rows[q.p].status !in {"pending", "running"}
             else rows[q.p].status == "running";
      Next(s, Advance(r, succeeds))
      == if !passes then s.(requests := s.requests - {r})
         else if q.point.StartReading? then s.(requests := s.requests[r := q.(point := StartMarking(rows[q.p]))])
         else s.(requests := s.requests[r := q.(point := StopTaking)])
  {
    assert s.dropped + {} == s.dropped;
  }

  // ---- Where a runtime is ----

  datatype Place = InMap(p: string) | WithRequest(r: RequestId) | Stopped | Dropped

  ghost predicate At(s: State, h: HandleId, place: Place) {
    match place
    case InMap(p) => p in s.active && s.active[p] == h
    case WithRequest(r) => r in s.requests && s.requests[r].held == Some(h)
    case Stopped => h in s.stopped
    case Dropped => h in s.dropped
  }

  /** A runtime sits in the map, or with a request, only under the plugin it was spawned for. */
  ghost predicate UnderItsPlugin(s: State, h: HandleId, place: Place) {
    h < |s.launchedFor| &&
    match place
    case InMap(p) => s.launchedFor[h] == p
    case WithRequest(r) => r in s.requests && s.launchedFor[h] == s.requests[r].p
    case _ => true
  }

  ghost predicate Located(s: State, h: HandleId) {
    exists a: Place :: At(s, h, a)
  }

  /** Each spawned runtime is in exactly one place, under its own plugin, and no other runtime is anywhere. */
  ghost predicate Linear(s: State) {
    && (forall h: HandleId, a: Place :: At(s, h, a) ==> UnderItsPlugin(s, h, a))
    && (forall h: HandleId, a: Place, b: Place :: At(s, h, a) && At(s, h, b) ==> a == b)
    && (forall h: HandleId :: h < |s.launchedFor| ==> Located(s, h))
  }

  /** A relation between the places before and after a step, which moves each runtime in one way. */
  ghost predicate Carried(s: State, t: State, moved: Place -> Place) {
    && (forall h: HandleId, a: Place :: At(s, h, a) ==> At(t, h, moved(a)))
    && (forall h: HandleId, b: Place :: At(t, h, b) ==> CameFrom(s, h, b, moved))
    && t.launchedFor == s.launchedFor
    && (forall h: HandleId, a: Place :: At(s, h, a) && UnderItsPlugin(s, h, a) ==> UnderItsPlugin(t, h, moved(a)))
  }

  ghost predicate CameFrom(s: State, h: HandleId, b: Place, moved: Place -> Place) {
    exists a: Place :: At(s, h, a) && moved(a) == b
  }

  lemma CarriedLinear(s: State, t: State, moved: Place -> Place)
    requires Linear(s) && Carried(s, t, moved)
    ensures Linear(t)
  {
    hide At, UnderItsPlugin;
    forall h: HandleId, x: Place | At(t, h, x) ensures UnderItsPlugin(t, h, x) {
      assert CameFrom(s, h, x, moved);
      var a: Place :| At(s, h, a) && moved(a) == x;
    }
    forall h: HandleId, x: Place, y: Place | At(t, h, x) && At(t, h, y) ensures x == y {
      assert CameFrom(s, h, x, moved) && CameFrom(s, h, y, moved);
      var a: Place :| At(s, h, a) && moved(a) == x;
      var b: Place :| At(s, h, b) && moved(b) == y;
    }
    forall h: HandleId | h < |t.launchedFor| ensures Located(t, h) {
      assert Located(s, h);
      var a: Place :| At(s, h, a);
      assert At(t, h, moved(a));
    }
  }

  function Stay(): Place -> Place {
    (a: Place) => a
  }

  /** What is at one place goes to another. */
  function From(x: Place, y: Place): Place -> Place {
    (a: Place) => if a == x then y else a
  }

  /** What is with the request goes into the map, and what was in the map is dropped. */
  function PutBack(r: RequestId, p: string): Place -> Place {
    (a: Place) => if a == WithRequest(r) then InMap(p) else if a == InMap(p) then Dropped else a
  }

  function Forgotten(): Place -> Place {
    (a: Place) => if a.InMap? || a.WithRequest? then Dropped else a
  }

  lemma SamePlaces(s: State, t: State)
    requires t.active == s.active && t.launchedFor == s.launchedFor && t.stopped == s.stopped && t.dropped == s.dropped
    requires forall r, h: HandleId :: At(t, h, WithRequest(r)) <==> At(s, h, WithRequest(r))
    requires forall r ::
      r in s.requests && s.requests[r].held.Some? ==> r in t.requests && t.requests[r].p == s.requests[r].p
    ensures Carried(s, t, Stay())
  {
    forall h: HandleId, b: Place | At(t, h, b) ensures CameFrom(s, h, b, Stay()) {
      assert At(s, h, b) && Stay()(b) == b;
    }
  }

  lemma TakeCarries(s: State, r: RequestId)
    requires r in s.requests && s.requests[r].held.None? && s.requests[r].p in s.active
    ensures Carried(s, Do(s, r, Take), From(InMap(s.requests[r].p), WithRequest(r)))
  {
    var p, t := s.requests[r].p, Do(s, r, Take);
    var moved := From(InMap(p), WithRequest(r));
    forall h: HandleId, b: Place | At(t, h, b) ensures CameFrom(s, h, b, moved) {
      var a := if b == WithRequest(r) then InMap(p) else b;
      assert At(s, h, a) && moved(a) == b;
    }
  }

  lemma PutCarries(s: State, r: RequestId)
    requires r in s.requests && s.requests[r].held.Some?
    ensures Carried(s, Do(s, r, Put), PutBack(r, s.requests[r].p))
  {
    var p, t := s.requests[r].p, Do(s, r, Put);
    var moved := PutBack(r, p);
    forall h: HandleId, b: Place | At(t, h, b) ensures CameFrom(s, h, b, moved) {
      var a := if b == InMap(p) then WithRequest(r) else if b == Dropped && h !in s.dropped then InMap(p) else b;
      assert At(s, h, a) && moved(a) == b;
    }
  }

  lemma EndCarries(s: State, r: RequestId)
    requires r in s.requests
    ensures Carried(s, Do(s, r, End), From(WithRequest(r), Stopped))
  {
    var t, moved := Do(s, r, End), From(WithRequest(r), Stopped);
    forall h: HandleId, b: Place | At(t, h, b) ensures CameFrom(s, h, b, moved) {
      var a := if b == Stopped && h !in s.stopped then WithRequest(r) else b;
      assert At(s, h, a) && moved(a) == b;
    }
  }

  lemma LoseCarries(s: State, r: RequestId, t: State)
    requires r in s.requests && (t == Do(s, r, Lose) || t == Goto(s, r, None))
    ensures Carried(s, t, From(WithRequest(r), Dropped))
  {
    var moved := From(WithRequest(r), Dropped);
    forall h: HandleId, b: Place | At(t, h, b) ensures CameFrom(s, h, b, moved) {
      var a := if b == Dropped && h !in s.dropped then WithRequest(r) else b;
      assert At(s, h, a) && moved(a) == b;
    }
  }

  lemma RestartCarries(s: State)
    ensures Carried(s, Restarted(s), Forgotten())
  {
    var t, moved := Restarted(s), Forgotten();
    forall h: HandleId, b: Place | At(t, h, b) ensures CameFrom(s, h, b, moved) {
      if h in s.dropped || b == Stopped {
        assert At(s, h, b) && moved(b) == b;
      } else if h in s.active.Values {
        var p :| p in s.active && s.active[p] == h;
        assert At(s, h, InMap(p)) && moved(InMap(p)) == b;
      } else {
        var r :| r in s.requests && s.requests[r].held == Some(h);
        assert At(s, h, WithRequest(r)) && moved(WithRequest(r)) == b;
      }
    }
  }

  /** Spawning adds one runtime, with its request; the others stay where they are. */
  lemma LaunchLinear(s: State, r: RequestId)
    requires Linear(s) && r in s.requests && s.requests[r].held.None?
    ensures Linear(Do(s, r, Launch))
  {
    var t, n := Do(s, r, Launch), |s.launchedFor|;
    forall h: HandleId, a: Place ensures At(t, h, a) <==> At(s, h, a) || (h == n && a == WithRequest(r)) {
      assert At(s, h, a) ==> UnderItsPlugin(s, h, a);
    }
    forall h: HandleId, a: Place | At(t, h, a) ensures UnderItsPlugin(t, h, a) {
      assert At(s, h, a) ==> UnderItsPlugin(s, h, a);
    }
    forall h: HandleId, a: Place, b: Place | At(t, h, a) && At(t, h, b) ensures a == b {
      assert At(s, n, a) ==> UnderItsPlugin(s, n, a);
      assert At(s, n, b) ==> UnderItsPlugin(s, n, b);
    }
    forall h: HandleId | h < |t.launchedFor| ensures Located(t, h) {
      if h == n {
        assert At(t, h, WithRequest(r));
      } else {
        assert Located(s, h);
        var a: Place :| At(s, h, a);
        assert At(t, h, a);
      }
    }
  }

  // ---- The invariants of every step ----

  /** A request holds a runtime exactly at the points where its program does. */
  ghost predicate Armed(s: State) {
    forall r :: r in s.requests ==> (s.requests[r].held.Some? <==> Holding(s.requests[r].point))
  }

  ghost predicate Invariant(s: State) {
    Linear(s) && Armed(s)
  }

  lemma DoLinear(s: State, r: RequestId, deed: Deed)
    requires Linear(s) && r in s.requests && (deed in {Launch, Take} ==> s.requests[r].held.None?)
    ensures Linear(Do(s, r, deed))
  {
    hide Linear, Do, Carried;
    match deed
    case Nothing => DoNothing(s, r);
    case Launch => LaunchLinear(s, r);
    case Take => TakeLinear(s, r);
    case Put => PutLinear(s, r);
    case End =>
      EndCarries(s, r);
      CarriedLinear(s, Do(s, r, End), From(WithRequest(r), Stopped));
    case Lose =>
      LoseCarries(s, r, Do(s, r, Lose));
      CarriedLinear(s, Do(s, r, Lose), From(WithRequest(r), Dropped));
  }

  lemma DoNothing(s: State, r: RequestId)
    requires r in s.requests
    ensures Do(s, r, Nothing) == s
    ensures s.requests[r].p !in s.active ==> Do(s, r, Take) == s
    ensures s.requests[r].held.None? ==> Do(s, r, Put) == s
  {
  }

  lemma TakeLinear(s: State, r: RequestId)
    requires Linear(s) && r in s.requests && s.requests[r].held.None?
    ensures Linear(Do(s, r, Take))
  {
    hide Linear, Do, Carried;
    DoNothing(s, r);
    if s.requests[r].p in s.active {
      TakeCarries(s, r);
      CarriedLinear(s, Do(s, r, Take), From(InMap(s.requests[r].p), WithRequest(r)));
    }
  }

  lemma PutLinear(s: State, r: RequestId)
    requires Linear(s) && r in s.requests
    ensures Linear(Do(s, r, Put))
  {
    hide Linear, Do, Carried;
    DoNothing(s, r);
    if s.requests[r].held.Some? {
      PutCarries(s, r);
      CarriedLinear(s, Do(s, r, Put), PutBack(r, s.requests[r].p));
    }
  }

  lemma GotoLinear(s: State, r: RequestId, next: Option<Point>)
    requires Linear(s) && r in s.requests
    ensures Linear(Goto(s, r, next))
  {
    hide Linear, Carried;
    match next
    case Some(_) =>
      SamePlaces(s, Goto(s, r, next));
      CarriedLinear(s, Goto(s, r, next), Stay());
    case None =>
      LoseCarries(s, r, Goto(s, r, None));
      CarriedLinear(s, Goto(s, r, None), From(WithRequest(r), Dropped));
  }

  lemma RowsLinear(s: State, rows: map<string, Cell>)
    requires Linear(s)
    ensures Linear(s.(rows := rows))
  {
    hide Linear, Carried;
    SamePlaces(s, s.(rows := rows));
    CarriedLinear(s, s.(rows := rows), Stay());
  }

  /** The runtime that the request holds after a deed, as its program wants it. */
  lemma PlanArmed(s: State, q: Request, succeeds: bool)
    requires q.held.Some? <==> Holding(q.point)
    ensures var m := Plan(s, q, succeeds);
      && (m.deed in {Launch, Take} ==> q.held.None?)
      && (m.deed == Take ==> q.p in s.active)
      && (m.next.Some? ==>
            (Holding(m.next.value) <==> m.deed in {Launch, Take} || (m.deed == Nothing && q.held.Some?)))
  {
  }

  lemma DoArmed(s: State, r: RequestId, deed: Deed)
    requires r in s.requests && (deed == Take ==> s.requests[r].p in s.active)
    ensures var t := Do(s, r, deed);
      && t.rows == s.rows && t.requests.Keys == s.requests.Keys
      && (forall o :: o in s.requests && o != r ==> t.requests[o] == s.requests[o])
      && t.requests[r].p == s.requests[r].p
      && (t.requests[r].held.Some? <==> deed in {Launch, Take} || (deed == Nothing && s.requests[r].held.Some?))
  {
  }

  lemma AdvanceInvariant(s: State, r: RequestId, succeeds: bool)
    requires Invariant(s) && r in s.requests
    ensures Invariant(AdvanceRequest(s, r, succeeds))
  {
    hide Linear, Do, Plan;
    var q, m := s.requests[r], Plan(s, s.requests[r], succeeds);
    PlanArmed(s, q, succeeds);
    DoArmed(s, r, m.deed);
    DoLinear(s, r, m.deed);
    var t := Do(s, r, m.deed);
    var u := WriteCell(t, q.p, m.write);
    RowsLinear(t, u.rows);
    assert u == t.(rows := u.rows);
    GotoLinear(u, r, m.next);
  }

  /** Every action keeps ownership linear. */
  lemma StepLinear(s: State, a: Action)
    requires Invariant(s)
    ensures Invariant(Next(s, a))
  {
    hide Linear, AdvanceRequest, Carried;
    match a
    case Arrive(r, p, point) =>
      SamePlaces(s, Next(s, a));
      CarriedLinear(s, Next(s, a), Stay());
    case Advance(r, succeeds) =>
      if r in s.requests {
        AdvanceInvariant(s, r, succeeds);
      }
    case Cancel(r) =>
      if r in s.requests {
        GotoLinear(s, r, None);
      }
    case WriteRow(p, row) => RowsLinear(s, Next(s, a).rows);
    case Restart =>
      RestartCarries(s);
      CarriedLinear(s, Restarted(s), Forgotten());
  }

  lemma InitialLinear()
    ensures Invariant(INITIAL)
  {
    assert forall h: HandleId, a: Place :: !At(INITIAL, h, a);
  }

  /** In every interleaving of any number of requests, ownership of spawned runtimes is linear. */
  lemma {:induction false} RunLinear(actions: seq<Action>)
    ensures Invariant(Run(actions))
  {
    hide Next, Invariant;
    if actions != [] {
      RunLinear(actions[..|actions| - 1]);
      StepLinear(Run(actions[..|actions| - 1]), actions[|actions| - 1]);
    } else {
      InitialLinear();
    }
  }

  /** No two requests ever stop the same runtime at once. */
  lemma NoDoubleStop(actions: seq<Action>, q: RequestId, r: RequestId)
    requires var s := Run(actions);
      q in s.requests && r in s.requests && q != r && s.requests[q].Stopping() && s.requests[r].Stopping()
    ensures Run(actions).requests[q].held != Run(actions).requests[r].held
  {
    hide Run;
    RunLinear(actions);
    var s := Run(actions);
    assert At(s, s.requests[q].held.value, WithRequest(q)) && At(s, s.requests[r].held.value, WithRequest(r));
  }

  // ---- Stopped runtimes ----

  /** The step completes a successful stop of `h`. */
  predicate StopsHandle(s: State, a: Action, h: HandleId) {
    a.Advance? && a.r in s.requests && s.requests[a.r].Stopping() && s.requests[a.r].held == Some(h) && a.succeeds
  }

  lemma PlanEnds(s: State, q: Request, succeeds: bool)
    requires q.held.Some? <==> Holding(q.point)
    ensures Plan(s, q, succeeds).deed == End <==> q.Stopping() && succeeds
  {
  }

  lemma DoStops(s: State, r: RequestId, deed: Deed)
    requires r in s.requests
    ensures Do(s, r, deed).stopped == s.stopped + if deed == End then s.requests[r].Runtimes() else {}
  {
  }

  /** A step adds to the stopped runtimes exactly the one whose stop it completes. */
  lemma StepStops(s: State, a: Action, h: HandleId)
    requires Armed(s)
    ensures h in Next(s, a).stopped <==> h in s.stopped || StopsHandle(s, a, h)
  {
    hide Plan, Do;
    if a.Advance? && a.r in s.requests {
      PlanEnds(s, s.requests[a.r], a.succeeds);
      DoStops(s, a.r, Plan(s, s.requests[a.r], a.succeeds).deed);
      DoneInRequests(s, a.r, Plan(s, s.requests[a.r], a.succeeds).deed);
    }
  }

  lemma DoneInRequests(s: State, r: RequestId, deed: Deed)
    requires r in s.requests
    ensures r in Do(s, r, deed).requests
  {
  }

  /** A runtime whose stop succeeded is from then on nowhere else: not in the map, not with a request. */
  lemma {:induction false} StoppedForever(actions: seq<Action>, more: seq<Action>, h: HandleId, place: Place)
    requires h in Run(actions).stopped
    ensures h in Run(actions + more).stopped
    ensures At(Run(actions + more), h, place) ==> place == Stopped
  {
    hide Next, Linear, Armed;
    if more == [] {
      assert actions + more == actions;
    } else {
      var n := |more| - 1;
      StoppedForever(actions, more[..n], h, place);
      ConcatInit(actions, more);
      RunLinear(actions + more[..n]);
      StepStops(Run(actions + more[..n]), more[n], h);
    }
    RunLinear(actions + more);
    OnlyStopped(Run(actions + more), h, place);
  }

  lemma OnlyStopped(s: State, h: HandleId, place: Place)
    requires Linear(s) && h in s.stopped
    ensures At(s, h, place) ==> place == Stopped
  {
    assert At(s, h, Stopped);
  }

  function StopCount(actions: seq<Action>, h: HandleId): nat {
    if actions == [] then 0
    else
      var n := |actions| - 1;
      StopCount(actions[..n], h) + if StopsHandle(Run(actions[..n]), actions[n], h) then 1 else 0
  }

  lemma StopsOnlyHeld(s: State, a: Action, h: HandleId)
    requires Linear(s) && StopsHandle(s, a, h)
    ensures h !in s.stopped
  {
    assert At(s, h, WithRequest(a.r));
    assert !At(s, h, Stopped);
  }

  /** Over a whole run each runtime is stopped at most once, and the stopped ones are those stopped once. */
  lemma {:induction false} StoppedOnce(actions: seq<Action>, h: HandleId)
    ensures StopCount(actions, h) == if h in Run(actions).stopped then 1 else 0
  {
    hide Next, Linear, Armed, StopsHandle;
    if actions != [] {
      var n := |actions| - 1;
      var s := Run(actions[..n]);
      StoppedOnce(actions[..n], h);
      RunLinear(actions[..n]);
      StepStops(s, actions[n], h);
      if StopsHandle(s, actions[n], h) {
        StopsOnlyHeld(s, actions[n], h);
      }
    }
  }

  // ---- When a runtime is lost ----

  /** The guards of the branches that forget a live runtime, as a condition on the state before the step. */
  predicate Forgets(s: State, a: Action) {
    match a
    case Cancel(r) => r in s.requests && Holding(s.requests[r].point)
    case Advance(r, succeeds) =>
      r in s.requests &&
      (match s.requests[r].point
       case StartProbing(_) => succeeds && s.requests[r].p in s.active
       case StartKilling(_) => !succeeds
       case StopStopping => !succeeds && s.requests[r].p in s.active
       case UninstallStopping => !succeeds
       case _ => false)
    case Restart => s.active != map[] || exists r :: r in s.requests && Holding(s.requests[r].point)
    case _ => false
  }

  ghost predicate ForgetsNothing(actions: seq<Action>) {
    forall i :: 0 <= i < |actions| ==> !Forgets(Run(actions[..i]), actions[i])
  }

  /** What a request loses with its next step. */
  function Losses(s: State, q: Request, m: Move): set<HandleId> {
    match m.deed
    case Put => Overwritten(s, q.p)
    case Lose => q.Runtimes()
    case _ => {}
  }

  lemma AdvanceLoses(s: State, r: RequestId, succeeds: bool)
    requires Armed(s) && r in s.requests
    ensures AdvanceRequest(s, r, succeeds).dropped
        == s.dropped + Losses(s, s.requests[r], Plan(s, s.requests[r], succeeds))
  {
    hide Plan;
    var q, m := s.requests[r], Plan(s, s.requests[r], succeeds);
    PlanArmed(s, q, succeeds);
    PlanKeeps(s, q, succeeds);
    DoArmed(s, r, m.deed);
  }

  /** A program never ends while it still holds a runtime, and puts or loses only one that it holds. */
  lemma PlanKeeps(s: State, q: Request, succeeds: bool)
    requires q.held.Some? <==> Holding(q.point)
    ensures var m := Plan(s, q, succeeds);
      && (m.deed in {Put, End, Lose} ==> q.held.Some?)
      && (m.next.None? && m.deed == Nothing ==> q.held.None?)
      && (m.next.None? ==> m.deed !in {Launch, Take})
  {
  }

  lemma PlanForgets(s: State, r: RequestId, succeeds: bool)
    requires Armed(s) && r in s.requests
    ensures Forgets(s, Advance(r, succeeds)) <==> Losses(s, s.requests[r], Plan(s, s.requests[r], succeeds)) != {}
  {
    var q := s.requests[r];
    match q.point
    case StartProbing(_) =>
    case StartKilling(_) =>
    case StopStopping =>
    case UninstallStopping =>
    case _ =>
  }

  /** What is in the map or with a request was not dropped before. */
  lemma LossesAreNew(s: State, r: RequestId, m: Move, h: HandleId)
    requires Linear(s) && r in s.requests && h in Losses(s, s.requests[r], m)
    ensures h !in s.dropped
  {
    var place := if m.deed == Put then InMap(s.requests[r].p) else WithRequest(r);
    assert At(s, h, place);
    assert At(s, h, Dropped) ==> Dropped == place;
  }

  lemma AdvanceForgets(s: State, r: RequestId, succeeds: bool)
    requires Invariant(s) && r in s.requests
    ensures s.dropped <= Next(s, Advance(r, succeeds)).dropped
    ensures Next(s, Advance(r, succeeds)).dropped == s.dropped <==> !Forgets(s, Advance(r, succeeds))
  {
    hide Linear, Plan, Forgets;
    AdvanceLoses(s, r, succeeds);
    PlanForgets(s, r, succeeds);
    var m := Plan(s, s.requests[r], succeeds);
    if h: HandleId :| h in Losses(s, s.requests[r], m) {
      LossesAreNew(s, r, m, h);
    }
  }

  lemma CancelForgets(s: State, r: RequestId)
    requires Invariant(s) && r in s.requests
    ensures Next(s, Cancel(r)).dropped == s.dropped <==> !Forgets(s, Cancel(r))
  {
    if s.requests[r].held.Some? {
      LossesAreNew(s, r, Move(Lose, Leave, None), s.requests[r].held.value);
    }
  }

  lemma RestartForgets(s: State)
    requires Invariant(s)
    ensures Restarted(s).dropped == s.dropped <==> !Forgets(s, Restart)
  {
    if p :| p in s.active {
      assert At(s, s.active[p], InMap(p));
      assert At(s, s.active[p], Dropped) ==> Dropped == InMap(p);
      assert s.active[p] in s.active.Values;
    } else if r :| r in s.requests && Holding(s.requests[r].point) {
      LossesAreNew(s, r, Move(Lose, Leave, None), s.requests[r].held.value);
      assert s.requests[r].held.value in AllHeld(s);
    } else {
      assert s.active == map[] && AllHeld(s) == {};
    }
  }

  lemma StepForgets(s: State, a: Action)
    requires Invariant(s)
    ensures s.dropped <= Next(s, a).dropped
    ensures Next(s, a).dropped == s.dropped <==> !Forgets(s, a)
  {
    hide Invariant, AdvanceRequest;
    match a
    case Advance(r, succeeds) =>
      if r in s.requests {
        AdvanceForgets(s, r, succeeds);
      }
    case Cancel(r) =>
      if r in s.requests {
        CancelForgets(s, r);
      }
    case Restart => RestartForgets(s);
    case _ =>
  }

  lemma ForgetsSplits(actions: seq<Action>)
    requires actions != []
    ensures var n := |actions| - 1;
      ForgetsNothing(actions) <==> ForgetsNothing(actions[..n]) && !Forgets(Run(actions[..n]), actions[n])
  {
    hide Run, Forgets;
    var n := |actions| - 1;
    assert forall i :: 0 <= i < n ==> actions[..n][..i] == actions[..i] && actions[..n][i] == actions[i];
  }

  /** A run loses no spawned runtime exactly when no step of it takes one of the forgetting branches. */
  lemma {:induction false} NothingForgotten(actions: seq<Action>)
    ensures Run(actions).dropped == {} <==> ForgetsNothing(actions)
  {
    hide Next, Invariant, Forgets, ForgetsNothing;
    if actions != [] {
      var n := |actions| - 1;
      NothingForgotten(actions[..n]);
      RunLinear(actions[..n]);
      StepForgets(Run(actions[..n]), actions[n]);
      ForgetsSplits(actions);
    } else {
      NothingYet();
    }
  }

  lemma NothingYet()
    ensures ForgetsNothing([])
  {
  }

  ghost predicate NotLost(s: State, h: HandleId) {
    exists a: Place :: a != Dropped && At(s, h, a)
  }

  /** Then every spawned runtime is in the map, with a request, or stopped. */
  lemma NothingLost(actions: seq<Action>, h: HandleId)
    requires ForgetsNothing(actions) && h < |Run(actions).launchedFor|
    ensures NotLost(Run(actions), h)
  {
    hide Run, ForgetsNothing;
    NothingForgotten(actions);
    RunLinear(actions);
    assert Located(Run(actions), h);
    var a: Place :| At(Run(actions), h, a);
  }

  // ---- Runs that forget ----

  /** An installed plugin whose start has spawned its runtime and waits for it to answer. */
  function Spawned(p: string): State {
    var cell := Cell(INSTALLED, false);
    State(map[p := Cell(RUNNING, true)], map[], map[0 := Request(p, StartProbing(cell), Some(0))], [p], {}, {})
  }

  function SpawningActions(p: string): seq<Action> {
    [WriteRow(p, Some(Cell(INSTALLED, false)))] + [Arrive(0, p, StartReading)] + [Advance(0, true)] + [Advance(0, true)]
    + [Advance(0, true)]
  }

  lemma SpawningRuns(p: string)
    ensures Run(SpawningActions(p)) == Spawned(p)
  {
    var cell := Cell(INSTALLED, false);
    var a1 := [WriteRow(p, Some(cell))];
    var a2 := a1 + [Arrive(0, p, StartReading)];
    var a3 := a2 + [Advance(0, true)];
    RunSnoc(INITIAL, [], WriteRow(p, Some(cell)));
    assert [] + a1 == a1;
    RunSnoc(INITIAL, a1, Arrive(0, p, StartReading));
    RunSnoc(INITIAL, a2, Advance(0, true));
    RunSnoc(INITIAL, a3, Advance(0, true));
    RunSnoc(INITIAL, a3 + [Advance(0, true)], Advance(0, true));
    hide RunFrom;
    SpawningSteps(p);
  }

  lemma SpawningSteps(p: string)
    ensures var cell := Cell(INSTALLED, false);
      Next(Next(Next(Next(Next(INITIAL, WriteRow(p, Some(cell))), Arrive(0, p, StartReading)),
                     Advance(0, true)), Advance(0, true)), Advance(0, true)) == Spawned(p)
  {
    var cell := Cell(INSTALLED, false);
    var s1 := State(map[p := cell], map[], map[], [], {}, {});
    var s2 := s1.(requests := map[0 := Request(p, StartReading, None)]);
    var s3 := s1.(requests := map[0 := Request(p, StartMarking(cell), None)]);
    var s4 := s3.(rows := map[p := Cell(RUNNING, true)], requests := map[0 := Request(p, StartSpawning(cell), None)]);
    assert Next(INITIAL, WriteRow(p, Some(cell))) == s1;
    assert Next(s1, Arrive(0, p, StartReading)) == s2;
    assert Next(s2, Advance(0, true)) == s3;
    assert Next(s3, Advance(0, true)) == s4;
  }

  /** A start that is dropped while its runtime is being probed leaves a runtime that nothing refers to. */
  lemma DroppedStartForgets(p: string)
    ensures Run(SpawningActions(p) + [Cancel(0)]) == State(map[p := Cell(RUNNING, true)], map[], map[], [p], {}, {0})
  {
    SpawningRuns(p);
    RunSnoc(INITIAL, SpawningActions(p), Cancel(0));
  }

  function BothAdvance(s: State): State {
    Next(Next(s, Advance(0, true)), Advance(1, true))
  }

  /** Two starts of one installed plugin, at the same point. */
  function Both(p: string, rows: map<string, Cell>, point: Point): State {
    State(rows, map[], map[0 := Request(p, point, None), 1 := Request(p, point, None)], [], {}, {})
  }

  lemma BothArrive(p: string)
    ensures var cell := Cell(INSTALLED, false);
      Next(Next(Next(INITIAL, WriteRow(p, Some(cell))), Arrive(0, p, StartReading)), Arrive(1, p, StartReading))
      == Both(p, map[p := cell], StartReading)
  {
  }

  lemma BothRead(p: string)
    ensures var cell := Cell(INSTALLED, false);
      BothAdvance(Both(p, map[p := cell], StartReading)) == Both(p, map[p := cell], StartMarking(cell))
  {
  }

  lemma BothMark(p: string)
    ensures var cell := Cell(INSTALLED, false);
      BothAdvance(Both(p, map[p := cell], StartMarking(cell)))
          == Both(p, map[p := Cell(RUNNING, true)], StartSpawning(cell))
  {
  }

  function BothSpawned(p: string): State {
    var q := Request(p, StartProbing(Cell(INSTALLED, false)), None);
    State(map[p := Cell(RUNNING, true)], map[], map[0 := q.(held := Some(0)), 1 := q.(held := Some(1))], [p, p], {}, {})
  }

  lemma BothSpawn(p: string)
    ensures BothAdvance(Both(p, map[p := Cell(RUNNING, true)], StartSpawning(Cell(INSTALLED, false)))) == BothSpawned(p)
  {
  }

  lemma BothPut(p: string)
    ensures BothAdvance(BothSpawned(p)) == State(map[p := Cell(RUNNING, true)], map[p := 1], map[], [p, p], {}, {0})
  {
  }

  lemma RunBoth(actions: seq<Action>) returns (more: seq<Action>)
    ensures Run(more) == BothAdvance(Run(actions))
  {
    hide Next;
    RunSnoc(INITIAL, actions, Advance(0, true));
    RunSnoc(INITIAL, actions + [Advance(0, true)], Advance(1, true));
    more := actions + [Advance(0, true)] + [Advance(1, true)];
  }

  lemma RunTwoStarts(p: string) returns (arrive: seq<Action>)
    ensures Run(arrive) == Both(p, map[p := Cell(INSTALLED, false)], StartReading)
  {
    hide Next;
    var a, b, c := WriteRow(p, Some(Cell(INSTALLED, false))), Arrive(0, p, StartReading), Arrive(1, p, StartReading);
    RunSnoc(INITIAL, [], a);
    RunSnoc(INITIAL, [] + [a], b);
    RunSnoc(INITIAL, [] + [a] + [b], c);
    BothArrive(p);
    arrive := [] + [a] + [b] + [c];
  }

  /** Two overlapping starts of an installed plugin both launch, and the first runtime is forgotten. */
  lemma OverlappingStartsForget(p: string)
    ensures exists actions ::
      && Run(actions).launchedFor == [p, p] && Run(actions).active == map[p := 1] && Run(actions).dropped == {0}
  {
    hide Run, BothAdvance;
    var arrive := RunTwoStarts(p);
    var a1 := RunBoth(arrive);
    var a2 := RunBoth(a1);
    var a3 := RunBoth(a2);
    var a4 := RunBoth(a3);
    BothRead(p);
    BothMark(p);
    BothSpawn(p);
    BothPut(p);
    assert Run(a4) == State(map[p := Cell(RUNNING, true)], map[p := 1], map[], [p, p], {}, {0});
  }
}
