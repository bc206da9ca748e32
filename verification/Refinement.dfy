/**
 The serial requests are runs of the interleaved machine: a request that is not interrupted does there what the
 serial request does, so every serial run has an interleaved run that ends in the same rows and handles.
 */
module Refinement {
  import opened Wrappers
  import opened Database
  import L = Lifecycle
  import O = Ownership

  /** The layers agree on row status and on the handles; `tokens` names the serial token of each spawned runtime. */
  ghost predicate Matches(h: L.Host, s: O.State, tokens: seq<nat>) {
    && s.rows.Keys == h.db.registry.Keys
    && (forall p :: p in s.rows ==> s.rows[p] == CellOf(h.db.registry[p]))
    && s.active.Keys == h.active.Keys
    && |tokens| == |s.launchedFor|
    && (forall p :: p in s.active ==> s.active[p] < |tokens| && tokens[s.active[p]] == h.active[p].token)
  }

  function CellOf(row: RegistryRow): O.Cell {
    O.Cell(row.status, row.enabled)
  }

  /** The actions are those of one request. */
  ghost predicate OfRequest(actions: seq<O.Action>, r: O.RequestId) {
    forall a :: a in actions ==> (a.Arrive? || a.Advance?) && a.r == r
  }

  // ---- One request in a state that does not know it ----

  function With(s: O.State, r: O.RequestId, q: O.Request): O.State {
    s.(requests := s.requests[r := q])
  }

  /** The state without the request after a move. */
  function Moved(s: O.State, q: O.Request, m: O.Move): O.State {
    var t :=
      match m.deed
      case Nothing => s
      case Launch => s.(launchedFor := s.launchedFor + [q.p])
      case Take => s.(active := s.active - {q.p})
      case Put => if q.held.None? then s
                  else s.(active := s.active[q.p := q.held.value], dropped := s.dropped + O.Overwritten(s, q.p))
      case End => s.(stopped := s.stopped + q.Runtimes())
      case Lose => s.(dropped := s.dropped + q.Runtimes());
    O.WriteCell(t, q.p, m.write)
  }

  /** The runtime the request holds after a move. */
  function HeldAfter(s: O.State, q: O.Request, deed: O.Deed): Option<O.HandleId> {
    match deed
    case Nothing => q.held
    case Launch => Some(|s.launchedFor|)
    case Take => if q.p in s.active then Some(s.active[q.p]) else q.held
    case _ => None
  }

  function After(s: O.State, r: O.RequestId, q: O.Request, m: O.Move): O.State {
    if m.next.None? then Moved(s, q, m)
    else With(Moved(s, q, m), r, O.Request(q.p, m.next.value, HeldAfter(s, q, m.deed)))
  }

  lemma DoWith(s: O.State, r: O.RequestId, q: O.Request, deed: O.Deed)
    requires r !in s.requests && (deed in {O.Launch, O.Take} ==> q.held.None?) && (deed == O.Take ==> q.p in s.active)
    ensures O.Do(With(s, r, q), r, deed)
         == With(Moved(s, q, O.Move(deed, O.Leave, None)), r, q.(held := HeldAfter(s, q, deed)))
  {
    var w := With(s, r, q);
    var after := q.(held := HeldAfter(s, q, deed));
    assert w.requests[r := after] == s.requests[r := after];
    assert q.(held := q.held) == q;
  }

  lemma GotoWith(s: O.State, r: O.RequestId, q: O.Request, next: Option<O.Point>)
    requires r !in s.requests && (next.None? ==> q.held.None?)
    ensures O.Goto(With(s, r, q), r, next)
        == match next case None => s case Some(point) => With(s, r, q.(point := point))
  {
    var w := With(s, r, q);
    if next.Some? {
      var after := q.(point := next.value);
      assert w.requests[r := after] == s.requests[r := after];
    }
    assert w.requests - {r} == s.requests;
    assert s.dropped + {} == s.dropped;
  }

  lemma PlanWith(s: O.State, r: O.RequestId, q: O.Request, ok: bool)
    ensures O.Plan(With(s, r, q), q, ok) == O.Plan(s, q, ok)
  {
  }

  /** One advance of a request in a state that does not know it. */
  lemma AdvanceWith(s: O.State, r: O.RequestId, q: O.Request, ok: bool)
    requires r !in s.requests && (q.held.Some? <==> O.Holding(q.point))
    ensures O.Next(With(s, r, q), O.Advance(r, ok)) == After(s, r, q, O.Plan(s, q, ok))
    ensures Moved(s, q, O.Plan(s, q, ok)).requests == s.requests
  {
    hide O.Plan, O.Do, O.Goto;
    var m := O.Plan(s, q, ok);
    PlanWith(s, r, q, ok);
    O.PlanArmed(s, q, ok);
    O.PlanKeeps(s, q, ok);
    DoWith(s, r, q, m.deed);
    var t := Moved(s, q, O.Move(m.deed, O.Leave, None));
    var after := q.(held := HeldAfter(s, q, m.deed));
    WriteWith(t, r, after, m.write);
    GotoWith(O.WriteCell(t, q.p, m.write), r, after, m.next);
  }

  lemma WriteWith(s: O.State, r: O.RequestId, q: O.Request, w: O.RowWrite)
    ensures O.WriteCell(With(s, r, q), q.p, w) == With(O.WriteCell(s, q.p, w), r, q)
    ensures O.WriteCell(s, q.p, w).requests == s.requests
  {
  }

  /** A request on its way: it arrived in `s`, and what it did so far led to `m`, where it stands as `q`. */
  ghost predicate OnItsWay(s: O.State, r: O.RequestId, actions: seq<O.Action>, m: O.State, q: O.Request) {
    && OfRequest(actions, r) && r !in s.requests && m.requests == s.requests
    && O.RunFrom(s, actions) == With(m, r, q) && (q.held.Some? <==> O.Holding(q.point))
  }

  ghost predicate Done(s: O.State, r: O.RequestId, actions: seq<O.Action>, m: O.State) {
    OfRequest(actions, r) && m.requests == s.requests && O.RunFrom(s, actions) == m
  }

  lemma Arrives(s: O.State, r: O.RequestId, p: string, point: O.Point) returns (actions: seq<O.Action>)
    requires r !in s.requests && (point.StartReading? || point.StopReading? || point.UninstallTaking?)
    ensures OnItsWay(s, r, actions, s, O.Request(p, point, None))
  {
    actions := [O.Arrive(r, p, point)];
    O.RunSnoc(s, [], O.Arrive(r, p, point));
    assert [] + actions == actions;
  }

  lemma GoesOn(s: O.State, r: O.RequestId, actions: seq<O.Action>, m: O.State, q: O.Request, ok: bool)
    returns (more: seq<O.Action>)
    requires OnItsWay(s, r, actions, m, q)
    ensures var move := O.Plan(m, q, ok); var t := Moved(m, q, move);
      if move.next.None? then Done(s, r, more, t)
      else OnItsWay(s, r, more, t, O.Request(q.p, move.next.value, HeldAfter(m, q, move.deed)))
  {
    hide O.Plan, Moved, O.Next;
    more := actions + [O.Advance(r, ok)];
    O.RunSnoc(s, actions, O.Advance(r, ok));
    AdvanceWith(m, r, q, ok);
    O.PlanArmed(m, q, ok);
  }

  // ---- Start ----

  /** How a launch fails: nothing was spawned, or what was spawned did not answer and was ended or lost. */
  datatype Failure = NotSpawned | NotHealthy(ended: bool)

  function Marked(s: O.State, p: string, written: bool): O.State {
    O.WriteCell(s, p, if written then O.Write(O.Cell(RUNNING, true)) else O.Leave)
  }

  lemma StartMarks(s: O.State, r: O.RequestId, p: string, written: bool) returns (actions: seq<O.Action>)
    requires r !in s.requests && p in s.rows && s.rows[p].status != PENDING && s.rows[p].status != RUNNING
    ensures OnItsWay(s, r, actions, Marked(s, p, written), O.Request(p, O.StartSpawning(s.rows[p]), None))
  {
    hide OnItsWay;
    var prior := s.rows[p];
    var arrived := Arrives(s, r, p, O.StartReading);
    var read := GoesOn(s, r, arrived, s, O.Request(p, O.StartReading, None), true);
    actions := GoesOn(s, r, read, s, O.Request(p, O.StartMarking(prior), None), written);
  }

  lemma StartLaunches(s: O.State, r: O.RequestId, p: string, written: bool) returns (actions: seq<O.Action>)
    requires r !in s.requests && p in s.rows && s.rows[p].status != PENDING && s.rows[p].status != RUNNING
    ensures var m, n := Marked(s, p, written), |s.launchedFor|;
      Done(s, r, actions, m.(launchedFor := m.launchedFor + [p], active := m.active[p := n],
                             dropped := m.dropped + O.Overwritten(m, p)))
  {
    hide OnItsWay, Done;
    var m, prior := Marked(s, p, written), s.rows[p];
    var marked := StartMarks(s, r, p, written);
    var spawned := GoesOn(s, r, marked, m, O.Request(p, O.StartSpawning(prior), None), true);
    var launched := m.(launchedFor := m.launchedFor + [p]);
    actions := GoesOn(s, r, spawned, launched, O.Request(p, O.StartProbing(prior), Some(|s.launchedFor|)), true);
  }

  lemma StartFails(s: O.State, r: O.RequestId, p: string, written: bool, how: Failure, rolled: bool)
    returns (actions: seq<O.Action>, t: O.State)
    requires r !in s.requests && p in s.rows && s.rows[p].status != PENDING && s.rows[p].status != RUNNING
    ensures Done(s, r, actions, t)
    ensures t.active == s.active && t.launchedFor == s.launchedFor + if how.NotHealthy? then [p] else []
    ensures t.rows == O.WriteCell(Marked(s, p, written), p, if rolled then O.Write(s.rows[p]) else O.Leave).rows
  {
    hide OnItsWay, Done;
    var m, prior := Marked(s, p, written), s.rows[p];
    var marked := StartMarks(s, r, p, written);
    match how {
      case NotSpawned =>
        var failed := GoesOn(s, r, marked, m, O.Request(p, O.StartSpawning(prior), None), false);
        actions := GoesOn(s, r, failed, m, O.Request(p, O.StartRollingBack(prior), None), rolled);
        t := O.WriteCell(m, p, if rolled then O.Write(prior) else O.Leave);
      case NotHealthy(ended) =>
        var n := |s.launchedFor|;
        var launched := m.(launchedFor := m.launchedFor + [p]);
        var spawned := GoesOn(s, r, marked, m, O.Request(p, O.StartSpawning(prior), None), true);
        var silent := GoesOn(s, r, spawned, launched, O.Request(p, O.StartProbing(prior), Some(n)), false);
        var killed := GoesOn(s, r, silent, launched, O.Request(p, O.StartKilling(prior), Some(n)), ended);
        var u := if ended then launched.(stopped := launched.stopped + {n})
            else launched.(dropped := launched.dropped + {n});
        actions := GoesOn(s, r, killed, u, O.Request(p, O.StartRollingBack(prior), None), rolled);
        t := O.WriteCell(u, p, if rolled then O.Write(prior) else O.Leave);
    }
  }

  lemma EndsAtOnce(s: O.State, r: O.RequestId, p: string, point: O.Point) returns (actions: seq<O.Action>)
    requires r !in s.requests && (point == O.StartReading || point == O.StopReading)
    ensures Done(s, r, actions, s)
  {
    hide OnItsWay, Done;
    var arrived := Arrives(s, r, p, point);
    actions := GoesOn(s, r, arrived, s, O.Request(p, point, None), false);
  }

  lemma StartRows(h: L.Host, s: O.State, p: string, e: L.StartEnv, pick: nat, tokens: seq<nat>)
    requires Matches(h, s, tokens) && L.StartGuard(h, p, e, pick).Ok?
    ensures p in s.rows && s.rows[p].status != PENDING && s.rows[p].status != RUNNING
  {
  }

  lemma LaunchMatches(h: L.Host, s: O.State, t: O.State, p: string, e: L.StartEnv, pick: nat, tokens: seq<nat>)
    requires Matches(h, s, tokens) && L.StartGuard(h, p, e, pick).Ok? && e.launch.Some?
    requires |t.launchedFor| == |s.launchedFor| + 1 && t.rows == Marked(s, p, e.runningWritten).rows
    requires t.active == s.active[p := |s.launchedFor|]
    ensures Matches(L.Start(h, p, e, pick).host, t, tokens + [e.launch.value])
  {
    hide L.Start, L.StartGuard;
    StartRows(h, s, p, e, pick, tokens);
    L.StartRow(h, p, e, pick);
  }

  lemma FailureMatches(h: L.Host, s: O.State, t: O.State, p: string, e: L.StartEnv, pick: nat, tokens: seq<nat>,
                       more: seq<nat>)
    requires Matches(h, s, tokens) && L.StartGuard(h, p, e, pick).Ok? && e.launch.None?
    requires |more| == |t.launchedFor| - |s.launchedFor| && t.active == s.active
    requires var m := Marked(s, p, e.runningWritten);
      t.rows == O.WriteCell(m, p, if e.rolledBack then O.Write(s.rows[p]) else O.Leave).rows
    ensures Matches(L.Start(h, p, e, pick).host, t, tokens + more)
  {
    hide L.Start, L.StartGuard;
    StartRows(h, s, p, e, pick, tokens);
    L.StartRow(h, p, e, pick);
  }

  /** A start, run without interruption, does what the serial start does, in whatever way its launch fails. */
  lemma StartRefines(h: L.Host, s: O.State, r: O.RequestId, p: string, e: L.StartEnv, pick: nat, how: Failure,
                     tokens: seq<nat>)
    returns (actions: seq<O.Action>, more: seq<nat>)
    requires Matches(h, s, tokens) && r !in s.requests
    ensures OfRequest(actions, r) && O.RunFrom(s, actions).requests == s.requests
    ensures Matches(L.Start(h, p, e, pick).host, O.RunFrom(s, actions), tokens + more)
  {
    if L.StartGuard(h, p, e, pick).Err? {
      actions := EndsAtOnce(s, r, p, O.StartReading);
      more := [];
      assert tokens + [] == tokens;
    } else {
      StartRows(h, s, p, e, pick, tokens);
      if e.launch.Some? {
        actions := StartLaunches(s, r, p, e.runningWritten);
        more := [e.launch.value];
        LaunchMatches(h, s, O.RunFrom(s, actions), p, e, pick, tokens);
      } else {
        var t;
        actions, t := StartFails(s, r, p, e.runningWritten, how, e.rolledBack);
        more := if how.NotHealthy? then [0] else [];
        FailureMatches(h, s, t, p, e, pick, tokens, more);
      }
    }
  }

  // ---- Stop ----

  lemma StopTakes(s: O.State, r: O.RequestId, p: string) returns (actions: seq<O.Action>)
    requires r !in s.requests && p in s.rows && s.rows[p].status == RUNNING
    ensures if p in s.active
            then OnItsWay(s, r, actions, s.(active := s.active - {p}), O.Request(p, O.StopStopping, Some(s.active[p])))
            else Done(s, r, actions, s)
  {
    hide OnItsWay, Done;
    var arrived := Arrives(s, r, p, O.StopReading);
    var read := GoesOn(s, r, arrived, s, O.Request(p, O.StopReading, None), true);
    actions := GoesOn(s, r, read, s, O.Request(p, O.StopTaking, None), true);
  }

  lemma StopEnds(s: O.State, r: O.RequestId, p: string, stopped: bool, written: bool)
    returns (actions: seq<O.Action>, t: O.State)
    requires r !in s.requests && p in s.rows && s.rows[p].status == RUNNING && p in s.active
    ensures Done(s, r, actions, t) && t.launchedFor == s.launchedFor
    ensures t.active == if stopped then s.active - {p} else s.active
    ensures t.rows == O.WriteCell(s, p, if stopped && written then O.Write(O.Cell(INSTALLED, false)) else O.Leave).rows
  {
    hide OnItsWay, Done;
    var k, m := s.active[p], s.(active := s.active - {p});
    var taken := StopTakes(s, r, p);
    var ended := GoesOn(s, r, taken, m, O.Request(p, O.StopStopping, Some(k)), stopped);
    if stopped {
      var u := m.(stopped := m.stopped + {k});
      actions := GoesOn(s, r, ended, u, O.Request(p, O.StopMarking, None), written);
      t := O.WriteCell(u, p, if written then O.Write(O.Cell(INSTALLED, false)) else O.Leave);
    } else {
      actions := ended;
      t := m.(active := m.active[p := k], dropped := m.dropped + O.Overwritten(m, p));
      assert m.active[p := k] == s.active;
    }
  }

  lemma StopMatches(h: L.Host, s: O.State, t: O.State, p: string, e: L.StopEnv, tokens: seq<nat>)
    requires Matches(h, s, tokens) && e.rowRead && p in s.rows && s.rows[p].status == RUNNING && p in s.active
    requires t.launchedFor == s.launchedFor && t.active == if e.stopped then s.active - {p} else s.active
    requires t.rows
        == O.WriteCell(s, p, if e.stopped && e.rowWritten then O.Write(O.Cell(INSTALLED, false)) else O.Leave).rows
    ensures Matches(L.Stop(h, p, e).host, t, tokens)
  {
  }

  lemma StopRefines(h: L.Host, s: O.State, r: O.RequestId, p: string, e: L.StopEnv, tokens: seq<nat>)
    returns (actions: seq<O.Action>)
    requires Matches(h, s, tokens) && r !in s.requests
    ensures OfRequest(actions, r) && O.RunFrom(s, actions).requests == s.requests
    ensures Matches(L.Stop(h, p, e).host, O.RunFrom(s, actions), tokens)
  {
    if !e.rowRead || p !in s.rows || s.rows[p].status != RUNNING {
      actions := EndsAtOnce(s, r, p, O.StopReading);
    } else if p in s.active {
      var t;
      actions, t := StopEnds(s, r, p, e.stopped, e.rowWritten);
      StopMatches(h, s, t, p, e, tokens);
    } else {
      actions := StopTakes(s, r, p);
    }
  }

  // ---- Uninstall ----

  lemma UninstallEnds(s: O.State, r: O.RequestId, p: string, stopped: bool, deletes: bool)
    returns (actions: seq<O.Action>, t: O.State)
    requires r !in s.requests
    ensures Done(s, r, actions, t) && t.launchedFor == s.launchedFor && t.active == s.active - {p}
    ensures t.rows == if deletes && (p in s.active ==> stopped) then s.rows - {p} else s.rows
  {
    hide OnItsWay, Done;
    var arrived := Arrives(s, r, p, O.UninstallTaking);
    var taken := GoesOn(s, r, arrived, s, O.Request(p, O.UninstallTaking, None), true);
    if p in s.active {
      var k, m := s.active[p], s.(active := s.active - {p});
      var ended := GoesOn(s, r, taken, m, O.Request(p, O.UninstallStopping, Some(k)), stopped);
      if stopped {
        var u := m.(stopped := m.stopped + {k});
        actions := GoesOn(s, r, ended, u, O.Request(p, O.UninstallDeleting, None), deletes);
        t := O.WriteCell(u, p, if deletes then O.Delete else O.Leave);
      } else {
        actions, t := ended, m.(dropped := m.dropped + {k});
      }
    } else {
      assert s.active - {p} == s.active;
      actions := GoesOn(s, r, taken, s, O.Request(p, O.UninstallDeleting, None), deletes);
      t := O.WriteCell(s, p, if deletes then O.Delete else O.Leave);
    }
  }

  lemma UninstallMatches(h: L.Host, s: O.State, t: O.State, p: string, e: L.UninstallEnv, tokens: seq<nat>)
    requires Matches(h, s, tokens) && t.launchedFor == s.launchedFor && t.active == s.active - {p}
    requires var deletes := L.UninstallProceeds(h, p, e) && e.deletes.registry;
      t.rows == if deletes && (p in s.active ==> e.stopped) then s.rows - {p} else s.rows
    ensures Matches(L.Uninstall(h, p, e).host, t, tokens)
  {
  }

  lemma UninstallRefines(h: L.Host, s: O.State, r: O.RequestId, p: string, e: L.UninstallEnv, tokens: seq<nat>)
    returns (actions: seq<O.Action>)
    requires Matches(h, s, tokens) && r !in s.requests
    ensures OfRequest(actions, r) && O.RunFrom(s, actions).requests == s.requests
    ensures Matches(L.Uninstall(h, p, e).host, O.RunFrom(s, actions), tokens)
  {
    hide L.Uninstall, L.UninstallProceeds, Matches;
    var t;
    actions, t := UninstallEnds(s, r, p, e.stopped, L.UninstallProceeds(h, p, e) && e.deletes.registry);
    UninstallMatches(h, s, t, p, e, tokens);
  }

  // ---- Runs ----

  /** The registry changes at most at one plugin, which stays in it or comes into it, and the handles do not. */
  ghost predicate WritesOneRow(h: L.Host, next: L.Host, p: string) {
    && next.active == h.active
    && (next.db.registry == h.db.registry
        || (p in next.db.registry && next.db.registry == h.db.registry[p := next.db.registry[p]]))
  }

  lemma RowWriters(root: string, h: L.Host, ev: L.Event, p: string)
    requires match ev case RegisterEvent(q, _, _, _, _) => q == p case MaterializeEvent(q, _, _, _) => q == p
                      case GrantsEvent(q, _, _) => q == p case _ => false
    ensures WritesOneRow(h, L.Apply(root, h, ev).host, p)
  {
  }

  lemma RowWriteRefines(h: L.Host, next: L.Host, p: string, s: O.State, tokens: seq<nat>)
    returns (actions: seq<O.Action>)
    requires Matches(h, s, tokens) && WritesOneRow(h, next, p)
    ensures O.RunFrom(s, actions).requests == s.requests && Matches(next, O.RunFrom(s, actions), tokens)
  {
    if next.db.registry == h.db.registry {
      actions := [];
    } else {
      var write := O.WriteRow(p, Some(CellOf(next.db.registry[p])));
      O.RunSnoc(s, [], write);
      actions := [write];
      assert [] + actions == actions;
    }
  }

  lemma RestartRefines(h: L.Host, s: O.State, tokens: seq<nat>)
    requires Matches(h, s, tokens) && s.requests == map[]
    ensures O.RunFrom(s, [O.Restart]).requests == s.requests
    ensures Matches(h.(active := map[]), O.RunFrom(s, [O.Restart]), tokens)
  {
    O.RunSnoc(s, [], O.Restart);
    assert [] + [O.Restart] == [O.Restart];
  }

  /** One event of a serial run, as actions of the interleaved machine in which no request is under way. */
  lemma EventRefines(root: string, h: L.Host, ev: L.Event, s: O.State, how: Failure, tokens: seq<nat>)
    returns (actions: seq<O.Action>, more: seq<nat>)
    requires Matches(h, s, tokens) && s.requests == map[]
    ensures O.RunFrom(s, actions).requests == map[]
    ensures Matches(L.Apply(root, h, ev).host, O.RunFrom(s, actions), tokens + more)
  {
    hide Matches, L.Register, L.Materialize, L.Start, L.Stop, L.Uninstall, O.RunFrom;
    more := [];
    assert tokens + [] == tokens;
    match ev {
      case RegisterEvent(p, _, _, _, _) =>
        RowWriters(root, h, ev, p);
        actions := RowWriteRefines(h, L.Apply(root, h, ev).host, p, s, tokens);
      case MaterializeEvent(p, _, _, _) =>
        RowWriters(root, h, ev, p);
        actions := RowWriteRefines(h, L.Apply(root, h, ev).host, p, s, tokens);
      case GrantsEvent(p, _, _) =>
        RowWriters(root, h, ev, p);
        actions := RowWriteRefines(h, L.Apply(root, h, ev).host, p, s, tokens);
      case StartEvent(p, e, pick) => actions, more := StartRefines(h, s, 0, p, e, pick, how, tokens);
      case StopEvent(p, e) => actions := StopRefines(h, s, 0, p, e, tokens);
      case UninstallEvent(p, e) => actions := UninstallRefines(h, s, 0, p, e, tokens);
      case RestartEvent =>
        actions := [O.Restart];
        RestartRefines(h, s, tokens);
    }
  }

  /** Every serial run has an interleaved run that ends with the same rows and handles and no request under way. */
  lemma {:induction false} RunRefines(root: string, events: seq<L.Event>, how: Failure)
    returns (actions: seq<O.Action>, tokens: seq<nat>)
    ensures O.Run(actions).requests == map[]
    ensures Matches(L.Run(root, events), O.Run(actions), tokens)
  {
    if events == [] {
      actions, tokens := [], [];
    } else {
      hide Matches, L.Apply, O.RunFrom;
      var n := |events| - 1;
      var before, named := RunRefines(root, events[..n], how);
      var step, more := EventRefines(root, L.Run(root, events[..n]), events[n], O.Run(before), how, named);
      O.RunAppend(O.INITIAL, before, step);
      actions, tokens := before + step, named + more;
    }
  }
}
