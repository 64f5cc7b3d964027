// The runs of LeaseProtocol that the code itself makes. The machine lets the manager decide more than it does, which is
// right for proving what never happens; to show that something can happen every decision here meets the code's own test.
module LeaseMoves {
  import opened Options
  import opened Registry
  import opened LeaseStore
  import opened LeaseWrites
  import opened LeaseProtocol

  // The machine with what else the manager goes by: since when it has not seen a leased worker, the worker a staff clean-up
  // was just asked of, and the time, which never goes back.
  datatype Live = Live(sys: Sys, unseen: Unseen, asked: Option<NodeId>, clock: Instant)

  // Notice: a reaper pass looks at the worker of an open lease.
  datatype Move = Notice(node: NodeId, now: Instant) | Make(step: Step, now: Instant)

  // The tests the manager makes before it starts on a program. A clean-up has failed when the request sent was answered so
  // or could not be delivered, or when it has gone unanswered for too long.
  ghost predicate Tested(l: Live, todo: Todo, now: Instant, limits: Limits) {
    var w := l.sys.w;
    match todo
    case Open(nodes, _, _, at, cap) =>
      && at == now && 1 <= |nodes| <= MAX_REQUEST && cap > 0 && Distinct(w.reg.order)
      && |nodes| <= |AvailableNodes(w)| && nodes == AvailableNodes(w)[..|nodes|]
    case Sanitize(_, _, _, at) => at == now
    case GiveUp(id, n, _, _, _, _) =>
      || (todo == Lost(id, n) && LostTooLong(w, l.unseen, n, now, limits))
      || (InState(w, id, Sanitizing) && (exists detail :: todo == FailedClean(id, n, detail))
          && (|| LeaseRef(id) in Follow(l.sys.hist, n).issued
              || (n in w.fleet && Expired(w.fleet[n].since, now, limits.sanitize))))
    case Touch(id, at) => at == now && InState(w, id, Active) && InUse(w, w.leases[id])
    case StaffAsk(n, _, at) =>
      at == now && n in w.reg.nodes && w.reg.nodes[n].worker.connected && w.reg.nodes[n].status == Idle
    case StaffClear(n) => l.asked == Some(n)
    case StaffHold(n, why) =>
      n in w.fleet &&
      (|| (why == "clean-up timed out" && Expired(w.fleet[n].since, now, limits.sanitize))
       || (w.fleet[n].ref.Some? && exists detail :: why == "clean-up failed: " + detail))
    case _ => true
  }

  predicate OnTime(step: Step, now: Instant) {
    match step
    case Enter(_, _, at) => at == now
    case Change(_, at) => at == now
    case Take(_, _, _, at) => at == now
    case _ => true
  }

  ghost predicate Can(l: Live, move: Move, limits: Limits) {
    move.now >= l.clock &&
    match move
    case Notice(n, _) => l.sys.todo == Nothing && !NoneOpen(l.sys.w.leases, n)
    case Make(step, now) =>
      Enabled(l.sys, step) && OnTime(step, now) && (step.Begin? ==> Tested(l, step.todo, now, limits))
  }

  ghost function Next(l: Live, move: Move, limits: Limits): Live
    requires Can(l, move, limits)
  {
    match move
    case Notice(n, now) => l.(unseen := Noticed(l.sys.w, l.unseen, n, now), clock := now)
    case Make(step, now) =>
      Live(Do(l.sys, step),
           if step.Restart? then map[]
           else if step.Begin? && step.todo.GiveUp? && step.todo == Lost(step.todo.id, step.todo.node)
           then l.unseen - {step.todo.node} else l.unseen,
           if step.Write? && l.sys.todo.StaffAsk? then Some(l.sys.todo.node)
           else if step.Begin? || step.Restart? then None else l.asked,
           now)
  }

  ghost predicate Moves(l: Live, moves: seq<Move>, l': Live, limits: Limits)
    decreases |moves|
  {
    if moves == [] then l' == l else Can(l, moves[0], limits) && Moves(Next(l, moves[0], limits), moves[1..], l', limits)
  }

  function Steps(moves: seq<Move>): seq<Step> {
    if moves == [] then []
    else (if moves[0].Make? then [moves[0].step] else []) + Steps(moves[1..])
  }

  // What the code does is a run of the machine.
  lemma {:induction false} MovesAreSteps(l: Live, moves: seq<Move>, l': Live, limits: Limits)
    requires Moves(l, moves, l', limits)
    ensures Leads(l.sys, Steps(moves), l'.sys)
    decreases |moves|
  {
    hide Tested, Do, Enabled;
    if moves != [] {
      MovesAreSteps(Next(l, moves[0], limits), moves[1..], l', limits);
      if moves[0].Make? {
        assert Steps(moves)[0] == moves[0].step && Steps(moves)[1..] == Steps(moves[1..]);
      } else {
        assert Steps(moves) == Steps(moves[1..]);
      }
    }
  }

  lemma OneMove(l: Live, move: Move, limits: Limits)
    requires Can(l, move, limits)
    ensures Moves(l, [move], Next(l, move, limits), limits)
    ensures Steps([move]) == if move.Make? then [move.step] else []
  {
    hide Can, Next;
    assert [move][1..] == [];
  }

  lemma {:induction false} MovesThenMoves(l: Live, moves: seq<Move>, mid: Live, more: seq<Move>, l': Live, limits: Limits)
    requires Moves(l, moves, mid, limits) && Moves(mid, more, l', limits)
    ensures Moves(l, moves + more, l', limits)
    ensures Steps(moves + more) == Steps(moves) + Steps(more)
    decreases |moves|
  {
    hide Can, Next;
    if moves == [] {
      assert moves + more == more;
    } else {
      var all := moves + more;
      MovesThenMoves(Next(l, moves[0], limits), moves[1..], mid, more, l', limits);
      assert all[0] == moves[0] && all[1..] == moves[1..] + more;
      assert Steps(all) == (if all[0].Make? then [all[0].step] else []) + (Steps(moves[1..]) + Steps(more));
    }
  }

  lemma TwoMoves(l: Live, a: Move, b: Move, limits: Limits)
    requires Can(l, a, limits) && Can(Next(l, a, limits), b, limits)
    ensures Moves(l, [a, b], Next(Next(l, a, limits), b, limits), limits)
    ensures a.Make? && b.Make? ==> Steps([a, b]) == [a.step, b.step]
  {
    hide Can, Next;
    OneMove(l, a, limits);
    OneMove(Next(l, a, limits), b, limits);
    MovesThenMoves(l, [a], Next(l, a, limits), [b], Next(Next(l, a, limits), b, limits), limits);
    assert [a] + [b] == [a, b];
  }
}
