// Exactly when a coordinator restart strands a lease, and what becomes of a stranded lease.
module LeaseStranding {
  import opened Options
  import opened Registry
  import opened LeaseStore
  import opened LeaseWrites
  import opened LeaseProtocol
  import opened LeaseTenancy
  import opened LeaseCleaning
  import opened LeaseMoves
  import opened LeaseRestart

  // A sanitizing lease whose worker was never asked to clean itself, with nobody about to ask.
  ghost predicate Stranded(s: Sys, i: nat) {
    && InState(s.w, i, Sanitizing) && LeaseRef(i) !in Follow(s.hist, s.w.leases[i].node).issued
    && !(s.todo.Ask? && s.todo.id == i)
  }

  ghost predicate NoneStranded(s: Sys) { forall i: nat :: !Stranded(s, i) }

  // With none stranded, every sanitizing lease has its request outstanding, unless it is about to be made; a stranded
  // one has none.
  lemma StrandedMeans(s: Sys, i: nat)
    requires Inv(s) && InState(s.w, i, Sanitizing) && !(s.todo.Ask? && s.todo.id == i)
    ensures var n := s.w.leases[i].node;
      n in s.w.fleet && if Stranded(s, i) then s.w.fleet[n].ref.None? && s.w.fleet[n].since.None?
                        else s.w.fleet[n].ref == Some(LeaseRef(i)) && s.w.fleet[n].since.Some?
  {
    var n := s.w.leases[i].node;
    assert OpenOn(s.w.leases, i, n) && NodeOk(s, n);
    hide Follow;
  }

  // A pass of the reaper leaves such a lease where it is, releasing it does nothing, and it keeps the worker off every list.
  lemma StrandedWaits(w: World, i: nat, now: Instant, limits: Limits, delivered: bool, reason: string, who: string)
    requires InState(w, i, Sanitizing) && w.leases[i].node in w.fleet && w.fleet[w.leases[i].node].since.None?
    ensures TickState(w, i, now, limits, delivered) == w && EndActive(w, i, reason, who, now, delivered) == w
    ensures !NoneOpen(w.leases, w.leases[i].node) && !Available(w, w.leases[i].node)
  {
    assert OpenOn(w.leases, i, w.leases[i].node);
  }

  lemma {:induction false} IssuedStays(hist: seq<Event>, more: seq<Event>, n: NodeId)
    ensures Follow(hist, n).issued <= Follow(hist + more, n).issued
  {
    if more == [] {
      assert hist + more == hist;
    } else {
      var front, last := more[..|more| - 1], more[|more| - 1];
      assert hist + more == (hist + front) + [last];
      IssuedStays(hist, front, n);
      FollowOne(hist + front, last, n);
      hide Follow;
    }
  }

  // Nothing but a restart can strand a lease.
  lemma StepStrandsNone(s: Sys, step: Step)
    requires Inv(s) && NoneStranded(s) && Enabled(s, step) && !step.Restart?
    ensures NoneStranded(Do(s, step))
  {
    var s' := Do(s, step);
    forall i: nat | InState(s'.w, i, Sanitizing) ensures !Stranded(s', i) {
      StepStrandsNot(s, step, i);
    }
  }

  lemma StepStrandsNot(s: Sys, step: Step, i: nat)
    requires Inv(s) && NoneStranded(s) && Enabled(s, step) && !step.Restart? && InState(Do(s, step).w, i, Sanitizing)
    ensures !Stranded(Do(s, step), i)
  {
    var s' := Do(s, step);
    var n := s'.w.leases[i].node;
    SanitizingBefore(s, step, i);
    hide Do, Exec, Enabled, Inv, OpenEvents;
    assert !Stranded(s, i);
    HistoryGrows(s, step);
    var more := s'.hist[|s.hist|..];
    assert s'.hist == s.hist + more;
    IssuedStays(s.hist, more, n);
    if step.Write? && s.todo.Ask? {
      assert more == [Issued(s.todo.node, LeaseRef(s.todo.id))];
      FollowOne(s.hist, Issued(s.todo.node, LeaseRef(s.todo.id)), n);
    }
    hide Follow, Inv;
  }

  // A lease is sanitizing after a step if it was before, or the step marks it so and the request is next.
  lemma SanitizingBefore(s: Sys, step: Step, i: nat)
    requires Enabled(s, step) && !step.Restart? && InState(Do(s, step).w, i, Sanitizing)
    ensures InState(s.w, i, Sanitizing) || (step.Write? && s.todo.Sanitize? && s.todo.id == i)
    ensures i < |s.w.leases| ==> Do(s, step).w.leases[i].node == s.w.leases[i].node
    ensures step.Write? && s.todo.Sanitize? ==> Do(s, step).todo.Ask? && Do(s, step).todo.id == s.todo.id
    ensures Do(s, step).todo == s.todo || s.todo == Nothing || step.Write?
    ensures step.Write? && Do(s, step).todo.Ask? ==> s.todo.Sanitize?
  {
    hide ApplyOp, OpenEvents, WithLease;
  }

  lemma HistoryGrows(s: Sys, step: Step)
    requires Enabled(s, step)
    ensures s.hist <= Do(s, step).hist
    ensures step.Write? && s.todo.Ask? ==> Do(s, step).hist == s.hist + [Issued(s.todo.node, LeaseRef(s.todo.id))]
  {
    hide Exec, ApplyOp, Follow;
  }

  // A restart strands a lease if and only if it comes between marking it sanitizing and noting the request.
  lemma RestartStrandsIff(s: Sys)
    requires Inv(s) && NoneStranded(s)
    ensures NoneStranded(Do(s, Restart)) <==> !s.todo.Ask?
  {
    var s' := Do(s, Restart);
    if s.todo.Ask? {
      assert s'.hist == s.hist;
      assert Stranded(s', s.todo.id);
    } else {
      forall i: nat | InState(s'.w, i, Sanitizing) ensures !Stranded(s', i) {
        assert !Stranded(s, i);
        IssuedStays(s.hist, RestartLog(s.todo), s'.w.leases[i].node);
      }
    }
  }

  // No restart of this run comes there, or in the gap.
  ghost predicate WellTimed(s: Sys, steps: seq<Step>)
    decreases |steps|
  {
    steps == [] ||
    ((steps[0].Restart? ==> !InGap(s) && !s.todo.Ask?) && (Enabled(s, steps[0]) ==> WellTimed(Do(s, steps[0]), steps[1..])))
  }

  lemma {:induction false} NoneStrandedInRun(s: Sys, steps: seq<Step>, s': Sys)
    requires Inv(s) && NoneStranded(s) && Leads(s, steps, s') && WellTimed(s, steps)
    ensures Inv(s') && NoneStranded(s')
    decreases |steps|
  {
    hide Inv, NoneStranded, Do, Enabled;
    if steps != [] {
      StepInv(s, steps[0]);
      if steps[0].Restart? { RestartStrandsIff(s); } else { StepStrandsNone(s, steps[0]); }
      NoneStrandedInRun(Do(s, steps[0]), steps[1..], s');
    }
  }

  // In every run from the start whose restarts are well timed, every sanitizing lease has its request outstanding.
  lemma NoneStrandedInEveryRun(steps: seq<Step>, s: Sys)
    requires Leads(START, steps, s) && WellTimed(START, steps)
    ensures NoneStranded(s)
  {
    StartInv();
    NoneStrandedInRun(START, steps, s);
  }

  // ------------------------------------------------------------------ what becomes of it

  lemma {:induction false} IssuedSame(hist: seq<Event>, more: seq<Event>, n: NodeId)
    requires forall k :: 0 <= k < |more| && more[k].Issued? ==> more[k].node != n
    ensures Follow(hist + more, n).issued == Follow(hist, n).issued
  {
    if more == [] {
      assert hist + more == hist;
    } else {
      var front, last := more[..|more| - 1], more[|more| - 1];
      assert hist + more == (hist + front) + [last];
      IssuedSame(hist, front, n);
      FollowOne(hist + front, last, n);
      hide Follow;
    }
  }

  lemma {:induction false} OpenEventsOpen(nodes: seq<NodeId>, first: nat, org: OrgId)
    ensures forall k :: 0 <= k < |OpenEvents(nodes, first, org)| ==> OpenEvents(nodes, first, org)[k].Opened?
  {
    if nodes != [] { OpenEventsOpen(nodes[..|nodes| - 1], first, org); }
  }

  // Lease i is sanitizing on n with nothing asked of n for it and nobody about to ask, answer or end it.
  ghost predicate Stuck(s: Sys, i: nat, n: NodeId) {
    && InState(s.w, i, Sanitizing) && s.w.leases[i].node == n
    && LeaseRef(i) !in Follow(s.hist, n).issued
    && (n in s.w.fleet ==> s.w.fleet[n].since.None?)
    && match s.todo
       case Ask(id, _, _, _) => id != i
       case FinishClean(id, _) => id != i
       case GiveUp(id, _, _, _, _, _) => id != i
       case StaffAsk(m, ref, _) => m != n && ref.CleanRef?
       case _ => true
  }

  lemma StrandedIsStuck(s: Sys, i: nat)
    requires Inv(s) && Stranded(s, i) && !(s.todo.GiveUp? && s.todo.id == i)
    ensures Stuck(s, i, s.w.leases[i].node)
  {
    var n := s.w.leases[i].node;
    StrandedMeans(s, i);
    assert OpenOn(s.w.leases, i, n) && NodeOk(s, n);
  }

  // Its row, its worker's fleet row and the program after a write.
  lemma WriteStuckTables(s: Sys, i: nat, n: NodeId)
    requires Stuck(s, i, n) && OneOpen(s.w.leases) && TodoServes(s.w, s.todo) && s.todo != Nothing
    ensures var (w', rest) := Exec(s.w, s.todo);
      Stuck(Sys(w', rest, s.door, s.hist), i, n)
    ensures s.todo.Ask? ==> s.todo.node != n
  {
    hide Follow, WithLease, CountOpen;
    assert OpenOn(s.w.leases, i, n);
    if s.todo.Ask? { assert OpenOn(s.w.leases, s.todo.id, s.todo.node); }
  }

  lemma WriteStuck(s: Sys, i: nat, n: NodeId)
    requires Stuck(s, i, n) && OneOpen(s.w.leases) && TodoServes(s.w, s.todo) && Enabled(s, Write)
    ensures Stuck(Do(s, Write), i, n)
  {
    WriteStuckTables(s, i, n);
    hide Exec, OneOpen, TodoServes, Follow;
    var logged := Logged(s.w, s.todo);
    if s.todo.Open? { OpenEventsOpen(s.todo.nodes, |s.w.leases|, s.todo.org); }
    IssuedSame(s.hist, logged, n);
    hide OpenEvents;
  }

  lemma BeginStuck(l: Live, todo: Todo, heard: seq<Event>, now: Instant, limits: Limits, i: nat, n: NodeId)
    requires Stuck(l.sys, i, n) && Can(l, Make(Begin(todo, heard), now), limits) && todo != Lost(i, n)
    ensures Stuck(Do(l.sys, Begin(todo, heard)), i, n)
  {
    hide Follow, Quiet, Available;
    assert OpenOn(l.sys.w.leases, i, n);
    IssuedSame(l.sys.hist, heard, n);
  }

  lemma OtherStepStuck(s: Sys, step: Step, i: nat, n: NodeId)
    requires Stuck(s, i, n) && Enabled(s, step) && !step.Begin? && !step.Write?
    ensures Stuck(Do(s, step), i, n)
  {
    hide Follow, ApplyOp, Lookup;
    var more :=
      if step.Restart? then RestartLog(s.todo)
      else if step.Take? && s.w.reg.nodes[step.node].fleet then [Claimed(step.node, step.job.org)] else [];
    assert s.hist + [] == s.hist;
    IssuedSame(s.hist, more, n);
  }

  lemma StepStuck(l: Live, step: Step, now: Instant, limits: Limits, i: nat, n: NodeId)
    requires Serves(l.sys) && Stuck(l.sys, i, n) && Can(l, Make(step, now), limits)
    requires step.Begin? ==> step.todo != Lost(i, n)
    ensures Stuck(Do(l.sys, step), i, n)
  {
    assert OneOpen(l.sys.w.leases) && TodoServes(l.sys.w, l.sys.todo);
    MakesStep(l, Make(step, now), limits);
    hide Serves, Stuck, Do, Can, Enabled, OneOpen, TodoServes;
    if step.Begin? {
      BeginStuck(l, step.todo, step.heard, now, limits, i, n);
    } else if step.Write? {
      WriteStuck(l.sys, i, n);
    } else {
      OtherStepStuck(l.sys, step, i, n);
    }
  }

  // Some reaper pass of this run gives up lease i because its worker is lost.
  predicate GivesUp(moves: seq<Move>, i: nat, n: NodeId) {
    exists k :: 0 <= k < |moves| && moves[k].Make? && moves[k].step.Begin? && moves[k].step.todo == Lost(i, n)
  }

  lemma {:induction false} StuckInRun(l: Live, moves: seq<Move>, l': Live, limits: Limits, i: nat, n: NodeId)
    requires Serves(l.sys) && Stuck(l.sys, i, n) && Moves(l, moves, l', limits) && !GivesUp(moves, i, n)
    ensures Stuck(l'.sys, i, n)
    decreases |moves|
  {
    hide Serves, Stuck, Can, Lost;
    if moves != [] {
      var next := Next(l, moves[0], limits);
      assert moves[0].Make? && moves[0].step.Begin? ==> moves[0].step.todo != Lost(i, n);
      if moves[0].Make? {
        MakesStep(l, moves[0], limits);
        StepStuck(l, moves[0].step, moves[0].now, limits, i, n);
        StepServes(l.sys, moves[0].step);
      }
      assert !GivesUp(moves[1..], i, n) by { NotLater(moves, i, n); }
      hide Do;
      StuckInRun(next, moves[1..], l', limits, i, n);
    }
  }

  lemma MakesStep(l: Live, move: Move, limits: Limits)
    requires Can(l, move, limits) && move.Make?
    ensures Enabled(l.sys, move.step) && Next(l, move, limits).sys == Do(l.sys, move.step)
  {
  }

  lemma NotLater(moves: seq<Move>, i: nat, n: NodeId)
    requires moves != [] && !GivesUp(moves, i, n)
    ensures !GivesUp(moves[1..], i, n)
  {
    hide Lost;
    forall k | 0 <= k < |moves[1..]| && moves[1..][k].Make? && moves[1..][k].step.Begin?
      ensures moves[1..][k].step.todo != Lost(i, n)
    {
      assert moves[1..][k] == moves[k + 1];
    }
  }

  // Whatever the code goes on to do, further restarts included, a stranded lease stays stranded and keeps its worker off
  // the list, until its worker is given up as lost.
  lemma StrandedUntilLost(l: Live, moves: seq<Move>, l': Live, limits: Limits, i: nat)
    requires Inv(l.sys) && Stranded(l.sys, i) && !(l.sys.todo.GiveUp? && l.sys.todo.id == i)
    requires Moves(l, moves, l', limits) && !GivesUp(moves, i, l.sys.w.leases[i].node)
    ensures Stranded(l'.sys, i) && l'.sys.w.leases[i].node == l.sys.w.leases[i].node
    ensures !Available(l'.sys.w, l.sys.w.leases[i].node)
  {
    var n := l.sys.w.leases[i].node;
    StrandedIsStuck(l.sys, i);
    StuckInRun(l, moves, l', limits, i, n);
    assert OpenOn(l'.sys.w.leases, i, n);
    hide Follow, Inv, Moves;
  }

  // And that ends it: out of reach, as every worker is after a restart, it is noticed and after the grace given up.
  lemma LosingEndsIt(l: Live, limits: Limits, i: nat) returns (moves: seq<Move>, l': Live)
    requires Stranded(l.sys, i) && l.sys.todo == Nothing && !Reachable(l.sys.w, l.sys.w.leases[i].node)
    ensures Moves(l, moves, l', limits) && GivesUp(moves, i, l.sys.w.leases[i].node)
    ensures InState(l'.sys.w, i, Ended)
  {
    var n := l.sys.w.leases[i].node;
    var notice := Notice(n, l.clock);
    var since := if n in l.unseen && l.unseen[n] > l.clock then l.unseen[n] else l.clock;
    var late := AfterGrace(since, limits);
    assert OpenOn(l.sys.w.leases, i, n);
    var l1 := Next(l, notice, limits);
    OneMove(l, notice, limits);
    assert n in l1.unseen && l1.unseen[n] <= since && l1.sys == l.sys && l1.clock == l.clock;
    hide Follow, Moves, Can, Next, Reachable, Lost;
    GraceEnds(since, limits);
    var give;
    give, l' := GiveUpLost(l1, i, n, late, limits);
    MovesThenMoves(l, [notice], l1, give, l', limits);
    moves := [notice] + give;
    assert moves[1] == give[0];
  }

  // A run of the code from the very start to a stranded lease: a worker is leased and released, its clean-up begins, and the
  // coordinator restarts before the request is noted.
  lemma StrandedFromStart(limits: Limits) returns (moves: seq<Move>, l: Live)
    ensures Moves(BLANK, moves, l, limits) && Inv(l.sys) && l.sys.todo == Nothing && Stranded(l.sys, 0)
    ensures l.sys.hist == [Opened(7, 0, "first"), Stopped(7)]
  {
    hide Inv, OpenLease, Next, Can, Moves, Quiet, Leads, Orderly;
    var a, l1 := EnrolSeven(limits);
    var b, l2, asked := LeaseAgain(l1, 7, "first", 0, limits);
    var c, l3 := FinishActivating(l2, limits);
    var d, l4 := ReleaseSeven(l3, limits);
    var e, l5 := BeginCleaning(l4, limits);
    MovesThenMoves(BLANK, a, l1, b, l2, limits);
    MovesThenMoves(BLANK, a + b, l2, c, l3, limits);
    MovesThenMoves(BLANK, a + b + c, l3, d, l4, limits);
    MovesThenMoves(BLANK, a + b + c + d, l4, e, l5, limits);
    var most := a + b + c + d + e;
    assert l5.sys.hist == [Opened(7, 0, "first"), Stopped(7)];
    MovesKeepInv(most, l5, limits);
    var restart;
    restart, l := RestartIntoStranded(l5, limits);
    MovesThenMoves(BLANK, most, l5, restart, l, limits);
    moves := most + restart;
  }

  lemma MovesKeepInv(moves: seq<Move>, l: Live, limits: Limits)
    requires Moves(BLANK, moves, l, limits) && NoRestart(Steps(moves))
    ensures Inv(l.sys)
  {
    hide Inv, Moves, Leads, Orderly;
    MovesAreSteps(BLANK, moves, l, limits);
    NoRestartIsOrderly(START, Steps(moves));
    StartInv();
    RunInv(START, Steps(moves), l.sys);
  }

  // The customer releases the worker.
  lemma ReleaseSeven(l: Live, limits: Limits) returns (moves: seq<Move>, l': Live)
    requires l.sys.todo == Nothing && l.sys.door.None? && Quiet(l.sys.w, 7)
    requires l.sys.w.leases == [NewLease(7, "first", None, 0)]
    ensures Moves(l, moves, l', limits) && NoRestart(Steps(moves)) && l'.clock == l.clock
    ensures l'.sys.todo == Nothing && l'.sys.door.None? && Quiet(l'.sys.w, 7)
    ensures Matches(l'.sys.w, 0, Ending, 7, "first") && l'.sys.hist == l.sys.hist + [Stopped(7)]
  {
    var begin, write := Make(Begin(End(0, 7, "first", "released", "user"), []), l.clock), Make(Write, l.clock);
    assert l.sys.hist + [] == l.sys.hist;
    var l1 := Next(l, begin, limits);
    var l2 := Next(l1, write, limits);
    assert l2.sys.hist == l.sys.hist;
    l' := Next(l2, write, limits);
    TwoMoves(l, begin, write, limits);
    OneMove(l2, write, limits);
    MovesThenMoves(l, [begin, write], l2, [write], l', limits);
    moves := [begin, write] + [write];
  }

  // The reaper takes the lease on to sanitizing.
  lemma BeginCleaning(l: Live, limits: Limits) returns (moves: seq<Move>, l': Live)
    requires l.sys.todo == Nothing && Quiet(l.sys.w, 7) && Matches(l.sys.w, 0, Ending, 7, "first")
    ensures Moves(l, moves, l', limits) && NoRestart(Steps(moves)) && l'.clock == l.clock
    ensures l'.sys.todo.Ask? && Matches(l'.sys.w, 0, Sanitizing, 7, "first") && l'.sys.hist == l.sys.hist
  {
    var begin, write := Make(Begin(Sanitize(0, 7, "first", l.clock), []), l.clock), Make(Write, l.clock);
    assert l.sys.hist + [] == l.sys.hist;
    l' := Next(Next(l, begin, limits), write, limits);
    TwoMoves(l, begin, write, limits);
    moves := [begin, write];
  }

  lemma RestartIntoStranded(l: Live, limits: Limits) returns (moves: seq<Move>, l': Live)
    requires Inv(l.sys) && l.sys.todo.Ask? && Matches(l.sys.w, 0, Sanitizing, 7, "first")
    requires l.sys.hist == [Opened(7, 0, "first"), Stopped(7)]
    ensures Moves(l, moves, l', limits) && Inv(l'.sys) && l'.sys.todo == Nothing && Stranded(l'.sys, 0)
    ensures l'.sys.hist == l.sys.hist
  {
    hide Inv, Follow;
    var restart := Make(Restart, l.clock);
    OneMove(l, restart, limits);
    moves, l' := [restart], Next(l, restart, limits);
    RestartInv(l.sys);
    assert l.sys.hist + [] == l.sys.hist == [] + l.sys.hist;
    IssuedSame([], l.sys.hist, 7);
    assert Follow([], 7).issued == {} by { NothingIssued(7); }
  }

  lemma NothingIssued(n: NodeId)
    ensures Follow([], n).issued == {}
  {
  }
}
