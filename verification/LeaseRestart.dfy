// Exactly when a coordinator restart can hand a worker on uncleaned.
module LeaseRestart {
  import opened Options
  import opened Registry
  import opened LeaseStore
  import opened LeaseWrites
  import opened LeaseProtocol
  import opened LeaseTenancy
  import opened LeaseCleaning
  import opened LeaseMoves
  import opened LeaseSafety

  ghost predicate NoRestart(steps: seq<Step>) {
    forall i :: 0 <= i < |steps| ==> !steps[i].Restart?
  }

  lemma {:induction false} NoRestartIsOrderly(s: Sys, steps: seq<Step>)
    requires NoRestart(steps)
    ensures Orderly(s, steps)
    decreases |steps|
  {
    if steps != [] && Enabled(s, steps[0]) {
      NoRestartIsOrderly(Do(s, steps[0]), steps[1..]);
    }
  }

  lemma {:induction false} RunThenRun(s: Sys, steps: seq<Step>, mid: Sys, more: seq<Step>, s': Sys)
    requires Leads(s, steps, mid) && Leads(mid, more, s')
    ensures Leads(s, steps + more, s')
    decreases |steps|
  {
    if steps == [] {
      assert steps + more == more;
    } else {
      assert (steps + more)[1..] == steps[1..] + more;
      RunThenRun(Do(s, steps[0]), steps[1..], mid, more, s');
    }
  }

  // ------------------------------------------------------------------ handing a worker on uncleaned

  // A worker fit for leasing, as it reconnects.
  const FIT := Worker(None, true, true, Some([1, 1, 0]), Idle)

  function FitReg(n: NodeId, now: Instant): Reg { Reg([n], map[n := FreshInfo(FIT, true, None, false, None, now)]) }

  lemma Reconnect(l: Live, n: NodeId, now: Instant, limits: Limits) returns (moves: seq<Move>, l': Live)
    requires l.sys.todo == Nothing && l.sys.door.None? && l.sys.w.reg == Reg([], map[]) && now >= l.clock
    requires n in l.sys.w.fleet && OpenLease(l.sys.w.leases, n).None?
    ensures Moves(l, moves, l', limits) && NoRestart(Steps(moves))
    ensures l' == l.(sys := l.sys.(w := l.sys.w.(reg := FitReg(n, now))), clock := now)
  {
    hide Exec, Revise, Tested;
    var knock, enter := Make(Knock(n, FIT), now), Make(Enter(false, None, now), now);
    l' := Next(Next(l, knock, limits), enter, limits);
    moves := [knock, enter];
    TwoMoves(l, knock, enter, limits);
    assert [] + [n] == [n];
  }

  // With n alone in the registry and available it is what a request for one worker gets.
  lemma OnlyOnOffer(w: World, n: NodeId)
    requires w.reg.order == [n] && Available(w, n)
    ensures AvailableNodes(w) == [n]
  {
    hide Available;
    assert [n][..1] == [n];
    var offer := AvailableNodes(w);
    assert forall m :: m in offer <==> m == n;
    SortedUnique([n], offer);
  }

  lemma Grant(l: Live, n: NodeId, org: OrgId, now: Instant, limits: Limits) returns (moves: seq<Move>, l': Live)
    requires l.sys.todo == Nothing && Available(l.sys.w, n) && l.sys.w.reg.order == [n] && now >= l.clock
    ensures Moves(l, moves, l', limits) && NoRestart(Steps(moves)) && l'.unseen == l.unseen && l'.clock == now
    ensures l'.sys == l.sys.(w := l.sys.w.(leases := l.sys.w.leases + [NewLease(n, org, None, now)]),
                             todo := Activate([n], org), hist := l.sys.hist + [Opened(n, |l.sys.w.leases|, org)])
  {
    var s, cap := l.sys, CountOpen(l.sys.w.leases, org) + 1;
    var begin, write := Make(Begin(Open([n], org, None, now, cap), []), now), Make(Write, now);
    OnlyOnOffer(s.w, n);
    assert NoneOpen(s.w.leases, n) && Insertable(s.w.leases, [n]) by { GrantInserts(s.w, n); }
    hide Available, RunAlone, AvailableNodes;
    assert [n][..1] == [n];
    assert Can(l, begin, limits);
    assert s.hist + [] == s.hist;
    l' := Next(Next(l, begin, limits), write, limits);
    moves := [begin, write];
    TwoMoves(l, begin, write, limits);
    assert [n][..0] == [] && OpenEvents([], |s.w.leases|, org) == [];
    assert [] + [Opened(n, |s.w.leases|, org)] == [Opened(n, |s.w.leases|, org)];
    assert NewLeases([n], org, None, now) == [NewLease(n, org, None, now)];
  }

  lemma GrantInserts(w: World, n: NodeId)
    requires Available(w, n)
    ensures NoneOpen(w.leases, n)
  {
  }

  lemma {:induction false} FreshRef(issued: set<Ref>) returns (k: nat)
    ensures forall j: nat :: j >= k ==> CleanRef(j) !in issued
    decreases issued
  {
    if r :| r in issued {
      k := FreshRef(issued - {r});
      if r.CleanRef? && r.serial >= k { k := r.serial + 1; }
    } else {
      k := 0;
    }
  }

  // Staff ask for the worker to be cleaned and the request cannot be delivered: any clean-up outstanding is dropped.
  lemma AskInVain(l: Live, n: NodeId, now: Instant, limits: Limits) returns (moves: seq<Move>, l': Live, ref: Ref)
    requires l.sys.todo == Nothing && n in l.sys.w.fleet && NoneOpen(l.sys.w.leases, n) && l.sys.w.reg == FitReg(n, now)
    requires now >= l.clock
    ensures Moves(l, moves, l', limits) && NoRestart(Steps(moves)) && l'.unseen == l.unseen && l'.clock == now
    ensures l'.sys == l.sys.(w := l.sys.w.(fleet := Cleared(l.sys.w.fleet, n)), hist := l.sys.hist + [Issued(n, ref)])
  {
    hide Follow, NoneOpen;
    var serial := FreshRef(Follow(l.sys.hist, n).issued);
    ref := CleanRef(serial);
    var begin, write := Make(Begin(StaffAsk(n, ref, now), []), now), Make(Write, now);
    var drop := Make(Begin(StaffClear(n), []), now);
    assert l.sys.hist + [] == l.sys.hist;
    var l1 := Next(l, begin, limits);
    var l2 := Next(l1, write, limits);
    assert l2.sys == l.sys.(w := l.sys.w.(fleet := Asked(l.sys.w.fleet, n, ref, now)), hist := l.sys.hist + [Issued(n, ref)]);
    assert l2.asked == Some(n) && l2.sys.hist + [] == l2.sys.hist;
    var l3 := Next(l2, drop, limits);
    l' := Next(l3, write, limits);
    TwoMoves(l, begin, write, limits);
    TwoMoves(l2, drop, write, limits);
    MovesThenMoves(l, [begin, write], l2, [drop, write], l', limits);
    moves := [begin, write] + [drop, write];
  }

  // An unheld, unleased hosted worker the registry does not know can be leased to any customer: at once when no clean-up
  // is outstanding, else after staff have asked for one in vain.
  lemma LeaseAgain(l: Live, n: NodeId, org: OrgId, now: Instant, limits: Limits)
    returns (moves: seq<Move>, l': Live, asked: seq<Event>)
    requires l.sys.todo == Nothing && l.sys.door.None? && l.sys.w.reg == Reg([], map[]) && now >= l.clock
    requires n in l.sys.w.fleet && l.sys.w.fleet[n].held.None? && OpenLease(l.sys.w.leases, n).None?
    ensures Moves(l, moves, l', limits) && NoRestart(Steps(moves)) && l'.unseen == l.unseen && l'.clock == now
    ensures l'.sys.w.leases == l.sys.w.leases + [NewLease(n, org, None, now)] && l'.sys.w.reg == FitReg(n, now)
    ensures l'.sys.w.fleet == if l.sys.w.fleet[n].since.None? then l.sys.w.fleet else Cleared(l.sys.w.fleet, n)
    ensures l'.sys.todo == Activate([n], org) && l'.sys.door == None
    ensures l'.sys.hist == l.sys.hist + asked + [Opened(n, |l.sys.w.leases|, org)]
    ensures l.sys.w.fleet[n].since.None? ==> asked == []
    ensures l.sys.w.fleet[n].since.Some? ==> |asked| == 1 && asked[0].Issued? && asked[0].node == n
  {
    hide Do, Enabled, Exec, Moves, Next, Can;
    var a, l1 := Reconnect(l, n, now, limits);
    if l.sys.w.fleet[n].since.None? {
      asked := [];
      assert Available(l1.sys.w, n);
      var c;
      c, l' := Grant(l1, n, org, now, limits);
      MovesThenMoves(l, a, l1, c, l', limits);
      moves := a + c;
      assert l.sys.hist + [] == l.sys.hist;
    } else {
      var b, l2, ref := AskInVain(l1, n, now, limits);
      assert Available(l2.sys.w, n);
      asked := [Issued(n, ref)];
      var c;
      c, l' := Grant(l2, n, org, now, limits);
      MovesThenMoves(l, a, l1, b, l2, limits);
      MovesThenMoves(l, a + b, l2, c, l', limits);
      moves := a + b + c;
    }
  }

  function Restarted(l: Live): Live {
    Live(Sys(l.sys.w.(reg := Reg([], map[])), Nothing, None, l.sys.hist + RestartLog(l.sys.todo)), map[], None, l.clock)
  }

  // A restart inside the gap loses the hold, and the worker can then be leased on without having been cleaned since.
  lemma RestartInGapLeaks(l: Live, limits: Limits) returns (moves: seq<Move>, l': Live)
    requires Inv(l.sys) && InGap(l.sys)
    ensures Moves(Restarted(l), moves, l', limits) && NoRestart(Steps(moves)) && !CleanBetweenCustomers(l'.sys.hist)
  {
    hide CleanBetweenCustomers, Moves;
    var n, s := l.sys.todo.node, l.sys;
    assert NodeOk(s, n) && NoneOpen(s.w.leases, n);
    hide Inv;
    var l1 := Restarted(l);
    FollowOne(s.hist, Stopped(n), n);
    var asked;
    moves, l', asked := LeaseAgain(l1, n, "next", l.clock, limits);
    if asked == [] {
      assert l1.sys.hist + [] == l1.sys.hist;
    } else {
      assert asked == [asked[0]];
      FollowOne(l1.sys.hist, asked[0], n);
    }
    NextLeaseIsUnclean(l1.sys.hist + asked, n, |s.w.leases|, "next");
  }

  // No run from here, itself restarting only outside the gap, ever leases a worker that is not clean.
  ghost predicate StaysClean(s: Sys) {
    forall steps, s' :: Leads(s, steps, s') && Orderly(s, steps) ==> CleanBetweenCustomers(s'.hist)
  }

  // The code itself can get from here to leasing such a worker, restarting only outside the gap.
  ghost predicate CanGoWrong(l: Live, limits: Limits) {
    exists moves, l' ::
      Moves(l, moves, l', limits) && Orderly(l.sys, Steps(moves)) && !CleanBetweenCustomers(l'.sys.hist)
  }

  // The exact condition: a restart can lead to an unclean handover if and only if it is in the gap, that is, a lease has
  // just ended without a clean answer and the hold on its worker is still to be written. Outside it no run of the machine
  // does; inside it a run of the code does.
  lemma UncleanHandoverIff(l: Live, limits: Limits)
    requires Inv(l.sys)
    ensures StaysClean(Restarted(l).sys) <==> !InGap(l.sys)
    ensures CanGoWrong(Restarted(l), limits) <==> InGap(l.sys)
  {
    var s1 := Restarted(l).sys;
    assert s1 == Do(l.sys, Restart);
    hide CleanBetweenCustomers, Moves, Leads, Orderly, Inv, InGap;
    if InGap(l.sys) {
      var moves, l' := RestartInGapLeaks(l, limits);
      NoRestartIsOrderly(s1, Steps(moves));
      MovesAreSteps(Restarted(l), moves, l', limits);
      assert Leads(s1, Steps(moves), l'.sys) && Orderly(s1, Steps(moves)) && !CleanBetweenCustomers(l'.sys.hist);
    } else {
      RestartInv(l.sys);
      forall steps, s' | Leads(s1, steps, s') && Orderly(s1, steps) ensures CleanBetweenCustomers(s'.hist) {
        RunInv(s1, steps, s');
        InvMeansClean(s');
      }
      forall moves, l' | Moves(Restarted(l), moves, l', limits) && Orderly(s1, Steps(moves))
        ensures CleanBetweenCustomers(l'.sys.hist)
      {
        MovesAreSteps(Restarted(l), moves, l', limits);
      }
    }
  }

  // The same of any run from the start that has so far restarted only outside the gap, in terms of its history alone: the
  // last write ended a lease, its hold is next, and some lease of the worker has not been cleaned up after.
  lemma RestartGoesWrongIff(steps: seq<Step>, l: Live, limits: Limits)
    requires Leads(START, steps, l.sys) && Orderly(START, steps)
    ensures CanGoWrong(Restarted(l), limits) <==>
      l.sys.todo.HoldBack? && exists i :: OpensAt(l.sys.hist, i, l.sys.todo.node) && !HasCleaned(l.sys.hist, l.sys.todo.node, i)
    ensures !CanGoWrong(Restarted(l), limits) <==> StaysClean(Restarted(l).sys)
  {
    hide Inv, CanGoWrong, StaysClean, OpensAt, HasCleaned, Restarted;
    StartInv();
    RunInv(START, steps, l.sys);
    UncleanHandoverIff(l, limits);
    if l.sys.todo.HoldBack? { CleanPhaseIff(l.sys, l.sys.todo.node); }
  }

  // After such a restart the worker, once back, is on offer at once if and only if it had not been asked to clean itself:
  // a worker lost before its clean-up. Otherwise the clean-up outstanding keeps it off until staff ask in vain.
  lemma OnOfferAtOnceIff(l: Live, now: Instant)
    requires Inv(l.sys) && InGap(l.sys)
    ensures var n := l.sys.todo.node;
      Available(Restarted(l).sys.w.(reg := FitReg(n, now)), n) <==> l.sys.w.fleet[n].since.None?
  {
    assert NodeOk(l.sys, l.sys.todo.node);
    hide Follow;
  }

  const BLANK := Live(START, map[], None, 0)

  // One such run of the code from the very start: a worker drops out while leased to one customer and is given up after
  // the grace; the coordinator restarts between the two database writes; the next customer is given it uncleaned.
  lemma UncleanHandover(limits: Limits) returns (moves: seq<Move>, l: Live)
    ensures Moves(BLANK, moves, l, limits) && !CleanBetweenCustomers(l.sys.hist)
    ensures l.sys.hist == [Opened(7, 0, "first"), Stopped(7), Opened(7, 1, "next")]
  {
    hide CleanBetweenCustomers, OpenLease, Next, Can, Moves;
    var a, l1 := EnrolSeven(limits);
    var b, l2, asked := LeaseAgain(l1, 7, "first", 0, limits);
    var c, l3 := FinishActivating(l2, limits);
    var d, l4 := DropOut(l3, limits);
    var e, l5 := GiveUpAndRestart(l4, limits);
    var f, l6, askedAgain := LeaseAgain(l5, 7, "next", l5.clock, limits);
    MovesThenMoves(BLANK, a, l1, b, l2, limits);
    MovesThenMoves(BLANK, a + b, l2, c, l3, limits);
    MovesThenMoves(BLANK, a + b + c, l3, d, l4, limits);
    MovesThenMoves(BLANK, a + b + c + d, l4, e, l5, limits);
    MovesThenMoves(BLANK, a + b + c + d + e, l5, f, l6, limits);
    moves, l := a + b + c + d + e + f, l6;
    assert l6.sys.hist == [Opened(7, 0, "first"), Stopped(7), Opened(7, 1, "next")];
    UncleanHistory(l6.sys.hist);
  }

  lemma EnrolSeven(limits: Limits) returns (moves: seq<Move>, l: Live)
    ensures Moves(BLANK, moves, l, limits) && NoRestart(Steps(moves))
    ensures l == BLANK.(sys := START.(w := START.w.(fleet := map[7 := FleetRow(None, None, None)])))
    ensures OpenLease(l.sys.w.leases, 7).None?
  {
    var enrol := Make(Enrol(7), 0);
    OneMove(BLANK, enrol, limits);
    moves, l := [enrol], Next(BLANK, enrol, limits);
  }

  lemma FinishActivating(l: Live, limits: Limits) returns (moves: seq<Move>, l': Live)
    requires l.sys.todo == Activate([7], "first") && l.sys.door.None? && l.sys.w.reg == FitReg(7, l.clock)
    ensures Moves(l, moves, l', limits) && NoRestart(Steps(moves)) && l'.unseen == l.unseen && l'.clock == l.clock
    ensures l'.sys == l.sys.(todo := Nothing, w := l.sys.w.(reg := WithLease(l.sys.w.reg, 7, Some(("first", Active)))))
    ensures Quiet(l'.sys.w, 7)
  {
    var write := Make(Write, l.clock);
    assert l.sys.hist + [] == l.sys.hist && [7][1..] == [];
    TwoMoves(l, write, write, limits);
    moves, l' := [write, write], Next(Next(l, write, limits), write, limits);
  }

  // The worker's connection drops, and a reaper pass notices.
  lemma DropOut(l: Live, limits: Limits) returns (moves: seq<Move>, l': Live)
    requires l.sys.todo == Nothing && l.sys.door.None? && 7 in l.sys.w.reg.nodes && l.unseen == map[]
    requires l.sys.w.leases == [NewLease(7, "first", None, 0)]
    ensures Moves(l, moves, l', limits) && l'.unseen == map[7 := l.clock] && l'.clock == l.clock
    ensures !Reachable(l'.sys.w, 7)
    ensures l'.sys == l.sys.(w := l'.sys.w) && l'.sys.w == l.sys.w.(reg := l'.sys.w.reg)
  {
    var drop, notice := Make(Change(MarkOffline(7), l.clock), l.clock), Notice(7, l.clock);
    assert OpenOn(l.sys.w.leases, 0, 7);
    l' := Next(Next(l, drop, limits), notice, limits);
    TwoMoves(l, drop, notice, limits);
    moves := [drop, notice];
  }

  // A later pass gives the worker up; the restart comes before its hold is written.
  lemma GiveUpAndRestart(l: Live, limits: Limits) returns (moves: seq<Move>, l': Live)
    requires l.sys.todo == Nothing && l.sys.door.None? && l.unseen == map[7 := l.clock] && !Reachable(l.sys.w, 7)
    requires l.sys.w.leases == [NewLease(7, "first", None, 0)]
    ensures Moves(l, moves, l', limits)
    ensures |l'.sys.w.leases| == 1 && OpenLease(l'.sys.w.leases, 7).None?
    ensures l'.sys.w.fleet == l.sys.w.fleet && l'.sys.w.reg == Reg([], map[])
    ensures l'.sys.todo == Nothing && l'.sys.door == None && l'.sys.hist == l.sys.hist + [Stopped(7)]
  {
    hide *;
    var late := AfterGrace(l.clock, limits);
    assert late >= l.clock && late - l.clock > limits.lost by { GraceEnds(l.clock, limits); }
    assert OpenOn(l.sys.w.leases, 0, 7) by { FirstIsOpen(l.sys.w.leases); }
    var give, l1 := GiveUpLost(l, 0, 7, late, limits);
    EndedIsNotOpen(l1.sys.w.leases, 7);
    var restart;
    restart, l' := RestartHoldingBack(l1, late, limits);
    MovesThenMoves(l, give, l1, restart, l', limits);
    moves := give + restart;
  }

  lemma FirstIsOpen(leases: seq<Lease>)
    requires leases == [NewLease(7, "first", None, 0)]
    ensures OpenOn(leases, 0, 7)
  {
  }

  lemma RestartHoldingBack(l: Live, now: Instant, limits: Limits) returns (moves: seq<Move>, l': Live)
    requires now >= l.clock && l.sys.todo.HoldBack?
    ensures Moves(l, moves, l', limits) && l' == Restarted(l).(clock := now)
    ensures l'.sys == Sys(l.sys.w.(reg := Reg([], map[])), Nothing, None, l.sys.hist + [Stopped(l.sys.todo.node)])
  {
    var restart := Make(Restart, now);
    OneMove(l, restart, limits);
    moves, l' := [restart], Next(l, restart, limits);
  }

  // The first moment a worker not seen since is past the grace.
  function AfterGrace(since: Instant, limits: Limits): Instant {
    if limits.lost < 0 then since else since + limits.lost + 1
  }

  lemma GraceEnds(since: Instant, limits: Limits)
    ensures AfterGrace(since, limits) >= since && AfterGrace(since, limits) - since > limits.lost
  {
  }

  // A worker unseen for too long is given up: its lease ends and the hold is next.
  lemma GiveUpLost(l: Live, id: nat, n: NodeId, now: Instant, limits: Limits) returns (moves: seq<Move>, l': Live)
    requires l.sys.todo == Nothing && now >= l.clock && OpenOn(l.sys.w.leases, id, n)
    requires n in l.unseen && !Reachable(l.sys.w, n) && now - l.unseen[n] > limits.lost
    ensures moves == [Make(Begin(Lost(id, n), []), now), Make(Write, now)]
    ensures Moves(l, moves, l', limits) && l'.clock == now
    ensures |l'.sys.w.leases| == |l.sys.w.leases| && l'.sys.w.leases[id].state == Ended
    ensures l'.sys.w.fleet == l.sys.w.fleet && l'.sys.hist == l.sys.hist && l'.sys.door == l.sys.door
    ensures l'.sys.todo == HoldBack(n, Lost(id, n).why)
  {
    hide *;
    var begin, write := Make(Begin(Lost(id, n), []), now), Make(Write, now);
    MayGiveUp(l, id, n, now, limits);
    var l1 := Next(l, begin, limits);
    EndsTheLease(l1, now, limits);
    l' := Next(l1, write, limits);
    TwoMoves(l, begin, write, limits);
    moves := [begin, write];
  }

  lemma MayGiveUp(l: Live, id: nat, n: NodeId, now: Instant, limits: Limits)
    requires l.sys.todo == Nothing && now >= l.clock && OpenOn(l.sys.w.leases, id, n)
    requires n in l.unseen && !Reachable(l.sys.w, n) && now - l.unseen[n] > limits.lost
    ensures var begin := Make(Begin(Lost(id, n), []), now);
      Can(l, begin, limits) && Next(l, begin, limits).sys == l.sys.(todo := Lost(id, n))
      && Next(l, begin, limits).clock == now
    ensures Lost(id, n).GiveUp? && Lost(id, n).id == id && Lost(id, n).node == n && id < |l.sys.w.leases|
  {
    assert LostTooLong(l.sys.w, l.unseen, n, now, limits);
    assert l.sys.hist + [] == l.sys.hist;
    hide Reachable, LostTooLong;
  }

  lemma EndsTheLease(l: Live, now: Instant, limits: Limits)
    requires l.sys.todo.GiveUp? && l.sys.todo.id < |l.sys.w.leases| && now >= l.clock
    ensures Can(l, Make(Write, now), limits) && Next(l, Make(Write, now), limits).clock == now
    ensures var s' := Next(l, Make(Write, now), limits).sys;
      && |s'.w.leases| == |l.sys.w.leases| && s'.w.leases[l.sys.todo.id].state == Ended
      && s'.w.fleet == l.sys.w.fleet && s'.w.reg == l.sys.w.reg
      && s'.hist == l.sys.hist && s'.todo == HoldBack(l.sys.todo.node, l.sys.todo.why) && s'.door == l.sys.door
  {
    assert l.sys.hist + [] == l.sys.hist;
  }

  lemma EndedIsNotOpen(leases: seq<Lease>, n: NodeId)
    requires forall i :: 0 <= i < |leases| ==> leases[i].state == Ended
    ensures OpenLease(leases, n).None?
  {
  }

  lemma UncleanHistory(hist: seq<Event>)
    requires hist == [Opened(7, 0, "first"), Stopped(7), Opened(7, 1, "next")]
    ensures !CleanBetweenCustomers(hist)
  {
    assert OpensAt(hist, 0, 7) && OpensAt(hist, 2, 7);
    assert hist[..2] == [Opened(7, 0, "first"), Stopped(7)];
    assert !HasCleaned(hist[..2], 7, 0);
  }
}
