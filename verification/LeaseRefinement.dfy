// Every operation of the lease manager is a run of the machine: what the class methods are proved to do (their
// specification functions) is reached by steps that LeaseProtocol allows, so its theorems speak about the manager.
module LeaseRefinement {
  import opened Options
  import opened Registry
  import opened LeaseStore
  import opened LeaseWrites
  import opened LeaseProtocol
  import opened LeaseTenancy
  import opened LeaseCleaning
  import opened LeaseRestart
  import opened LeaseStranding
  import opened WorkerLeases

  // The manager is between operations and no registration is under way.
  predicate AtRest(s: Sys) { s.todo == Nothing && s.door.None? }

  // The machine can get from s to w, making only manager steps, and is then at rest again.
  ghost predicate Reaches(s: Sys, steps: seq<Step>, s': Sys, w: World) {
    && Leads(s, steps, s') && AtRest(s') && s'.w == w
    && forall i :: 0 <= i < |steps| ==> steps[i].Begin? || steps[i].Write?
  }

  lemma ReachesThen(s: Sys, a: seq<Step>, mid: Sys, b: seq<Step>, s': Sys)
    requires Reaches(s, a, mid, mid.w) && Reaches(mid, b, s', s'.w)
    ensures Reaches(s, a + b, s', s'.w)
  {
    RunThenRun(s, a, mid, b, s');
  }

  lemma {:induction false} WritesRun(s: Sys) returns (steps: seq<Step>, s': Sys)
    requires s.door.None?
    ensures Reaches(s, steps, s', RunAlone(s.w, s.todo))
    decreases Left(s.todo)
  {
    if s.todo == Nothing {
      steps, s' := [], s;
    } else {
      var rest;
      rest, s' := WritesRun(Do(s, Write));
      steps := [Write] + rest;
      assert steps[1..] == rest;
    }
  }

  // A decided program runs to its end, one write at a time, exactly as it does alone.
  lemma ProgramRuns(s: Sys, todo: Todo, heard: seq<Event>) returns (steps: seq<Step>, s': Sys)
    requires AtRest(s) && Decided(s, todo, heard)
    ensures Reaches(s, steps, s', RunAlone(s.w, todo))
  {
    var begin := Begin(todo, heard);
    var rest;
    rest, s' := WritesRun(Do(s, begin));
    steps := [begin] + rest;
    assert steps[1..] == rest;
  }

  lemma RequestRuns(s: Sys, org: OrgId, count: Count, cap: int, who: Option<string>, at: Instant)
    returns (steps: seq<Step>, s': Sys)
    requires AtRest(s) && WellFormed(s.w.reg) && OneOpen(s.w.leases)
    requires Refusal(s.w, org, count, cap).None?
    ensures Reaches(s, steps, s', RunAlone(s.w, Open(Chosen(s.w, count.n), org, who, at, cap)))
    ensures Rivalled(s.w, [], org, at) == s.w
  {
    RequestGrantsExactly(s.w, org, count, cap, who, at);
    steps, s' := ProgramRuns(s, Open(Chosen(s.w, count.n), org, who, at, cap), []);
    assert s.w.leases + NewLeases([], org, None, at) == s.w.leases;
  }

  lemma GiveUpRuns(s: Sys, id: nat, n: NodeId, result: string, why: string, noted: Option<string>,
                   notedBy: Option<string>)
    returns (steps: seq<Step>, s': Sys)
    requires AtRest(s) && OpenOn(s.w.leases, id, n)
    ensures Reaches(s, steps, s', GivenUp(s.w, id, n, result, why, noted, notedBy))
  {
    RunGiveUp(s.w, id, n, result, why, noted, notedBy);
    steps, s' := ProgramRuns(s, GiveUp(id, n, result, why, noted, notedBy), []);
  }

  lemma AdvanceRuns(s: Sys, id: nat, now: Instant, delivered: bool) returns (steps: seq<Step>, s': Sys)
    requires AtRest(s)
    ensures Reaches(s, steps, s', Advance(s.w, id, now, delivered))
  {
    if !AdvanceReady(s.w, id) {
      steps, s' := [], s;
    } else {
      var n, org := s.w.leases[id].node, s.w.leases[id].org;
      RunSanitize(s.w, id, n, org, now);
      steps, s' := ProgramRuns(s, Sanitize(id, n, org, now), []);
      if !delivered {
        var mid, a, b := s', steps, steps;
        b, s' := GiveUpRuns(mid, id, n, "failed: " + "the clean-up request could not be delivered",
                            "clean-up failed: " + "the clean-up request could not be delivered", None, None);
        ReachesThen(s, a, mid, b, s');
        steps := a + b;
      }
    }
  }

  lemma EndActiveRuns(s: Sys, id: nat, reason: string, byWhom: string, now: Instant, delivered: bool)
    returns (steps: seq<Step>, s': Sys)
    requires AtRest(s)
    ensures Reaches(s, steps, s', EndActive(s.w, id, reason, byWhom, now, delivered))
  {
    if !InState(s.w, id, Active) {
      steps, s' := [], s;
    } else {
      hide Advance;
      var n, org := s.w.leases[id].node, s.w.leases[id].org;
      RunEnd(s.w, id, n, org, reason, byWhom);
      var a, mid := ProgramRuns(s, End(id, n, org, reason, byWhom), []);
      var b;
      b, s' := AdvanceRuns(mid, id, now, delivered);
      ReachesThen(s, a, mid, b, s');
      steps := a + b;
    }
  }

  // A worker's answer, whatever it is, save to a lease that was stranded before it was asked anything.
  lemma AnswerRuns(s: Sys, n: NodeId, ref: Ref, ok: bool, detail: string) returns (steps: seq<Step>, s': Sys)
    requires AtRest(s) && Inv(s) && (ref.LeaseRef? ==> !Stranded(s, ref.lease))
    ensures Reaches(s, steps, s', RunAlone(s.w, OnAnswer(s.w, n, ref, ok, detail)))
  {
    var todo := OnAnswer(s.w, n, ref, ok, detail);
    if todo == Nothing {
      steps, s' := [], s;
    } else {
      steps, s' := ProgramRuns(s, todo, if ok then [Answered(n, ref)] else []);
    }
  }

  // A staff clean-up with a fresh ref, and the same when the request cannot be delivered.
  lemma StaffCleanRuns(s: Sys, n: NodeId, ref: Ref, at: Instant, delivered: bool)
    returns (steps: seq<Step>, s': Sys)
    requires AtRest(s) && n in s.w.fleet && NoneOpen(s.w.leases, n)
    requires ref.CleanRef? && ref !in Follow(s.hist, n).issued
    ensures Reaches(s, steps, s', s.w.(fleet := if delivered then Asked(s.w.fleet, n, ref, at) else Cleared(s.w.fleet, n)))
  {
    steps, s' := ProgramRuns(s, StaffAsk(n, ref, at), []);
    assert RunAlone(s.w, StaffAsk(n, ref, at)) == s.w.(fleet := Asked(s.w.fleet, n, ref, at)) by {
      RunShort(s.w, StaffAsk(n, ref, at));
    }
    if !delivered {
      var mid, a, b := s', steps, steps;
      b, s' := ProgramRuns(mid, StaffClear(n), []);
      RunShort(mid.w, StaffClear(n));
      ReachesThen(s, a, mid, b, s');
      steps := a + b;
    }
  }

  lemma TickStateRuns(s: Sys, id: nat, now: Instant, limits: Limits, delivered: bool)
    returns (steps: seq<Step>, s': Sys)
    requires AtRest(s) && id < |s.w.leases|
    ensures Reaches(s, steps, s', TickState(s.w, id, now, limits, delivered))
  {
    hide EndActive, Advance, Reaches;
    var lease := s.w.leases[id];
    if lease.state == Active && InUse(s.w, lease) {
      RunShort(s.w, Todo.Touch(id, now));
      steps, s' := ProgramRuns(s, Todo.Touch(id, now), []);
    } else if lease.state == Active && now - lease.lastActivity > limits.idle {
      steps, s' := EndActiveRuns(s, id, "idle", "system", now, delivered);
    } else if lease.state == Ending {
      steps, s' := AdvanceRuns(s, id, now, delivered);
    } else if lease.state == Sanitizing && lease.node in s.w.fleet
              && Expired(s.w.fleet[lease.node].since, now, limits.sanitize) {
      steps, s' := GiveUpRuns(s, id, lease.node, "failed: " + "the worker did not answer in time",
                              "clean-up failed: " + "the worker did not answer in time", None, None);
    } else {
      steps, s' := Standing(s);
    }
  }

  lemma Standing(s: Sys) returns (steps: seq<Step>, s': Sys)
    requires AtRest(s)
    ensures Reaches(s, steps, s', s.w)
  {
    steps, s' := [], s;
  }

  lemma TickOneRuns(s: Sys, unseen: Unseen, id: nat, now: Instant, limits: Limits, delivered: bool)
    returns (steps: seq<Step>, s': Sys)
    requires AtRest(s) && id < |s.w.leases| && s.w.leases[id].state != Ended
    ensures Reaches(s, steps, s', TickOne(s.w, unseen, id, now, limits, delivered).0)
  {
    hide TickState, Reaches;
    var n := s.w.leases[id].node;
    if LostTooLong(s.w, Noticed(s.w, unseen, n, now), n, now, limits) {
      var lost := Lost(id, n);
      steps, s' := GiveUpRuns(s, id, n, lost.result, lost.why, lost.noted, lost.notedBy);
    } else {
      steps, s' := TickStateRuns(s, id, now, limits, delivered);
    }
  }

  lemma {:induction false} TickLeasesRuns(s: Sys, unseen: Unseen, ids: seq<nat>, now: Instant, limits: Limits,
                                          deliver: set<nat>)
    returns (steps: seq<Step>, s': Sys)
    requires AtRest(s) && forall i, j :: 0 <= i < j < |ids| ==> ids[i] != ids[j]
    requires forall i :: 0 <= i < |ids| ==> ids[i] < |s.w.leases| && s.w.leases[ids[i]].state != Ended
    ensures Reaches(s, steps, s', TickLeases(s.w, unseen, ids, now, limits, deliver).0)
    ensures |s'.w.leases| == |s.w.leases|
    ensures forall id :: 0 <= id < |s.w.leases| && id !in ids ==> s'.w.leases[id] == s.w.leases[id]
    decreases |ids|
  {
    hide TickOne, Leads;
    if ids == [] {
      steps, s' := Standing(s);
    } else {
      var k := |ids| - 1;
      var a, mid := TickLeasesRuns(s, unseen, ids[..k], now, limits, deliver);
      var unseen1 := TickLeases(s.w, unseen, ids[..k], now, limits, deliver).1;
      assert ids[k] !in ids[..k];
      TickOneOnlyRow(mid.w, unseen1, ids[k], now, limits, ids[k] in deliver);
      var b;
      b, s' := TickOneRuns(mid, unseen1, ids[k], now, limits, ids[k] in deliver);
      ReachesThen(s, a, mid, b, s');
      steps := a + b;
    }
  }

  // Hold the listed workers one by one.
  function HeldAll(fleet: map<NodeId, FleetRow>, nodes: set<NodeId>): map<NodeId, FleetRow> {
    map n | n in fleet :: if n in nodes then FleetRow(Some("clean-up timed out"), None, None) else fleet[n]
  }

  lemma {:induction false} HoldsRun(s: Sys, nodes: set<NodeId>) returns (steps: seq<Step>, s': Sys)
    requires AtRest(s) && nodes <= s.w.fleet.Keys && forall n :: n in nodes ==> NoneOpen(s.w.leases, n)
    ensures Reaches(s, steps, s', s.w.(fleet := HeldAll(s.w.fleet, nodes)))
    decreases |nodes|
  {
    hide Leads;
    if n :| n in nodes {
      RunShort(s.w, StaffHold(n, "clean-up timed out"));
      var a, mid := ProgramRuns(s, StaffHold(n, "clean-up timed out"), []);
      var b;
      b, s' := HoldsRun(mid, nodes - {n});
      ReachesThen(s, a, mid, b, s');
      steps := a + b;
      assert HeldAll(mid.w.fleet, nodes - {n}) == HeldAll(s.w.fleet, nodes);
    } else {
      steps, s' := Standing(s);
      assert forall n :: n in s.w.fleet ==> n !in nodes;
      assert HeldAll(s.w.fleet, nodes) == s.w.fleet;
    }
  }

  // A whole reaper pass is a run.
  lemma TickRuns(s: Sys, unseen: Unseen, now: Instant, limits: Limits, deliver: set<nat>)
    returns (steps: seq<Step>, s': Sys)
    requires AtRest(s)
    ensures Reaches(s, steps, s', Tick(s.w, unseen, now, limits, deliver).0)
  {
    hide TickLeases, Leads;
    var a, mid := TickLeasesRuns(s, unseen, OpenIds(s.w.leases), now, limits, deliver);
    var overdue := set n | n in mid.w.fleet && Expired(mid.w.fleet[n].since, now, limits.sanitize)
                           && OpenLease(mid.w.leases, n).None?;
    var b;
    b, s' := HoldsRun(mid, overdue);
    assert HeldAll(mid.w.fleet, overdue) == OverdueHeld(mid.w.leases, mid.w.fleet, now, limits.sanitize);
    ReachesThen(s, a, mid, b, s');
    steps := a + b;
  }

  // So any manager operation started in a good state ends in one.
  lemma ManagerKeepsInv(s: Sys, steps: seq<Step>, s': Sys, w: World)
    requires Inv(s) && Reaches(s, steps, s', w)
    ensures Inv(s')
  {
    NoRestartIsOrderly(s, steps);
    RunInv(s, steps, s');
  }
}
