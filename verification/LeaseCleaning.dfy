// Clean between customers: the rest of the protocol invariant, which follows each worker's cleaning through the machine of
// LeaseProtocol and is kept by every step but a restart in the gap.
module LeaseCleaning {
  import opened Options
  import opened Registry
  import opened LeaseStore
  import opened LeaseWrites
  import opened LeaseProtocol
  import opened LeaseTenancy

  // ------------------------------------------------------------------ the invariant

  ghost predicate OpenOk(s: Sys, n: NodeId, i: nat, t: Track)
    requires i < |s.w.leases|
  {
    var row := s.w.leases[i];
    && n in s.w.fleet && s.w.fleet[n].held.None?
    && match row.state
       case Active => t.phase == Serving(i, row.org) && LeaseRef(i) !in t.issued && s.w.fleet[n].ref.None?
       case Ending =>
         && LeaseRef(i) !in t.issued && s.w.fleet[n].ref.None?
         && t.phase == if s.todo.Publish? && s.todo.node == n then Serving(i, row.org) else Dirty
       case Sanitizing =>
         if LeaseRef(i) in t.issued
         then s.w.fleet[n].ref == Some(LeaseRef(i)) && (t.phase == Waiting(LeaseRef(i)) || t.phase == Clean)
         else s.w.fleet[n].ref.None? && t.phase == Dirty
       case Ended => true
  }

  ghost predicate ClosedOk(s: Sys, n: NodeId, t: Track) {
    n in s.w.fleet ==>
      && (s.w.fleet[n].held.None? && !(s.todo.HoldBack? && s.todo.node == n) ==> t.phase == Fresh || t.phase == Clean)
      && (s.w.fleet[n].ref.Some? ==>
            t.phase == Waiting(s.w.fleet[n].ref.value) || t.phase == Fresh || t.phase == Clean)
      && (!Owes(s.todo, n) ==> !t.phase.Serving?)
  }

  ghost predicate NodeOk(s: Sys, n: NodeId) {
    var t := Follow(s.hist, n);
    && t.phase != Broken
    && (t.phase.Serving? || t.phase.Dirty? || t.phase.Waiting? ==> !t.heard)
    && (forall i :: OpenOn(s.w.leases, i, n) ==> OpenOk(s, n, i, t))
    && (NoneOpen(s.w.leases, n) ==> ClosedOk(s, n, t))
    && (forall j: nat :: LeaseRef(j) in t.issued ==> j < |s.w.leases|)
    && (n !in s.w.fleet ==> NoneOpen(s.w.leases, n) && t == Track(Fresh, {}, false))
    && (n in s.w.fleet ==> (s.w.fleet[n].since.None? <==> s.w.fleet[n].ref.None?))
  }

  // What the program's next write goes by, besides the tables.
  ghost predicate TodoOk(s: Sys) {
    var fleet := s.w.fleet;
    match s.todo
    case Open(nodes, _, _, _, _) => forall n :: n in nodes ==> n in fleet && fleet[n].held.None? && fleet[n].ref.None?
    case Publish(n, _) => n in fleet
    case Ask(id, n, _, _) => LeaseRef(id) !in Follow(s.hist, n).issued
    case FinishClean(_, n) => Follow(s.hist, n).phase == Clean
    case Clear(n) => n in fleet && Follow(s.hist, n).phase == Clean
    case HoldBack(n, _) => n in fleet && fleet[n].held.None?
    case StaffAsk(n, ref, _) => n in fleet && NoneOpen(s.w.leases, n) && ref.CleanRef?
    case StaffClear(n) => n in fleet && NoneOpen(s.w.leases, n)
    case StaffHold(n, _) => n in fleet && NoneOpen(s.w.leases, n)
    case StaffRelease(n) =>
      n in fleet && NoneOpen(s.w.leases, n) && (Follow(s.hist, n).phase == Clean || Follow(s.hist, n).phase == Fresh)
    case _ => true
  }

  ghost predicate Tables(s: Sys) { OneOpen(s.w.leases) && TodoServes(s.w, s.todo) }

  ghost predicate Cleans(s: Sys) {
    TodoOk(s) && forall n :: NodeOk(s, n)
  }

  ghost predicate Inv(s: Sys) { Serves(s) && Cleans(s) }

  lemma StartInv()
    ensures Inv(START)
  {
    StartServes();
  }

  // ------------------------------------------------------------------ a step leaves other workers alone

  ghost predicate SameFor(s: Sys, s': Sys, n: NodeId) {
    && Follow(s'.hist, n) == Follow(s.hist, n)
    && SameRows(s.w.leases, s'.w.leases, n)
    && (n in s'.w.fleet <==> n in s.w.fleet) && (n in s.w.fleet ==> s'.w.fleet[n] == s.w.fleet[n])
    && (Owes(s'.todo, n) <==> Owes(s.todo, n))
    && (s'.todo.HoldBack? && s'.todo.node == n <==> s.todo.HoldBack? && s.todo.node == n)
    && (s'.todo.Publish? && s'.todo.node == n <==> s.todo.Publish? && s.todo.node == n)
  }

  lemma SameNodeOk(s: Sys, s': Sys, n: NodeId)
    requires NodeOk(s, n) && SameFor(s, s', n)
    ensures NodeOk(s', n)
  {
    assert NoneOpen(s'.w.leases, n) <==> NoneOpen(s.w.leases, n);
    forall i | OpenOn(s'.w.leases, i, n) ensures OpenOk(s', n, i, Follow(s'.hist, n)) {
      assert OpenOn(s.w.leases, i, n);
    }
  }

  // All workers but m are as before; what remains is m and the program.
  lemma OneNodeStep(s: Sys, s': Sys, m: NodeId)
    requires Cleans(s) && (forall n :: n != m ==> SameFor(s, s', n)) && TodoOk(s') && NodeOk(s', m)
    ensures Cleans(s')
  {
    hide NodeOk, SameFor, TodoOk;
    forall n ensures NodeOk(s', n) {
      if n != m { SameNodeOk(s, s', n); }
    }
  }

  // The writes to one lease row.
  lemma WriteRow(s: Sys)
    requires Cleans(s) && Tables(s) && (s.todo.End? || s.todo.Sanitize? || s.todo.FinishClean? || s.todo.GiveUp?)
    ensures Cleans(Do(s, Write))
  {
    hide Follow;
    var s' := Do(s, Write);
    var m, id := s.todo.node, s.todo.id;
    RowChanged(s.w.leases, s'.w.leases, id);
    assert s'.hist == s.hist;
    assert OpenOn(s.w.leases, id, m) && NodeOk(s, m);
    forall n | n != m ensures SameFor(s, s', n) {}
    OneNodeStep(s, s', m);
  }

  lemma WriteTouch(s: Sys)
    requires Cleans(s) && Tables(s) && s.todo.Touch?
    ensures Cleans(Do(s, Write))
  {
    var s' := Do(s, Write);
    var id := s.todo.id;
    assert s'.hist == s.hist;
    if id < |s.w.leases| { OneOpenAfterUpdate(s.w.leases, id, s'.w.leases[id]); }
    forall n ensures NodeOk(s', n) && SameFor(s, s', n) {
      assert SameRows(s.w.leases, s'.w.leases, n);
      SameNodeOk(s, s', n);
    }
  }

  // The writes that change only m's fleet row: holds, releases, and clean-ups asked for or dropped.
  lemma WriteFleetRow(s: Sys)
    requires Cleans(s) && Tables(s)
    requires s.todo.Clear? || s.todo.HoldBack? || s.todo.StaffClear? || s.todo.StaffHold? || s.todo.StaffRelease?
    ensures Cleans(Do(s, Write))
  {
    var s' := Do(s, Write);
    var m := s.todo.node;
    assert s'.hist == s.hist;
    assert NodeOk(s, m);
    assert NoneOpen(s'.w.leases, m);
    forall n | n != m ensures SameFor(s, s', n) {}
    OneNodeStep(s, s', m);
  }

  // The request is noted: a dirty or waiting worker now waits for this one.
  lemma IssuedElsewhere(s: Sys, ref: Ref)
    requires (s.todo.Ask? && ref == LeaseRef(s.todo.id)) || (s.todo.StaffAsk? && ref == s.todo.ref)
    ensures Follow(Do(s, Write).hist, s.todo.node) == After(Follow(s.hist, s.todo.node), Issued(s.todo.node, ref))
    ensures forall n :: n != s.todo.node ==> SameFor(s, Do(s, Write), n)
  {
    hide Follow;
    var m := s.todo.node;
    forall n { FollowOne(s.hist, Issued(m, ref), n); }
  }

  lemma WriteAsk(s: Sys)
    requires Cleans(s) && Tables(s) && s.todo.Ask?
    ensures Cleans(Do(s, Write))
  {
    hide Follow, SameFor, TodoOk;
    var m := s.todo.node;
    IssuedElsewhere(s, LeaseRef(s.todo.id));
    assert NodeOk(s, m) && OpenOn(s.w.leases, s.todo.id, m) && LeaseRef(s.todo.id) !in Follow(s.hist, m).issued by {
      hide *;
      AskMeans(s);
    }
    assert NodeOk(Do(s, Write), m);
    assert TodoOk(Do(s, Write)) by { AskLeaves(s); }
    hide *;
    OneNodeStep(s, Do(s, Write), m);
  }

  lemma AskMeans(s: Sys)
    requires Cleans(s) && Tables(s) && s.todo.Ask?
    ensures NodeOk(s, s.todo.node) && OpenOn(s.w.leases, s.todo.id, s.todo.node)
    ensures LeaseRef(s.todo.id) !in Follow(s.hist, s.todo.node).issued && s.todo.node in s.w.fleet
  {
    hide Follow;
    var m := s.todo.node;
    assert OpenOn(s.w.leases, s.todo.id, m) && NodeOk(s, m);
  }

  lemma AskLeaves(s: Sys)
    requires s.todo.Ask? && s.todo.node in s.w.fleet
    ensures TodoOk(Do(s, Write))
  {
    hide Follow;
  }

  lemma WriteStaffAsk(s: Sys)
    requires Cleans(s) && Tables(s) && s.todo.StaffAsk?
    ensures Cleans(Do(s, Write))
  {
    hide Follow, SameFor;
    var m := s.todo.node;
    IssuedElsewhere(s, s.todo.ref);
    assert NodeOk(s, m);
    OneNodeStep(s, Do(s, Write), m);
  }

  lemma WritePublish(s: Sys)
    requires Cleans(s) && Tables(s) && s.todo.Publish? && s.door.None?
    ensures Cleans(Do(s, Write))
  {
    var s' := Do(s, Write);
    var m := s.todo.node;
    forall n ensures Follow(s'.hist, n) == if n == m then After(Follow(s.hist, n), Stopped(m)) else Follow(s.hist, n) {
      FollowOne(s.hist, Stopped(m), n);
    }
    assert NodeOk(s, m);
    forall n | n != m ensures SameFor(s, s', n) {}
    OneNodeStep(s, s', m);
  }

  lemma WriteActivate(s: Sys)
    requires Cleans(s) && Tables(s) && s.todo.Activate? && s.door.None?
    ensures Cleans(Do(s, Write))
  {
    var s' := Do(s, Write);
    assert s'.hist == s.hist;
    var nodes := s.todo.nodes;
    if nodes == [] {
      forall n ensures NodeOk(s', n) { SameNodeOk(s, s', n); }
    } else {
      var m := nodes[0];
      assert m in nodes && NodeOk(s, m);
      forall n | n != m ensures SameFor(s, s', n) {}
      OneNodeStep(s, s', m);
    }
  }

  lemma {:induction false} FollowOpened(hist: seq<Event>, nodes: seq<NodeId>, first: nat, org: OrgId, n: NodeId)
    requires Distinct(nodes)
    ensures n !in nodes ==> Follow(hist + OpenEvents(nodes, first, org), n) == Follow(hist, n)
    ensures forall k :: 0 <= k < |nodes| && nodes[k] == n ==>
      Follow(hist + OpenEvents(nodes, first, org), n) == After(Follow(hist, n), Opened(n, first + k, org))
    decreases |nodes|
  {
    hide After, Follow;
    if nodes == [] {
      assert hist + OpenEvents(nodes, first, org) == hist;
    } else {
      var k := |nodes| - 1;
      var front := OpenEvents(nodes[..k], first, org);
      FollowOpened(hist, nodes[..k], first, org, n);
      assert hist + OpenEvents(nodes, first, org) == (hist + front) + [Opened(nodes[k], first + k, org)];
      FollowOne(hist + front, Opened(nodes[k], first + k, org), n);
      assert nodes[k] !in nodes[..k];
    }
  }

  lemma OpenResult(s: Sys)
    requires Tables(s) && s.todo.Open?
    ensures Insertable(s.w.leases, s.todo.nodes)
    ensures var s' := Do(s, Write);
      && s'.w == s.w.(leases := s.w.leases + NewLeases(s.todo.nodes, s.todo.org, s.todo.who, s.todo.at))
      && s'.todo == Activate(s.todo.nodes, s.todo.org) && s'.door == s.door
      && s'.hist == s.hist + OpenEvents(s.todo.nodes, |s.w.leases|, s.todo.org)
      && OneOpen(s'.w.leases)
  {
    OneOpenAfterInsert(s.w.leases, s.todo.nodes, s.todo.org, s.todo.who, s.todo.at);
  }

  lemma OpenElsewhere(s: Sys, n: NodeId)
    requires Tables(s) && s.todo.Open? && n !in s.todo.nodes
    ensures SameFor(s, Do(s, Write), n)
  {
    hide Do, Exec, CountOpen;
    OpenResult(s);
    var nodes := s.todo.nodes;
    FollowOpened(s.hist, nodes, |s.w.leases|, s.todo.org, n);
    OpenedRows(s.w.leases, nodes, s.todo.org, s.todo.who, s.todo.at, n);
    hide Follow;
  }

  lemma OpenedNodeOk(s: Sys, n: NodeId)
    requires Cleans(s) && Tables(s) && s.todo.Open? && n in s.todo.nodes
    ensures NodeOk(Do(s, Write), n)
  {
    hide Do, Exec, Follow, CountOpen;
    OpenResult(s);
    var nodes, org, first := s.todo.nodes, s.todo.org, |s.w.leases|;
    var k :| 0 <= k < |nodes| && nodes[k] == n;
    FollowOpened(s.hist, nodes, first, org, n);
    OpenedRowAt(s.w.leases, nodes, org, s.todo.who, s.todo.at, k);
    assert NodeOk(s, n) && NoneOpen(s.w.leases, n) && n in s.w.fleet;
    var s' := Do(s, Write);
    assert OpenOn(s'.w.leases, first + k, n);
    assert Follow(s'.hist, n) == Track(Serving(first + k, org), Follow(s.hist, n).issued, false);
    hide Cleans, OneOpen, OpenEvents, Insertable;
    assert OpenOk(s', n, first + k, Follow(s'.hist, n));
  }

  lemma WriteOpen(s: Sys)
    requires Cleans(s) && Tables(s) && s.todo.Open?
    ensures Cleans(Do(s, Write))
  {
    hide Do, Exec, NodeOk, SameFor;
    var s' := Do(s, Write);
    OpenResult(s);
    forall n ensures NodeOk(s', n) {
      if n in s.todo.nodes {
        OpenedNodeOk(s, n);
      } else {
        OpenElsewhere(s, n);
        SameNodeOk(s, s', n);
      }
    }
  }

  // A clean answer: to the request now waiting, or to one answered before, so the worker is clean.
  lemma BeginHeard(s: Sys, todo: Todo, heard: seq<Event>)
    requires Cleans(s) && Enabled(s, Begin(todo, heard)) && (todo.FinishClean? || todo.StaffRelease?)
    ensures Cleans(Do(s, Begin(todo, heard)))
  {
    var s' := Do(s, Begin(todo, heard));
    var m := todo.node;
    forall n ensures Follow(s'.hist, n) == if n == m then After(Follow(s.hist, n), heard[0]) else Follow(s.hist, n) {
      FollowOne(s.hist, heard[0], n);
    }
    assert NodeOk(s, m);
    if todo.FinishClean? { assert OpenOn(s.w.leases, todo.id, m); }
    forall n | n != m ensures SameFor(s, s', n) {}
    OneNodeStep(s, s', m);
  }

  lemma BeginCleans(s: Sys, todo: Todo, heard: seq<Event>)
    requires Cleans(s) && Enabled(s, Begin(todo, heard))
    ensures Cleans(Do(s, Begin(todo, heard)))
  {
    if todo.FinishClean? || todo.StaffRelease? {
      BeginHeard(s, todo, heard);
    } else {
      hide Follow;
      var s' := Do(s, Begin(todo, heard));
      assert s'.hist == s.hist;
      forall n ensures NodeOk(s', n) {
        assert NodeOk(s, n);
        SameNodeOk(s, s', n);
      }
      if todo.Open? {
        assert forall n :: n in todo.nodes ==> NodeOk(s, n) && OpenLease(s.w.leases, n).None?;
      }
    }
  }

  // Registrations and the registry's own changes touch neither table nor what the history says of cleaning.
  lemma ElsewhereCleans(s: Sys, step: Step)
    requires Cleans(s) && Enabled(s, step) && (step.Knock? || step.Enter? || step.Change? || step.Take?)
    ensures Cleans(Do(s, step))
  {
    hide ApplyOp, Follow;
    var s' := Do(s, step);
    if step.Take? {
      forall n ensures Follow(s'.hist, n) == Follow(s.hist, n) {
        FollowOne(s.hist, Claimed(step.node, step.job.org), n);
      }
    } else {
      assert s'.hist == s.hist;
    }
    forall n ensures NodeOk(s', n) {
      assert NodeOk(s, n);
      SameNodeOk(s, s', n);
    }
  }

  lemma EnrolCleans(s: Sys, node: NodeId)
    requires Cleans(s)
    ensures Cleans(Do(s, Enrol(node)))
  {
    hide Follow;
    var s' := Do(s, Enrol(node));
    forall n ensures NodeOk(s', n) {
      assert NodeOk(s, n);
      if n != node { SameNodeOk(s, s', n); }
    }
  }

  lemma RestartNodeOk(s: Sys, n: NodeId)
    requires Cleans(s) && Tables(s) && !InGap(s)
    ensures NodeOk(Do(s, Restart), n)
  {
    hide OneOpen, NodeOk;
    if s.todo.Publish? || s.todo.HoldBack? {
      FollowOne(s.hist, Stopped(s.todo.node), n);
      if n != s.todo.node {
        SameNodeOk(s, Do(s, Restart), n);
      } else {
        RestartOwedNodeOk(s);
      }
    } else {
      RestartIdleNodeOk(s, n);
    }
  }

  lemma RestartOwedNodeOk(s: Sys)
    requires Cleans(s) && Tables(s) && !InGap(s) && (s.todo.Publish? || s.todo.HoldBack?) && NodeOk(s, s.todo.node)
    ensures NodeOk(Do(s, Restart), s.todo.node)
  {
    hide Exec, Follow, Cleans;
    var s' := Do(s, Restart);
    var n := s.todo.node;
    FollowOne(s.hist, Stopped(n), n);
    assert Follow(s'.hist, n) == After(Follow(s.hist, n), Stopped(n));
    assert s'.w.leases == s.w.leases && s'.w.fleet == s.w.fleet;
  }

  lemma RestartIdleNodeOk(s: Sys, n: NodeId)
    requires Cleans(s) && Tables(s) && !s.todo.Publish? && !s.todo.HoldBack?
    ensures NodeOk(Do(s, Restart), n)
  {
    hide OneOpen, Follow;
    var s' := Do(s, Restart);
    assert s'.hist == s.hist && NodeOk(s, n);
    if s.todo.Ask? {
      assert OpenOn(s.w.leases, s.todo.id, s.todo.node);
    }
    assert NoneOpen(s.w.leases, n) && Owes(s.todo, n) ==> s.todo == Clear(n);
  }

  lemma RestartCleans(s: Sys)
    requires Cleans(s) && Tables(s) && !InGap(s)
    ensures Cleans(Do(s, Restart))
  {
    hide NodeOk;
    forall n ensures NodeOk(Do(s, Restart), n) { RestartNodeOk(s, n); }
  }

  lemma WriteCleans(s: Sys)
    requires Cleans(s) && Tables(s) && Enabled(s, Write)
    ensures Cleans(Do(s, Write))
  {
    hide Cleans, Tables, Do;
    match s.todo {
      case Open(_, _, _, _, _) => WriteOpen(s);
      case Activate(_, _) => WriteActivate(s);
      case Publish(_, _) => WritePublish(s);
      case End(_, _, _, _, _) => WriteRow(s);
      case Sanitize(_, _, _, _) => WriteRow(s);
      case FinishClean(_, _) => WriteRow(s);
      case GiveUp(_, _, _, _, _, _) => WriteRow(s);
      case Ask(_, _, _, _) => WriteAsk(s);
      case StaffAsk(_, _, _) => WriteStaffAsk(s);
      case Touch(_, _) => WriteTouch(s);
      case _ => WriteFleetRow(s);
    }
  }

  // Every step but a restart in the gap keeps the whole invariant.
  lemma StepInv(s: Sys, step: Step)
    requires Inv(s) && Enabled(s, step) && (step.Restart? ==> !InGap(s))
    ensures Inv(Do(s, step))
  {
    StepServes(s, step);
    assert Tables(s) by { hide Cleans, OneOpen, TodoServes; }
    hide Serves, Cleans, Tables, Do;
    match step {
      case Begin(todo, heard) => BeginCleans(s, todo, heard);
      case Write => WriteCleans(s);
      case Enrol(n) => EnrolCleans(s, n);
      case Restart => RestartCleans(s);
      case _ => ElsewhereCleans(s, step);
    }
  }

  lemma RestartInv(s: Sys)
    requires Inv(s) && !InGap(s)
    ensures Inv(Do(s, Restart))
  {
    hide Inv, Do;
    StepInv(s, Restart);
  }

  lemma {:induction false} RunInv(s: Sys, steps: seq<Step>, s': Sys)
    requires Inv(s) && Leads(s, steps, s') && Orderly(s, steps)
    ensures Inv(s')
    decreases |steps|
  {
    hide Inv, Do, Enabled, InGap;
    if steps != [] {
      StepInv(s, steps[0]);
      RunInv(Do(s, steps[0]), steps[1..], s');
    }
  }
}
