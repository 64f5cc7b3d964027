// What no restart can break: at most one open lease per worker, a cache that agrees with the tables, claims for the
// customer being served, and the cap. The part of the protocol invariant that knows nothing of cleaning, kept by every
// step of the machine in LeaseProtocol whatever its restarts come between.
module LeaseTenancy {
  import opened Options
  import opened Registry
  import opened LeaseStore
  import opened LeaseWrites
  import opened Scheduler
  import opened LeaseProtocol

  // The customer whose lease on n takes jobs: the one it was last opened for, unless it has been stopped since.
  function Tenant(hist: seq<Event>, n: NodeId): Option<OrgId> {
    if hist == [] then None
    else
      var last := |hist| - 1;
      if hist[last].node != n then Tenant(hist[..last], n)
      else match hist[last]
        case Opened(_, _, org) => Some(org)
        case Stopped(_) => None
        case _ => Tenant(hist[..last], n)
  }

  lemma TenantOne(hist: seq<Event>, e: Event, n: NodeId)
    ensures Tenant(hist + [e], n) ==
      if e == Stopped(n) then None else if e.Opened? && e.node == n then Some(e.org) else Tenant(hist, n)
  {
    assert (hist + [e])[..|hist|] == hist;
  }

  // Every claim so far was for the customer then served.
  ghost predicate ClaimsServe(hist: seq<Event>) {
    forall k :: 0 <= k < |hist| && hist[k].Claimed? ==>
      hist[k].forOrg.Some? && Tenant(hist[..k], hist[k].node) == hist[k].forOrg
  }

  lemma ClaimsServeOne(hist: seq<Event>, e: Event)
    requires ClaimsServe(hist) && (e.Claimed? ==> e.forOrg.Some? && Tenant(hist, e.node) == e.forOrg)
    ensures ClaimsServe(hist + [e])
  {
    forall k | 0 <= k < |hist + [e]| && (hist + [e])[k].Claimed?
      ensures (hist + [e])[k].forOrg.Some? && Tenant((hist + [e])[..k], (hist + [e])[k].node) == (hist + [e])[k].forOrg
    {
      assert (hist + [e])[..k] == hist[..k];
      assert hist[..|hist|] == hist;
    }
  }

  // ------------------------------------------------------------------ the invariant

  // A cached lease says what the lease table says.
  ghost predicate Agrees(leases: seq<Lease>, n: NodeId, lease: LeaseView) {
    && (NoneOpen(leases, n) ==> lease.None?)
    && (forall i :: OpenOn(leases, i, n) ==> lease == Some((leases[i].org, leases[i].state)))
  }

  ghost predicate CacheServes(s: Sys, n: NodeId, lease: LeaseView) {
    && (Owes(s.todo, n) || Agrees(s.w.leases, n, lease))
    && (lease.Some? && lease.value.1 == Active ==> Tenant(s.hist, n) == Some(lease.value.0))
  }

  ghost predicate NodeServes(s: Sys, n: NodeId) {
    && (forall i :: OpenOn(s.w.leases, i, n) && s.w.leases[i].state == Active ==>
          Tenant(s.hist, n) == Some(s.w.leases[i].org))
    && (n in s.w.reg.nodes ==>
          Lawful(s.w.reg.nodes[n]) && (s.w.reg.nodes[n].fleet ==> CacheServes(s, n, s.w.reg.nodes[n].lease)))
  }

  ghost predicate DoorServes(s: Sys) {
    s.door.Some? && s.door.value.member ==> CacheServes(s, s.door.value.node, s.door.value.lease)
  }

  ghost predicate TodoServes(w: World, todo: Todo) {
    match todo
    case Open(nodes, org, _, _, cap) =>
      && Distinct(nodes) && CountOpen(w.leases, org) + |nodes| <= cap
      && forall n :: n in nodes ==> NoneOpen(w.leases, n)
    case Activate(nodes, org) =>
      Distinct(nodes) && forall n :: n in nodes ==> !NoneOpen(w.leases, n) && Agrees(w.leases, n, Some((org, Active)))
    case Publish(n, lease) =>
      Agrees(w.leases, n, lease) && (lease.Some? ==> !NoneOpen(w.leases, n) && lease.value.1 != Active)
    case End(id, n, org, _, _) => Matches(w, id, Active, n, org)
    case Sanitize(id, n, org, _) => Matches(w, id, Ending, n, org)
    case Ask(id, n, org, _) => Matches(w, id, Sanitizing, n, org)
    case FinishClean(id, n) => InState(w, id, Sanitizing) && w.leases[id].node == n
    case GiveUp(id, n, _, _, _, _) => OpenOn(w.leases, id, n)
    case Clear(n) => NoneOpen(w.leases, n)
    case HoldBack(n, _) => NoneOpen(w.leases, n)
    case _ => true
  }

  ghost predicate Serves(s: Sys) {
    && OneOpen(s.w.leases) && TodoServes(s.w, s.todo) && DoorServes(s) && ClaimsServe(s.hist)
    && forall n :: NodeServes(s, n)
  }

  lemma StartServes()
    ensures Serves(START)
  {
  }

  // ------------------------------------------------------------------ a step leaves other workers alone

  ghost predicate SameTenancy(s: Sys, s': Sys, n: NodeId) {
    && Tenant(s'.hist, n) == Tenant(s.hist, n)
    && SameRows(s.w.leases, s'.w.leases, n)
    && (n in s'.w.reg.nodes ==> n in s.w.reg.nodes && s'.w.reg.nodes[n] == s.w.reg.nodes[n])
    && (Owes(s.todo, n) ==> Owes(s'.todo, n))
  }

  lemma SameCacheServes(s: Sys, s': Sys, n: NodeId, lease: LeaseView)
    requires CacheServes(s, n, lease) && SameTenancy(s, s', n)
    ensures CacheServes(s', n, lease)
  {
    assert NoneOpen(s'.w.leases, n) <==> NoneOpen(s.w.leases, n);
  }

  lemma SameNodeServes(s: Sys, s': Sys, n: NodeId)
    requires NodeServes(s, n) && SameTenancy(s, s', n)
    ensures NodeServes(s', n)
  {
    hide CacheServes, Lawful, Tenant;
    if n in s'.w.reg.nodes && s'.w.reg.nodes[n].fleet { SameCacheServes(s, s', n, s.w.reg.nodes[n].lease); }
  }

  // All workers but m are as before; what remains is m, the program and the door.
  lemma OneNodeServes(s: Sys, s': Sys, m: NodeId)
    requires Serves(s) && s'.door == s.door
    requires forall n :: n != m ==> SameTenancy(s, s', n)
    requires OneOpen(s'.w.leases) && TodoServes(s'.w, s'.todo) && ClaimsServe(s'.hist) && NodeServes(s', m)
    requires s.door.Some? && s.door.value.member && s.door.value.node == m ==> CacheServes(s', m, s.door.value.lease)
    ensures Serves(s')
  {
    hide NodeServes, CacheServes, SameTenancy, TodoServes, ClaimsServe, OneOpen;
    forall n ensures NodeServes(s', n) {
      if n != m { SameNodeServes(s, s', n); }
    }
    if s.door.Some? && s.door.value.member && s.door.value.node != m {
      SameCacheServes(s, s', s.door.value.node, s.door.value.lease);
    }
  }

  // ------------------------------------------------------------------ the steps

  // The writes to one lease row: it moves on or ends, and the registry has yet to hear of it.
  lemma RowWriteServes(s: Sys)
    requires Serves(s) && (s.todo.End? || s.todo.Sanitize? || s.todo.FinishClean? || s.todo.GiveUp?)
    ensures Serves(Do(s, Write))
  {
    hide Tenant, ClaimsServe, Lawful;
    var s' := Do(s, Write);
    var m, id := s.todo.node, s.todo.id;
    assert OpenOn(s.w.leases, id, m);
    RowChanged(s.w.leases, s'.w.leases, id);
    assert s'.hist == s.hist && NodeServes(s, m);
    forall n | n != m ensures SameTenancy(s, s', n) {}
    OneNodeServes(s, s', m);
  }

  lemma TouchServes(s: Sys)
    requires Serves(s) && s.todo.Touch?
    ensures Serves(Do(s, Write))
  {
    hide Tenant, ClaimsServe, Lawful;
    var s' := Do(s, Write);
    var id := s.todo.id;
    assert s'.hist == s.hist;
    if id < |s.w.leases| { OneOpenAfterUpdate(s.w.leases, id, s'.w.leases[id]); }
    forall n ensures SameTenancy(s, s', n) {}
    assert NodeServes(s, 0);
    SameNodeServes(s, s', 0);
    if s.door.Some? && s.door.value.member { SameCacheServes(s, s', s.door.value.node, s.door.value.lease); }
    OneNodeServes(s, s', 0);
  }

  // The writes to m's fleet row, with the request they may note.
  lemma FleetWriteServes(s: Sys)
    requires Serves(s)
    requires s.todo.Ask? || s.todo.Clear? || s.todo.HoldBack?
          || s.todo.StaffAsk? || s.todo.StaffClear? || s.todo.StaffHold? || s.todo.StaffRelease?
    ensures Serves(Do(s, Write))
  {
    hide Tenant, ClaimsServe, Lawful;
    var s' := Do(s, Write);
    var m := s.todo.node;
    var logged := Logged(s.w, s.todo);
    if logged == [] {
      assert s'.hist == s.hist;
    } else {
      assert logged == [logged[0]];
      forall n { TenantOne(s.hist, logged[0], n); }
      ClaimsServeOne(s.hist, logged[0]);
    }
    forall n | n != m ensures SameTenancy(s, s', n) {}
    assert NodeServes(s, m);
    if s.todo.Ask? { assert OpenOn(s.w.leases, s.todo.id, m); }
    OneNodeServes(s, s', m);
  }

  lemma PublishServes(s: Sys)
    requires Serves(s) && s.todo.Publish? && s.door.None?
    ensures Serves(Do(s, Write))
  {
    hide Tenant, ClaimsServe;
    var s' := Do(s, Write);
    var m := s.todo.node;
    forall n { TenantOne(s.hist, Stopped(m), n); }
    ClaimsServeOne(s.hist, Stopped(m));
    forall n | n != m ensures SameTenancy(s, s', n) {}
    assert NodeServes(s, m);
    OneNodeServes(s, s', m);
  }

  lemma ActivateServes(s: Sys)
    requires Serves(s) && s.todo.Activate? && s.door.None?
    ensures Serves(Do(s, Write))
  {
    hide Tenant, ClaimsServe;
    var s' := Do(s, Write);
    assert s'.hist == s.hist;
    var nodes := s.todo.nodes;
    var m := if nodes == [] then 0 else nodes[0];
    assert nodes != [] ==> m in nodes;
    assert NodeServes(s, m);
    forall n | n != m ensures SameTenancy(s, s', n) {}
    OneNodeServes(s, s', m);
  }

  lemma {:induction false} TenantOpened(hist: seq<Event>, nodes: seq<NodeId>, first: nat, org: OrgId, n: NodeId)
    requires ClaimsServe(hist)
    ensures Tenant(hist + OpenEvents(nodes, first, org), n) == if n in nodes then Some(org) else Tenant(hist, n)
    ensures ClaimsServe(hist + OpenEvents(nodes, first, org))
    decreases |nodes|
  {
    hide Tenant, ClaimsServe;
    if nodes == [] {
      assert hist + OpenEvents(nodes, first, org) == hist;
    } else {
      var k := |nodes| - 1;
      var front := OpenEvents(nodes[..k], first, org);
      TenantOpened(hist, nodes[..k], first, org, n);
      assert nodes == nodes[..k] + [nodes[k]];
      assert hist + OpenEvents(nodes, first, org) == (hist + front) + [Opened(nodes[k], first + k, org)];
      TenantOne(hist + front, Opened(nodes[k], first + k, org), n);
      ClaimsServeOne(hist + front, Opened(nodes[k], first + k, org));
    }
  }

  // The inserted rows: one for each worker asked for, which had none, and nothing new for any other.
  lemma OpenedRowAt(leases: seq<Lease>, nodes: seq<NodeId>, org: OrgId, who: Option<string>, at: Instant, k: nat)
    requires Distinct(nodes) && k < |nodes| && NoneOpen(leases, nodes[k])
    ensures var leases' := leases + NewLeases(nodes, org, who, at);
      && leases'[|leases| + k] == NewLease(nodes[k], org, who, at)
      && forall i :: OpenOn(leases', i, nodes[k]) <==> i == |leases| + k
  {
    var leases' := leases + NewLeases(nodes, org, who, at);
    forall i ensures OpenOn(leases', i, nodes[k]) <==> i == |leases| + k {
      assert 0 <= i < |leases| ==> (OpenOn(leases', i, nodes[k]) <==> OpenOn(leases, i, nodes[k]));
      assert |leases| <= i < |leases'| ==> leases'[i] == NewLease(nodes[i - |leases|], org, who, at);
    }
  }

  lemma OpenedRows(leases: seq<Lease>, nodes: seq<NodeId>, org: OrgId, who: Option<string>, at: Instant, n: NodeId)
    requires Distinct(nodes) && forall m :: m in nodes ==> NoneOpen(leases, m)
    ensures var leases' := leases + NewLeases(nodes, org, who, at);
      if n in nodes then !NoneOpen(leases', n) && Agrees(leases', n, Some((org, Active))) else SameRows(leases, leases', n)
  {
    var leases' := leases + NewLeases(nodes, org, who, at);
    if n in nodes {
      var k :| 0 <= k < |nodes| && nodes[k] == n;
      OpenedRowAt(leases, nodes, org, who, at, k);
      assert OpenOn(leases', |leases| + k, n);
    } else {
      forall i ensures OpenOn(leases', i, n) <==> OpenOn(leases, i, n) {
        if |leases| <= i < |leases'| { assert nodes[i - |leases|] in nodes; }
      }
    }
  }

  lemma OpenServes(s: Sys)
    requires Serves(s) && s.todo.Open?
    ensures Serves(Do(s, Write))
  {
    hide Tenant, ClaimsServe, Lawful, OpenEvents, NodeServes, CacheServes, SameTenancy, CountOpen;
    var s' := Do(s, Write);
    var nodes, org := s.todo.nodes, s.todo.org;
    OneOpenAfterInsert(s.w.leases, nodes, org, s.todo.who, s.todo.at);
    assert Insertable(s.w.leases, nodes);
    assert s'.w.leases == s.w.leases + NewLeases(nodes, org, s.todo.who, s.todo.at);
    assert s'.hist == s.hist + OpenEvents(nodes, |s.w.leases|, org);
    assert ClaimsServe(s'.hist) by { TenantOpened(s.hist, nodes, |s.w.leases|, org, 0); }
    forall n ensures NodeServes(s', n) {
      assert NodeServes(s, n);
      OpenNodeServes(s, n);
    }
    forall n | n in nodes ensures !NoneOpen(s'.w.leases, n) && Agrees(s'.w.leases, n, Some((org, Active))) {
      OpenedRows(s.w.leases, nodes, org, s.todo.who, s.todo.at, n);
    }
    if s.door.Some? && s.door.value.member { OpenCacheServes(s, s.door.value.node, s.door.value.lease); }
  }

  lemma OpenCacheServes(s: Sys, n: NodeId, lease: LeaseView)
    requires s.todo.Open? && TodoServes(s.w, s.todo) && ClaimsServe(s.hist) && CacheServes(s, n, lease)
    ensures CacheServes(Do(s, Write), n, lease)
  {
    hide Tenant, ClaimsServe, OpenEvents, CountOpen;
    var nodes, org := s.todo.nodes, s.todo.org;
    assert Insertable(s.w.leases, nodes);
    TenantOpened(s.hist, nodes, |s.w.leases|, org, n);
    OpenedRows(s.w.leases, nodes, org, s.todo.who, s.todo.at, n);
    if n !in nodes { SameCacheServes(s, Do(s, Write), n, lease); }
  }

  lemma OpenNodeServes(s: Sys, n: NodeId)
    requires s.todo.Open? && TodoServes(s.w, s.todo) && ClaimsServe(s.hist) && NodeServes(s, n)
    ensures NodeServes(Do(s, Write), n)
  {
    hide Tenant, ClaimsServe, OpenEvents, CountOpen, CacheServes, Lawful;
    var nodes, org := s.todo.nodes, s.todo.org;
    assert Insertable(s.w.leases, nodes);
    TenantOpened(s.hist, nodes, |s.w.leases|, org, n);
    OpenedRows(s.w.leases, nodes, org, s.todo.who, s.todo.at, n);
    if n in s.w.reg.nodes && s.w.reg.nodes[n].fleet { OpenCacheServes(s, n, s.w.reg.nodes[n].lease); }
  }

  lemma BeginServes(s: Sys, todo: Todo, heard: seq<Event>)
    requires Serves(s) && Enabled(s, Begin(todo, heard))
    ensures Serves(Do(s, Begin(todo, heard)))
  {
    hide Tenant, ClaimsServe, Lawful, Follow;
    var s' := Do(s, Begin(todo, heard));
    if heard == [] {
      assert s'.hist == s.hist;
    } else {
      assert heard == [heard[0]];
      forall n { TenantOne(s.hist, heard[0], n); }
      ClaimsServeOne(s.hist, heard[0]);
    }
    forall n ensures SameTenancy(s, s', n) {}
    assert TodoServes(s'.w, todo) by { hide SameTenancy; }
    assert NodeServes(s, 0);
    SameNodeServes(s, s', 0);
    if s.door.Some? && s.door.value.member { SameCacheServes(s, s', s.door.value.node, s.door.value.lease); }
    OneNodeServes(s, s', 0);
  }

  lemma KnockServes(s: Sys, node: NodeId, worker: Worker)
    requires Serves(s) && Enabled(s, Knock(node, worker))
    ensures Serves(Do(s, Knock(node, worker)))
  {
    hide Tenant, ClaimsServe, Lawful, TodoServes;
    var s' := Do(s, Knock(node, worker));
    assert NodeServes(s, node);
    forall n ensures NodeServes(s', n) { assert NodeServes(s, n); }
    forall i | OpenOn(s.w.leases, i, node) { LookupIs(s.w.leases, node, i); }
  }

  lemma EnterServes(s: Sys, pooled: bool, minVersion: Version, now: Instant)
    requires Serves(s) && Enabled(s, Enter(pooled, minVersion, now))
    ensures Serves(Do(s, Enter(pooled, minVersion, now)))
  {
    hide Tenant, ClaimsServe, OneOpen;
    var s' := Do(s, Enter(pooled, minVersion, now));
    forall n ensures NodeServes(s', n) { assert NodeServes(s, n); }
  }

  // Every other registry operation leaves what a record says about hosting and leases as it was.
  lemma ChangeKeepsLease(r: Reg, op: Op, now: Instant, n: NodeId)
    requires !op.Register? && !op.SetLease? && n in ApplyOp(r, op, now).nodes
    ensures n in r.nodes
    ensures ApplyOp(r, op, now).nodes[n].fleet == r.nodes[n].fleet
         && ApplyOp(r, op, now).nodes[n].lease == r.nodes[n].lease
    ensures Lawful(r.nodes[n]) ==> Lawful(ApplyOp(r, op, now).nodes[n])
  {
  }

  lemma ChangeServes(s: Sys, op: Op, now: Instant)
    requires Serves(s) && Enabled(s, Change(op, now))
    ensures Serves(Do(s, Change(op, now)))
  {
    hide ApplyOp, Tenant, ClaimsServe, OneOpen;
    var s' := Do(s, Change(op, now));
    forall n ensures NodeServes(s', n) {
      assert NodeServes(s, n);
      if n in s'.w.reg.nodes { ChangeKeepsLease(s.w.reg, op, now, n); }
    }
  }

  // A claim on a hosted worker is for the customer it serves, also while the registry lags behind the tables.
  lemma TakeServes(s: Sys, job: Job, able: Filter, node: NodeId, now: Instant)
    requires Serves(s) && Enabled(s, Take(job, able, node, now))
    ensures Serves(Do(s, Take(job, able, node, now)))
  {
    hide ApplyOp, Tenant, ClaimsServe, OneOpen;
    var s' := Do(s, Take(job, able, node, now));
    assert NodeServes(s, node);
    if s.w.reg.nodes[node].fleet {
      ClaimsServeOne(s.hist, Claimed(node, job.org));
      forall n { TenantOne(s.hist, Claimed(node, job.org), n); }
    }
    forall n ensures NodeServes(s', n) {
      assert NodeServes(s, n);
      if n in s'.w.reg.nodes { ChangeKeepsLease(s.w.reg, Claim(node), now, n); }
    }
  }

  lemma EnrolServes(s: Sys, node: NodeId)
    requires Serves(s)
    ensures Serves(Do(s, Enrol(node)))
  {
    hide Tenant, ClaimsServe, Lawful;
    var s' := Do(s, Enrol(node));
    forall n ensures NodeServes(s', n) { assert NodeServes(s, n); }
  }

  // Wherever it comes: the registry is empty afterwards, and a worker is only told to stop if none of its leases is active.
  lemma RestartServes(s: Sys)
    requires Serves(s)
    ensures Serves(Do(s, Restart))
  {
    hide Tenant, ClaimsServe, Lawful;
    var s' := Do(s, Restart);
    if s.todo.Publish? || s.todo.HoldBack? {
      forall n { TenantOne(s.hist, Stopped(s.todo.node), n); }
      ClaimsServeOne(s.hist, Stopped(s.todo.node));
    } else {
      assert s'.hist == s.hist;
    }
    forall n ensures NodeServes(s', n) { assert NodeServes(s, n); }
  }

  lemma WriteServes(s: Sys)
    requires Serves(s) && Enabled(s, Write)
    ensures Serves(Do(s, Write))
  {
    hide Serves, Do;
    match s.todo {
      case Open(_, _, _, _, _) => OpenServes(s);
      case Activate(_, _) => ActivateServes(s);
      case Publish(_, _) => PublishServes(s);
      case Touch(_, _) => TouchServes(s);
      case End(_, _, _, _, _) => RowWriteServes(s);
      case Sanitize(_, _, _, _) => RowWriteServes(s);
      case FinishClean(_, _) => RowWriteServes(s);
      case GiveUp(_, _, _, _, _, _) => RowWriteServes(s);
      case _ => FleetWriteServes(s);
    }
  }

  // Every step, restarts included.
  lemma StepServes(s: Sys, step: Step)
    requires Serves(s) && Enabled(s, step)
    ensures Serves(Do(s, step))
  {
    hide Serves, Do;
    match step {
      case Begin(todo, heard) => BeginServes(s, todo, heard);
      case Write => WriteServes(s);
      case Knock(n, worker) => KnockServes(s, n, worker);
      case Enter(pooled, minVersion, now) => EnterServes(s, pooled, minVersion, now);
      case Change(op, now) => ChangeServes(s, op, now);
      case Take(job, able, n, now) => TakeServes(s, job, able, n, now);
      case Enrol(n) => EnrolServes(s, n);
      case Restart => RestartServes(s);
    }
  }

  lemma {:induction false} RunServes(s: Sys, steps: seq<Step>, s': Sys)
    requires Serves(s) && Leads(s, steps, s')
    ensures Serves(s')
    decreases |steps|
  {
    hide Serves, Do, Enabled;
    if steps != [] {
      StepServes(s, steps[0]);
      RunServes(Do(s, steps[0]), steps[1..], s');
    }
  }
}
