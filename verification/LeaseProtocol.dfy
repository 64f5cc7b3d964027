// Leasing, registration and dispatch together, one atomic step at a time. The lease manager works through its
// programs one write per step; registrations read the tables in one step and write the registry in another; claims,
// heartbeats and every other registry change fall in between; and the coordinator may restart at any point.
module LeaseProtocol {
  import opened Options
  import opened Registry
  import opened LeaseStore
  import opened LeaseWrites
  import opened Scheduler

  // ------------------------------------------------------------------ what happened to each worker, in order

  // Stopped: the registry has been told the worker's lease takes no jobs (or the registry is gone altogether).
  datatype Event =
    | Opened(node: NodeId, id: nat, org: OrgId)
    | Stopped(node: NodeId)
    | Issued(node: NodeId, ref: Ref)
    | Answered(node: NodeId, ref: Ref)
    | Claimed(node: NodeId, forOrg: Option<OrgId>)

  datatype Phase = Fresh | Serving(id: nat, org: OrgId) | Dirty | Waiting(ref: Ref) | Clean | Broken

  // heard: it has answered a clean-up request since its last lease was opened.
  datatype Track = Track(phase: Phase, issued: set<Ref>, heard: bool)

  function After(t: Track, e: Event): Track {
    match e
    case Opened(_, id, org) =>
      Track(if t.phase.Fresh? || t.phase.Clean? then Serving(id, org) else Broken, t.issued, false)
    case Stopped(_) => if t.phase.Serving? then t.(phase := Dirty) else t
    case Issued(_, ref) =>
      Track(if t.phase.Dirty? || t.phase.Waiting? then Waiting(ref) else t.phase, t.issued + {ref}, t.heard)
    case Answered(_, ref) => Track(if t.phase == Waiting(ref) then Clean else t.phase, t.issued, true)
    case Claimed(_, _) => t
  }

  // A worker's cleaning as an automaton over its history: broken by a lease opened before it is clean.
  function Follow(hist: seq<Event>, n: NodeId): Track {
    if hist == [] then Track(Fresh, {}, false)
    else
      var last := |hist| - 1;
      var t := Follow(hist[..last], n);
      if hist[last].node == n then After(t, hist[last]) else t
  }

  lemma FollowOne(hist: seq<Event>, e: Event, n: NodeId)
    ensures Follow(hist + [e], n) == if e.node == n then After(Follow(hist, n), e) else Follow(hist, n)
  {
    assert (hist + [e])[..|hist|] == hist;
  }

  // ------------------------------------------------------------------ the machine

  // A registration between its look-ups and its write, holding the registry lock.
  datatype Door = Door(node: NodeId, worker: Worker, member: bool, lease: LeaseView)

  datatype Sys = Sys(w: World, todo: Todo, door: Option<Door>, hist: seq<Event>)

  const START := Sys(World([], map[], Reg([], map[])), Nothing, None, [])

  datatype Step =
    | Begin(todo: Todo, heard: seq<Event>)                 // the manager decides, under its lock
    | Write                                                // ... and makes its next write
    | Knock(node: NodeId, worker: Worker)                  // a registration reads the tables
    | Enter(pooled: bool, minVersion: Version, now: Instant)
    | Change(op: Op, now: Instant)                         // heartbeats, reports, sweeps, staff flags, removal
    | Take(job: Job, able: Filter, node: NodeId, now: Instant)
    | Enrol(node: NodeId)
    | Restart                                              // the coordinator's memory is lost, the tables are not

  ghost predicate Matches(w: World, id: nat, state: LeaseState, n: NodeId, org: OrgId) {
    InState(w, id, state) && w.leases[id].node == n && w.leases[id].org == org
  }

  // The manager may start on this program, having heard these answers: the decisions of LeaseWrites, where a staff ref is
  // new and a lease's clean answer is to the request sent for it (LeaseRefinement.AnswerRuns: no other counts, but for a
  // stranded lease).
  ghost predicate Decided(s: Sys, todo: Todo, heard: seq<Event>) {
    match todo
    case Open(nodes, org, _, _, cap) =>
      && heard == [] && Distinct(nodes) && (forall n :: n in nodes ==> Available(s.w, n))
      && CountOpen(s.w.leases, org) + |nodes| <= cap
    case End(id, n, org, _, _) => heard == [] && Matches(s.w, id, Active, n, org)
    case Sanitize(id, n, org, _) => heard == [] && Matches(s.w, id, Ending, n, org) && Quiet(s.w, n)
    case FinishClean(id, n) =>
      && InState(s.w, id, Sanitizing) && s.w.leases[id].node == n
      && LeaseRef(id) in Follow(s.hist, n).issued && heard == [Answered(n, LeaseRef(id))]
    case GiveUp(id, n, _, _, _, _) => heard == [] && OpenOn(s.w.leases, id, n)
    case Touch(id, _) => heard == []
    case StaffAsk(n, ref, _) =>
      heard == [] && n in s.w.fleet && NoneOpen(s.w.leases, n) && ref.CleanRef? && ref !in Follow(s.hist, n).issued
    case StaffClear(n) => heard == [] && n in s.w.fleet && NoneOpen(s.w.leases, n)
    case StaffHold(n, _) => heard == [] && n in s.w.fleet && NoneOpen(s.w.leases, n)
    case StaffRelease(n) =>
      && n in s.w.fleet && NoneOpen(s.w.leases, n)
      && s.w.fleet[n].ref.Some? && heard == [Answered(n, s.w.fleet[n].ref.value)]
    case _ => false
  }

  predicate NeedsRegistry(todo: Todo) {
    todo.Publish? || todo.Activate?
  }

  function OpenEvents(nodes: seq<NodeId>, first: nat, org: OrgId): seq<Event> {
    if nodes == [] then []
    else OpenEvents(nodes[..|nodes| - 1], first, org) + [Opened(nodes[|nodes| - 1], first + |nodes| - 1, org)]
  }

  // What the history records of the program's next write.
  ghost function Logged(w: World, todo: Todo): seq<Event> {
    match todo
    case Open(nodes, org, _, _, _) => if Insertable(w.leases, nodes) then OpenEvents(nodes, |w.leases|, org) else []
    case Publish(n, _) => [Stopped(n)]
    case Ask(id, n, _, _) => [Issued(n, LeaseRef(id))]
    case StaffAsk(n, ref, _) => [Issued(n, ref)]
    case _ => []
  }

  // A restart also ends the jobs-taking of a lease whose registry write was still to come.
  function RestartLog(todo: Todo): seq<Event> {
    match todo
    case Publish(n, _) => [Stopped(n)]
    case HoldBack(n, _) => [Stopped(n)]
    case _ => []
  }

  ghost predicate Enabled(s: Sys, step: Step) {
    match step
    case Begin(todo, heard) => s.todo == Nothing && Decided(s, todo, heard)
    case Write => s.todo != Nothing && (NeedsRegistry(s.todo) ==> s.door.None?)
    case Knock(n, _) => s.door.None? && Registrable(s.w.reg, n)
    case Enter(_, _, _) => s.door.Some?
    case Change(op, _) => s.door.None? && !op.Register? && !op.SetLease? && !op.Claim?
    case Take(job, able, n, _) => s.door.None? && MayTake(s.w.reg, job, able, n)
    case Enrol(_) => true
    case Restart => true
  }

  ghost function Do(s: Sys, step: Step): Sys
    requires Enabled(s, step)
  {
    match step
    case Begin(todo, heard) => s.(todo := todo, hist := s.hist + heard)
    case Write =>
      var (w', rest) := Exec(s.w, s.todo);
      s.(w := w', todo := rest, hist := s.hist + Logged(s.w, s.todo))
    case Knock(n, worker) => s.(door := Some(Door(n, worker, n in s.w.fleet, Lookup(s.w.leases, n))))
    case Enter(pooled, minVersion, now) =>
      var d := s.door.value;
      s.(door := None,
         w := s.w.(reg := ApplyOp(s.w.reg, Register(d.node, d.worker, d.member, d.lease, pooled, minVersion), now)))
    case Change(op, now) => s.(w := s.w.(reg := ApplyOp(s.w.reg, op, now)))
    case Take(job, able, n, now) =>
      s.(w := s.w.(reg := ApplyOp(s.w.reg, Claim(n), now)),
         hist := if s.w.reg.nodes[n].fleet then s.hist + [Claimed(n, job.org)] else s.hist)
    case Enrol(n) =>
      if n in s.w.fleet then s else s.(w := s.w.(fleet := s.w.fleet[n := FleetRow(None, None, None)]))
    case Restart =>
      Sys(s.w.(reg := Reg([], map[])), Nothing, None, s.hist + RestartLog(s.todo))
  }

  ghost predicate Leads(s: Sys, steps: seq<Step>, s': Sys)
    decreases |steps|
  {
    if steps == [] then s' == s else Enabled(s, steps[0]) && Leads(Do(s, steps[0]), steps[1..], s')
  }

  // A lease has just ended without its worker answering clean, and the hold on the worker is the next write.
  ghost predicate InGap(s: Sys) {
    && s.todo.HoldBack?
    && !Follow(s.hist, s.todo.node).phase.Fresh? && !Follow(s.hist, s.todo.node).phase.Clean?
  }

  // No restart of this run falls in that gap.
  ghost predicate Orderly(s: Sys, steps: seq<Step>)
    decreases |steps|
  {
    steps == [] ||
    ((steps[0].Restart? ==> !InGap(s)) && (Enabled(s, steps[0]) ==> Orderly(Do(s, steps[0]), steps[1..])))
  }

  // The manager has changed the tables for n and has yet to tell the registry.
  predicate Owes(todo: Todo, n: NodeId) {
    match todo
    case Activate(nodes, _) => n in nodes
    case Publish(m, _) => m == n
    case Ask(_, m, _, _) => m == n
    case Clear(m) => m == n
    case HoldBack(m, _) => m == n
    case _ => false
  }
}
