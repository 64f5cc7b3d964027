// What the lease manager decides and writes, as values: every operation is a look at the tables and the registry,
// followed by a short program of single writes, database first and registry last. The manager class runs these
// programs without interruption; LeaseProtocol interleaves them with everything else.
module LeaseWrites {
  import opened Options
  import opened Registry
  import opened LeaseStore

  const MAX_REQUEST := 50

  datatype World = World(leases: seq<Lease>, fleet: map<NodeId, FleetRow>, reg: Reg)

  // The writes an operation still has to make. Each constructor names its next write.
  datatype Todo =
    | Nothing
    | Open(nodes: seq<NodeId>, org: OrgId, who: Option<string>, at: Instant, cap: int)   // create_many
    | Activate(nodes: seq<NodeId>, org: OrgId)                                   // registry, one worker at a time
    | End(id: nat, node: NodeId, org: OrgId, reason: string, byWhom: string)     // mark_ending
    | Publish(node: NodeId, lease: LeaseView)                                    // registry
    | Sanitize(id: nat, node: NodeId, org: OrgId, at: Instant)                   // mark_sanitizing
    | Ask(id: nat, node: NodeId, org: OrgId, at: Instant)                        // begin_sanitize
    | FinishClean(id: nat, node: NodeId)                                         // mark_ended "clean"
    | Clear(node: NodeId)                                                        // clear_sanitize
    | GiveUp(id: nat, node: NodeId, result: string, why: string,
             noted: Option<string>, notedBy: Option<string>)                 // mark_ended, not clean
    | HoldBack(node: NodeId, why: string)                                        // hold
    | Touch(id: nat, at: Instant)                                                // touch
    | StaffAsk(node: NodeId, ref: Ref, at: Instant)                              // begin_sanitize
    | StaffClear(node: NodeId)                                                   // clear_sanitize
    | StaffHold(node: NodeId, why: string)                                       // hold
    | StaffRelease(node: NodeId)                                                 // release_hold

  function RegistryWrite(w: World, n: NodeId, lease: LeaseView): World {
    w.(reg := WithLease(w.reg, n, lease))
  }

  // Perform the next write; the result is the new state and what is left to write.
  ghost function Exec(w: World, todo: Todo): (World, Todo) {
    match todo
    case Nothing => (w, Nothing)
    case Open(nodes, org, who, at, _) =>
      if Insertable(w.leases, nodes)
      then (w.(leases := w.leases + NewLeases(nodes, org, who, at)), Activate(nodes, org))
      else (w, Nothing)
    case Activate(nodes, org) =>
      if nodes == [] then (w, Nothing)
      else (RegistryWrite(w, nodes[0], Some((org, Active))), Activate(nodes[1..], org))
    case End(id, n, org, reason, byWhom) =>
      (w.(leases := MarkedEnding(w.leases, id, reason, byWhom)), Publish(n, Some((org, Ending))))
    case Publish(n, lease) => (RegistryWrite(w, n, lease), Nothing)
    case Sanitize(id, n, org, at) =>
      (w.(leases := MarkedSanitizing(w.leases, id)), Ask(id, n, org, at))
    case Ask(id, n, org, at) =>
      (w.(fleet := Asked(w.fleet, n, LeaseRef(id), at)), Publish(n, Some((org, Sanitizing))))
    case FinishClean(id, n) => (w.(leases := MarkedEnded(w.leases, id, "clean", None, None)), Clear(n))
    case Clear(n) => (w.(fleet := Cleared(w.fleet, n)), Publish(n, None))
    case GiveUp(id, n, result, why, reason, byWhom) =>
      (w.(leases := MarkedEnded(w.leases, id, result, reason, byWhom)), HoldBack(n, why))
    case HoldBack(n, why) => (w.(fleet := Held(w.fleet, n, why)), Publish(n, None))
    case Touch(id, at) => (w.(leases := Touched(w.leases, id, at)), Nothing)
    case StaffAsk(n, ref, at) => (w.(fleet := Asked(w.fleet, n, ref, at)), Nothing)
    case StaffClear(n) => (w.(fleet := Cleared(w.fleet, n)), Nothing)
    case StaffHold(n, why) => (w.(fleet := Held(w.fleet, n, why)), Nothing)
    case StaffRelease(n) => (w.(fleet := HoldReleased(w.fleet, n)), Nothing)
  }

  function Left(todo: Todo): nat {
    match todo
    case Nothing => 0
    case Open(nodes, _, _, _, _) => |nodes| + 2
    case Activate(nodes, _) => |nodes| + 1
    case Sanitize(_, _, _, _) => 3
    case FinishClean(_, _) => 3
    case GiveUp(_, _, _, _, _, _) => 3
    case End(_, _, _, _, _) => 2
    case Ask(_, _, _, _) => 2
    case Clear(_) => 2
    case HoldBack(_, _) => 2
    case _ => 1
  }

  // The whole program, with nothing else happening in between.
  ghost function RunAlone(w: World, todo: Todo): (w': World)
    ensures |w.leases| <= |w'.leases|
    decreases Left(todo)
  {
    if todo == Nothing then w else var (w', rest) := Exec(w, todo); RunAlone(w', rest)
  }

  // The same programs with their writes put together, one function per operation on a lease.
  function EndingWritten(w: World, id: nat, n: NodeId, org: OrgId, reason: string, byWhom: string): World {
    RegistryWrite(w.(leases := MarkedEnding(w.leases, id, reason, byWhom)), n, Some((org, Ending)))
  }

  function SanitizingWritten(w: World, id: nat, n: NodeId, org: OrgId, at: Instant): World {
    RegistryWrite(w.(leases := MarkedSanitizing(w.leases, id), fleet := Asked(w.fleet, n, LeaseRef(id), at)),
                  n, Some((org, Sanitizing)))
  }

  function Cleaned(w: World, id: nat, n: NodeId): World {
    RegistryWrite(w.(leases := MarkedEnded(w.leases, id, "clean", None, None), fleet := Cleared(w.fleet, n)), n, None)
  }

  function GivenUp(w: World, id: nat, n: NodeId, result: string, why: string, noted: Option<string>,
                   notedBy: Option<string>): World
  {
    RegistryWrite(w.(leases := MarkedEnded(w.leases, id, result, noted, notedBy), fleet := Held(w.fleet, n, why)),
                  n, None)
  }

  function NotCleaned(w: World, id: nat, n: NodeId, detail: string): World {
    GivenUp(w, id, n, "failed: " + detail, "clean-up failed: " + detail, None, None)
  }

  function WorkerLost(w: World, id: nat, n: NodeId): World {
    GivenUp(w, id, n, "not cleaned: the worker was lost",
            "lost while leased; it must be cleaned before it is used again", Some("worker_lost"), Some("system"))
  }

  lemma RunShort(w: World, todo: Todo)
    requires Left(todo) <= 3 && !todo.Open? && !todo.Activate?
    ensures var (w1, t1) := Exec(w, todo); var (w2, t2) := Exec(w1, t1); RunAlone(w, todo) == Exec(w2, t2).0
  {
    hide MarkedEnding, MarkedSanitizing, MarkedEnded, Touched, WithLease, Held, Cleared, Asked, HoldReleased;
    var (w1, t1) := Exec(w, todo);
    var (w2, t2) := Exec(w1, t1);
    var (w3, t3) := Exec(w2, t2);
    assert t3 == Nothing && RunAlone(w3, t3) == w3;
    assert RunAlone(w2, t2) == w3;
    assert RunAlone(w1, t1) == w3;
  }

  lemma RunEnd(w: World, id: nat, n: NodeId, org: OrgId, reason: string, byWhom: string)
    ensures RunAlone(w, End(id, n, org, reason, byWhom)) == EndingWritten(w, id, n, org, reason, byWhom)
  {
    RunShort(w, End(id, n, org, reason, byWhom));
  }

  lemma RunSanitize(w: World, id: nat, n: NodeId, org: OrgId, at: Instant)
    ensures RunAlone(w, Sanitize(id, n, org, at)) == SanitizingWritten(w, id, n, org, at)
  {
    RunShort(w, Sanitize(id, n, org, at));
  }

  lemma RunFinishClean(w: World, id: nat, n: NodeId)
    ensures RunAlone(w, FinishClean(id, n)) == Cleaned(w, id, n)
  {
    RunShort(w, FinishClean(id, n));
  }

  lemma RunGiveUp(w: World, id: nat, n: NodeId, result: string, why: string, noted: Option<string>,
                  notedBy: Option<string>)
    ensures RunAlone(w, GiveUp(id, n, result, why, noted, notedBy)) == GivenUp(w, id, n, result, why, noted, notedBy)
  {
    RunShort(w, GiveUp(id, n, result, why, noted, notedBy));
  }

  // ------------------------------------------------------------------ the decisions

  predicate Available(w: World, n: NodeId) {
    && n in w.reg.nodes
    && var info := w.reg.nodes[n];
    && info.fleet && info.lease.None?
    && info.status == Idle && !info.draining && !info.quarantined && !info.outdated
    && info.worker.connected && info.worker.sandboxed
    && !VersionBelow(info.worker.version, FLEET_MIN_WORKER_VERSION)
    && n in w.fleet && w.fleet[n].held.None? && w.fleet[n].since.None?
    && OpenLease(w.leases, n).None?
  }

  // Idle, running nothing, and connected.
  predicate Quiet(w: World, n: NodeId) {
    && n in w.reg.nodes
    && w.reg.nodes[n].status == Idle && w.reg.nodes[n].runningJobs <= 0 && w.reg.nodes[n].worker.connected
  }

  predicate InState(w: World, id: nat, state: LeaseState) {
    id < |w.leases| && w.leases[id].state == state
  }

  predicate AdvanceReady(w: World, id: nat) {
    InState(w, id, Ending) && Quiet(w, w.leases[id].node)
  }

  function FailedClean(id: nat, n: NodeId, detail: string): Todo {
    GiveUp(id, n, "failed: " + detail, "clean-up failed: " + detail, None, None)
  }

  function Lost(id: nat, n: NodeId): Todo {
    GiveUp(id, n, "not cleaned: the worker was lost",
           "lost while leased; it must be cleaned before it is used again", Some("worker_lost"), Some("system"))
  }

  // An ending lease goes on to sanitizing if its worker is quiet, and is given up if the request is not delivered.
  function Advance(w: World, id: nat, now: Instant, delivered: bool): (w': World)
    ensures |w.leases| <= |w'.leases|
  {
    if !AdvanceReady(w, id) then w
    else
      var n := w.leases[id].node;
      var asked := SanitizingWritten(w, id, n, w.leases[id].org, now);
      if delivered then asked else NotCleaned(asked, id, n, "the clean-up request could not be delivered")
  }

  function EndActive(w: World, id: nat, reason: string, byWhom: string, now: Instant, delivered: bool)
    : (w': World)
    ensures |w.leases| <= |w'.leases|
  {
    if !InState(w, id, Active) then w
    else Advance(EndingWritten(w, id, w.leases[id].node, w.leases[id].org, reason, byWhom), id, now, delivered)
  }

  // What a worker's clean-up answer sets off; Nothing when the answer matches nothing waiting.
  function OnAnswer(w: World, n: NodeId, ref: Ref, ok: bool, detail: string): Todo {
    if ref.LeaseRef? && InState(w, ref.lease, Sanitizing) && w.leases[ref.lease].node == n then
      if ok then FinishClean(ref.lease, n) else FailedClean(ref.lease, n, detail)
    else if n in w.fleet && w.fleet[n].ref == Some(ref) && OpenLease(w.leases, n).None? then
      if ok then StaffRelease(n) else StaffHold(n, "clean-up failed: " + detail)
    else Nothing
  }

  predicate Expired(since: Option<Instant>, now: Instant, limit: int) {
    since.Some? && now - since.value > limit
  }

  datatype Limits = Limits(idle: int, sanitize: int, lost: int)

  predicate Reachable(w: World, n: NodeId) {
    n in w.reg.nodes && w.reg.nodes[n].status != Offline
  }

  // A job runs on the worker, or one was given to it since the lease was last known active.
  predicate InUse(w: World, lease: Lease) {
    && lease.node in w.reg.nodes
    && var info := w.reg.nodes[lease.node];
    info.status == Busy || info.runningJobs > 0 ||
    (info.lastClaimed.Some? && info.lastClaimed.value > lease.lastActivity)
  }

  type Unseen = map<NodeId, Instant>

  function Noticed(w: World, unseen: Unseen, n: NodeId, now: Instant): Unseen {
    if Reachable(w, n) then unseen - {n} else if n in unseen then unseen else unseen[n := now]
  }

  // A worker out of reach since its first unseen pass for longer than the grace.
  predicate LostTooLong(w: World, unseen: Unseen, n: NodeId, now: Instant, limits: Limits) {
    !Reachable(w, n) && n in unseen && now - unseen[n] > limits.lost
  }

  // What a reaper pass does to an open lease whose worker is not given up.
  function TickState(w: World, id: nat, now: Instant, limits: Limits, delivered: bool): (w': World)
    requires id < |w.leases|
    ensures |w.leases| <= |w'.leases|
  {
    var lease := w.leases[id];
    match lease.state
    case Active =>
      if InUse(w, lease) then w.(leases := Touched(w.leases, id, now))
      else if now - lease.lastActivity > limits.idle then EndActive(w, id, "idle", "system", now, delivered)
      else w
    case Ending => Advance(w, id, now, delivered)
    case Sanitizing =>
      if lease.node in w.fleet && Expired(w.fleet[lease.node].since, now, limits.sanitize)
      then NotCleaned(w, id, lease.node, "the worker did not answer in time")
      else w
    case Ended => w
  }

  // One open lease's share of a reaper pass.
  function TickOne(w: World, unseen: Unseen, id: nat, now: Instant, limits: Limits, delivered: bool)
    : (r: (World, Unseen))
    requires id < |w.leases|
    ensures |w.leases| <= |r.0.leases|
  {
    var n := w.leases[id].node;
    var seen := Noticed(w, unseen, n, now);
    if LostTooLong(w, seen, n, now, limits) then (WorkerLost(w, id, n), seen - {n})
    else (TickState(w, id, now, limits, delivered), seen)
  }

  // The leases of one pass, in order, each seen after the ones before it; `deliver` holds the leases whose clean-up
  // request reaches the worker.
  function TickLeases(w: World, unseen: Unseen, ids: seq<nat>, now: Instant, limits: Limits, deliver: set<nat>)
    : (r: (World, Unseen))
    requires forall i :: 0 <= i < |ids| ==> ids[i] < |w.leases|
    ensures |w.leases| <= |r.0.leases|
  {
    if ids == [] then (w, unseen)
    else
      var k := |ids| - 1;
      var (w1, unseen1) := TickLeases(w, unseen, ids[..k], now, limits, deliver);
      var id := ids[k];
      TickOne(w1, unseen1, id, now, limits, id in deliver)
  }

  function Tick(w: World, unseen: Unseen, now: Instant, limits: Limits, deliver: set<nat>): (World, Unseen) {
    var (w1, unseen1) := TickLeases(w, unseen, OpenIds(w.leases), now, limits, deliver);
    (w1.(fleet := OverdueHeld(w1.leases, w1.fleet, now, limits.sanitize)), unseen1)
  }

  // ------------------------------------------------------------------ what an operation on one lease leaves alone

  // Same table but for row `id`, which keeps its worker and customer and moves forward if at all.
  ghost predicate OnlyRow(leases: seq<Lease>, leases': seq<Lease>, id: nat) {
    && |leases'| == |leases|
    && (forall j :: 0 <= j < |leases| && j != id ==> leases'[j] == leases[j])
    && (id < |leases| ==> Advances(leases[id], leases'[id]))
  }

  lemma AdvanceOnlyRow(w: World, id: nat, now: Instant, delivered: bool)
    ensures OnlyRow(w.leases, Advance(w, id, now, delivered).leases, id)
  {
  }

  lemma EndActiveOnlyRow(w: World, id: nat, reason: string, byWhom: string, now: Instant, delivered: bool)
    ensures OnlyRow(w.leases, EndActive(w, id, reason, byWhom, now, delivered).leases, id)
  {
    if InState(w, id, Active) {
      AdvanceOnlyRow(EndingWritten(w, id, w.leases[id].node, w.leases[id].org, reason, byWhom), id, now, delivered);
    }
  }

  lemma TickStateOnlyRow(w: World, id: nat, now: Instant, limits: Limits, delivered: bool)
    requires id < |w.leases|
    ensures OnlyRow(w.leases, TickState(w, id, now, limits, delivered).leases, id)
  {
    hide Advance, EndActive;
    AdvanceOnlyRow(w, id, now, delivered);
    EndActiveOnlyRow(w, id, "idle", "system", now, delivered);
  }

  // A reaper pass deals with each lease as if it were the only one: its step changes no other lease's row.
  lemma TickOneOnlyRow(w: World, unseen: Unseen, id: nat, now: Instant, limits: Limits, delivered: bool)
    requires id < |w.leases|
    ensures OnlyRow(w.leases, TickOne(w, unseen, id, now, limits, delivered).0.leases, id)
  {
    hide TickState;
    TickStateOnlyRow(w, id, now, limits, delivered);
  }

  function OpenIds(leases: seq<Lease>): (ids: seq<nat>)
    ensures forall i :: i in ids <==> 0 <= i < |leases| && leases[i].state != Ended
    ensures forall k :: 0 <= k < |ids| ==> ids[k] < |leases|
    ensures forall i, j :: 0 <= i < j < |ids| ==> ids[i] < ids[j]
  {
    if leases == [] then []
    else
      var last := |leases| - 1;
      var front := OpenIds(leases[..last]);
      assert forall k :: 0 <= k < |front| ==> front[k] in front && front[k] < last;
      if leases[last].state != Ended then front + [last] else front
  }

  // Staff clean-ups that nobody answered.
  function OverdueHeld(leases: seq<Lease>, fleet: map<NodeId, FleetRow>, now: Instant, limit: int)
    : map<NodeId, FleetRow>
  {
    map n | n in fleet ::
      if Expired(fleet[n].since, now, limit) && OpenLease(leases, n).None?
      then FleetRow(Some("clean-up timed out"), None, None)
      else fleet[n]
  }

  // ------------------------------------------------------------------ the workers on offer, in a stable order

  predicate Sorted(s: seq<NodeId>) {
    forall i, j :: 0 <= i < j < |s| ==> s[i] < s[j]
  }

  function Insert(n: NodeId, s: seq<NodeId>): (t: seq<NodeId>)
    requires Sorted(s) && n !in s
    ensures Sorted(t) && |t| == |s| + 1
    ensures forall m :: m in t <==> m == n || m in s
  {
    if s == [] || n < s[0] then [n] + s
    else
      var rest := Insert(n, s[1..]);
      assert forall m :: m in s <==> m == s[0] || m in s[1..];
      assert forall k :: 0 <= k < |rest| ==> rest[k] in rest;
      [s[0]] + rest
  }

  // Registry order filtered, then sorted.
  function OnOffer(w: World, upto: nat): (s: seq<NodeId>)
    requires upto <= |w.reg.order|
    requires forall i, j :: 0 <= i < j < upto ==> w.reg.order[i] != w.reg.order[j]
    ensures Sorted(s)
    ensures forall n :: n in s <==> n in w.reg.order[..upto] && Available(w, n)
  {
    if upto == 0 then []
    else
      var rest := OnOffer(w, upto - 1);
      var n := w.reg.order[upto - 1];
      assert w.reg.order[..upto] == w.reg.order[..upto - 1] + [n];
      if Available(w, n) then Insert(n, rest) else rest
  }

  function AvailableNodes(w: World): (s: seq<NodeId>)
    requires Distinct(w.reg.order)
    ensures Sorted(s)
  {
    OnOffer(w, |w.reg.order|)
  }

  // The list offers exactly the available workers, each once, whatever order they registered in.
  lemma OnOfferExactly(w: World)
    requires WellFormed(w.reg)
    ensures forall n :: n in AvailableNodes(w) <==> Available(w, n)
    ensures Distinct(AvailableNodes(w))
    ensures forall s: seq<NodeId> ::
      Sorted(s) && (forall n :: n in s <==> Available(w, n)) ==> s == AvailableNodes(w)
  {
    assert w.reg.order[..|w.reg.order|] == w.reg.order;
    var offer := AvailableNodes(w);
    forall s: seq<NodeId> | Sorted(s) && (forall n :: n in s <==> Available(w, n)) ensures s == offer {
      SortedUnique(s, offer);
    }
  }

  lemma {:induction false} SortedUnique(s: seq<NodeId>, t: seq<NodeId>)
    requires Sorted(s) && Sorted(t)
    requires forall n :: n in s <==> n in t
    ensures s == t
    decreases |s|
  {
    assert (s != [] ==> s[0] in s && s[0] in t) && (t != [] ==> t[0] in t && t[0] in s);
    if s != [] {
      assert s[0] == t[0];
      forall n ensures n in s[1..] <==> n in t[1..] {
        assert n in s <==> n == s[0] || n in s[1..];
        assert n in t <==> n == t[0] || n in t[1..];
      }
      SortedUnique(s[1..], t[1..]);
    }
  }
}
