// WorkerLeaseManager: leases of hosted workers to customers. Every method runs under the manager's lock and is
// proved to make exactly the writes of the programs in LeaseWrites, in their order.
module WorkerLeases {
  import opened Options
  import opened Registry
  import opened LeaseStore
  import opened LeaseWrites

  // The `count` of a request is whatever the client sent: only a whole number from 1 to MAX_REQUEST will do.
  datatype Count = Whole(n: int) | NotWhole

  datatype RequestOutcome =
    | Leased(ids: seq<nat>) | BadRequest | PlanDoesNotAllow | NotEnough(available: nat) | Taken(available: nat)

  datatype StaffOutcome = CleanAsked(ref: Ref) | NotHosted | HasOpenLease | NotReady | Undeliverable

  predicate GoodCount(c: Count) { c.Whole? && 1 <= c.n <= MAX_REQUEST }

  // The tables after another coordinator's own request for `rivals` commits (none: no rival).
  ghost function Rivalled(w: World, rivals: seq<NodeId>, org: OrgId, at: Instant): World {
    if Insertable(w.leases, rivals) then w.(leases := w.leases + NewLeases(rivals, org, None, at)) else w
  }

  // The workers a request is given: the first `count` on offer.
  function Chosen(w: World, count: int): seq<NodeId>
    requires Distinct(w.reg.order)
  {
    if 0 <= count <= |AvailableNodes(w)| then AvailableNodes(w)[..count] else []
  }

  // Why a request is refused before anything is written, if it is.
  function Refusal(w: World, org: OrgId, count: Count, cap: int): Option<RequestOutcome>
    requires Distinct(w.reg.order)
  {
    if !GoodCount(count) then Some(BadRequest)
    else if cap <= 0 || CountOpen(w.leases, org) + count.n > cap then Some(PlanDoesNotAllow)
    else if |AvailableNodes(w)| < count.n then Some(NotEnough(|AvailableNodes(w)|))
    else None
  }

  // What a successful request did, in the tables' own terms: exactly `count` new active leases, for this customer,
  // on distinct workers that were available, and the customer's open count still within the cap it was checked
  // against.
  lemma RequestGrantsExactly(w: World, org: OrgId, count: Count, cap: int, who: Option<string>, at: Instant)
    requires WellFormed(w.reg) && OneOpen(w.leases)
    requires Refusal(w, org, count, cap).None?
    ensures var chosen := Chosen(w, count.n); var leases' := w.leases + NewLeases(chosen, org, who, at);
      && |chosen| == count.n && Distinct(chosen) && Insertable(w.leases, chosen)
      && (forall n :: n in chosen ==> Available(w, n))
      && OneOpen(leases')
      && CountOpen(leases', org) == CountOpen(w.leases, org) + count.n <= cap
      && (forall other :: other != org ==> CountOpen(leases', other) == CountOpen(w.leases, other))
  {
    var chosen := Chosen(w, count.n);
    OnOfferExactly(w);
    assert forall n :: n in chosen ==> n in AvailableNodes(w);
    OneOpenAfterInsert(w.leases, chosen, org, who, at);
    forall other { CountOpenAfterInsert(w.leases, chosen, org, who, at, other); }
  }

  // Hold every worker whose staff clean-up went unanswered.
  method HoldOverdue(fleet: FleetNodeRepository, rows: seq<Lease>, now: Instant, limit: int)
    requires fleet.Valid()
    modifies fleet`rows
    ensures fleet.Valid() && fleet.rows == OverdueHeld(rows, old(fleet.rows), now, limit)
  {
    ghost var was := fleet.rows;
    ghost var held := OverdueHeld(rows, was, now, limit);
    ghost var done: set<NodeId> := {};
    var i := 0;
    while i < |fleet.listed|
      invariant 0 <= i <= |fleet.listed| && fleet.Valid()
      invariant forall j :: 0 <= j < |fleet.listed| ==> (fleet.listed[j] in done <==> j < i)
      invariant fleet.rows.Keys == was.Keys
      invariant forall n :: n in was ==> fleet.rows[n] == if n in done then held[n] else was[n]
    {
      var n := fleet.listed[i];
      if Expired(fleet.rows[n].since, now, limit) && OpenLease(rows, n).None? {
        fleet.Hold(n, "clean-up timed out");
      }
      i, done := i + 1, done + {n};
    }
    assert forall n :: n in was ==> n in fleet.listed;
  }

  class WorkerLeaseManager {
    const leases: WorkerLeaseRepository
    const fleet: FleetNodeRepository
    const registry: NodeRegistry
    const limits: Limits
    var unseenSince: Unseen

    ghost predicate Valid() reads leases, fleet, registry { leases.Valid() && fleet.Valid() && registry.Valid() }

    ghost function View(): World reads leases, fleet, registry {
      World(leases.rows, fleet.rows, registry.View())
    }

    constructor (leases: WorkerLeaseRepository, fleet: FleetNodeRepository, registry: NodeRegistry, limits: Limits)
      ensures this.leases == leases && this.fleet == fleet && this.registry == registry
      ensures this.limits == limits && unseenSince == map[]
    {
      this.leases, this.fleet, this.registry := leases, fleet, registry;
      this.limits, this.unseenSince := limits, map[];
    }

    // What a registration asks for the worker that is coming back.
    method LookupLease(n: NodeId) returns (view: LeaseView)
      requires Valid()
      ensures view == Lookup(leases.rows, n)
      ensures forall i :: OpenOn(leases.rows, i, n) ==> view == Some((leases.rows[i].org, leases.rows[i].state))
    {
      view := Lookup(leases.rows, n);
      forall i | OpenOn(leases.rows, i, n) ensures view == Some((leases.rows[i].org, leases.rows[i].state)) {
        LookupIs(leases.rows, n, i);
      }
    }

    method ListAvailable() returns (out: seq<NodeId>)
      requires Valid()
      ensures out == AvailableNodes(View())
    {
      out := [];
      var i := 0;
      while i < |registry.order|
        invariant 0 <= i <= |registry.order|
        invariant out == OnOffer(View(), i)
      {
        var n := registry.order[i];
        assert registry.order[..i + 1] == registry.order[..i] + [n];
        if Available(World(leases.rows, fleet.rows, Reg(registry.order, registry.nodes)), n) {
          out := Insert(n, out);
        }
        i := i + 1;
      }
    }

    // The checks before anything is written, in their order, and the workers chosen when all pass.
    method Choose(org: OrgId, count: Count, cap: int) returns (refusal: Option<RequestOutcome>, chosen: seq<NodeId>)
      requires Valid()
      ensures refusal == Refusal(View(), org, count, cap)
      ensures refusal.None? ==> GoodCount(count) && |chosen| == count.n && chosen == Chosen(View(), count.n)
    {
      refusal, chosen := None, [];
      if !GoodCount(count) {
        refusal := Some(BadRequest);
      } else if cap <= 0 || CountOpen(leases.rows, org) + count.n > cap {
        refusal := Some(PlanDoesNotAllow);
      } else {
        var candidates := ListAvailable();
        if |candidates| < count.n {
          refusal := Some(NotEnough(|candidates|));
        } else {
          chosen := candidates[..count.n];
        }
      }
    }

    // The whole request. `rivals` are the workers another coordinator leases between this one's look and its write; when
    // one of the chosen is among them nothing of this request remains.
    method Request(org: OrgId, count: Count, who: Option<string>, cap: int, now: Instant,
                   rivals: seq<NodeId>, rivalOrg: OrgId)
      returns (outcome: RequestOutcome)
      requires Valid()
      modifies leases, registry`nodes
      ensures Valid()
      ensures var refusal := Refusal(old(View()), org, count, cap);
        refusal.Some? ==> outcome == refusal.value && View() == old(View())
      ensures Refusal(old(View()), org, count, cap).None? ==>
        var w := old(Rivalled(View(), rivals, rivalOrg, now));
        var chosen := Chosen(old(View()), count.n);
        && |chosen| == count.n
        && View() == RunAlone(w, Open(chosen, org, who, now, cap))
        && if Insertable(w.leases, chosen)
           then outcome == Leased(seq(count.n, i => |w.leases| + i))
                && leases.rows == w.leases + NewLeases(chosen, org, who, now)
           else outcome == Taken(|AvailableNodes(View())|) && View() == w
    {
      var refusal, chosen := Choose(org, count, cap);
      if refusal.Some? {
        return refusal.value;
      }
      var _ := leases.CreateMany(rivals, rivalOrg, None, now);
      assert View() == old(Rivalled(View(), rivals, rivalOrg, now));
      var created := Take(chosen, org, who, now, cap);
      if created.None? {
        var left := ListAvailable();
        return Taken(|left|);
      }
      outcome := Leased(created.value);
    }

    // All of these workers or none: the rows in one transaction, then the registry.
    method Take(chosen: seq<NodeId>, org: OrgId, who: Option<string>, now: Instant, ghost cap: int)
      returns (ids: Option<seq<nat>>)
      requires Valid()
      modifies leases, registry`nodes
      ensures Valid()
      ensures ids.Some? <==> Insertable(old(leases.rows), chosen)
      ensures View() == RunAlone(old(View()), Open(chosen, org, who, now, cap))
      ensures ids.Some? ==>
        && leases.rows == old(leases.rows) + NewLeases(chosen, org, who, now)
        && |ids.value| == |chosen| && forall i :: 0 <= i < |chosen| ==> ids.value[i] == |old(leases.rows)| + i
    {
      ids := leases.CreateMany(chosen, org, who, now);
      if ids.None? {
        return;
      }
      ghost var begun := View();
      var i := 0;
      while i < |chosen|
        invariant 0 <= i <= |chosen|
        invariant Valid() && leases.rows == begun.leases && fleet.rows == begun.fleet
        invariant RunAlone(View(), Activate(chosen[i..], org)) == RunAlone(begun, Activate(chosen, org))
      {
        assert chosen[i..][0] == chosen[i] && chosen[i..][1..] == chosen[i + 1..];
        registry.SetLeaseOf(chosen[i], Some((org, Active)));
        i := i + 1;
      }
      assert chosen[i..] == [];
    }

    // A lease is unknown to a customer (`org` given) unless it is theirs; staff and the reaper give none.
    method Release(id: nat, org: Option<OrgId>, byWhom: string, reason: string, now: Instant, delivered: bool)
      returns (lease: Option<Lease>)
      requires Valid()
      modifies leases, fleet`rows, registry`nodes
      ensures Valid()
      ensures lease.None? <==>
        id >= |old(leases.rows)| || (org.Some? && old(leases.rows)[id].org != org.value)
      ensures lease.None? ==> View() == old(View())
      ensures lease.Some? ==>
        && View() == EndActive(old(View()), id, reason, byWhom, now, delivered)
        && id < |leases.rows| && lease.value == leases.rows[id]
    {
      if id >= |leases.rows| || (org.Some? && leases.rows[id].org != org.value) {
        return None;
      }
      var row := leases.rows[id];
      if row.state == Active {
        var _ := leases.MarkEnding(id, reason, byWhom);
        registry.SetLeaseOf(row.node, Some((row.org, Ending)));
        AdvanceLease(id, now, delivered);
      }
      lease := Some(leases.rows[id]);
    }

    // Moves a lease from ending to sanitizing if its worker is quiet; `delivered` tells whether the request got there.
    method AdvanceLease(id: nat, now: Instant, delivered: bool)
      requires Valid()
      modifies leases, fleet`rows, registry`nodes
      ensures Valid() && View() == Advance(old(View()), id, now, delivered)
      ensures |leases.rows| == |old(leases.rows)|
    {
      if id >= |leases.rows| || leases.rows[id].state != Ending {
        return;
      }
      var row := leases.rows[id];
      if !Quiet(World(leases.rows, fleet.rows, Reg(registry.order, registry.nodes)), row.node) {
        return;
      }
      var marked := leases.MarkSanitizing(id);
      if !marked {
        return;
      }
      fleet.BeginSanitize(row.node, LeaseRef(id), now);
      registry.SetLeaseOf(row.node, Some((row.org, Sanitizing)));
      if !delivered {
        FinishSanitize(id, row.node, false, "the clean-up request could not be delivered");
      }
    }

    method FinishSanitize(id: nat, n: NodeId, ok: bool, detail: string)
      requires Valid()
      modifies leases, fleet`rows, registry`nodes
      ensures Valid()
      ensures View() == if ok then Cleaned(old(View()), id, n) else NotCleaned(old(View()), id, n, detail)
      ensures |leases.rows| == |old(leases.rows)|
    {
      if ok {
        leases.MarkEnded(id, "clean", None, None);
        fleet.ClearSanitize(n);
      } else {
        leases.MarkEnded(id, "failed: " + detail, None, None);
        fleet.Hold(n, "clean-up failed: " + detail);
      }
      registry.SetLeaseOf(n, None);
    }

    method EndLost(id: nat, n: NodeId)
      requires Valid()
      modifies leases, fleet`rows, registry`nodes, this`unseenSince
      ensures Valid() && View() == WorkerLost(old(View()), id, n)
      ensures unseenSince == old(unseenSince) - {n}
    {
      unseenSince := unseenSince - {n};
      leases.MarkEnded(id, "not cleaned: the worker was lost", Some("worker_lost"), Some("system"));
      fleet.Hold(n, "lost while leased; it must be cleaned before it is used again");
      registry.SetLeaseOf(n, None);
    }

    // A clean-up staff ask for, of a worker without a lease; `delivered` tells whether the request got there.
    method SanitizeHeldNode(n: NodeId, now: Instant, delivered: bool) returns (outcome: StaffOutcome)
      requires Valid()
      modifies fleet
      ensures Valid()
      ensures outcome.NotHosted? <==> n !in old(fleet.rows)
      ensures outcome.HasOpenLease? <==> n in old(fleet.rows) && !NoneOpen(old(leases.rows), n)
      ensures outcome.CleanAsked? || outcome.Undeliverable? <==>
        && n in old(fleet.rows) && NoneOpen(old(leases.rows), n)
        && n in registry.nodes && registry.nodes[n].worker.connected && registry.nodes[n].status == Idle
      ensures outcome.NotHosted? || outcome.HasOpenLease? || outcome.NotReady? ==> View() == old(View())
      ensures outcome.CleanAsked? ==>
        delivered && outcome.ref == CleanRef(old(fleet.serial)) && fleet.serial == old(fleet.serial) + 1
        && fleet.rows == Asked(old(fleet.rows), n, outcome.ref, now)
      ensures outcome.Undeliverable? ==> !delivered && fleet.rows == Cleared(old(fleet.rows), n)
    {
      if n !in fleet.rows {
        return NotHosted;
      }
      if OpenLease(leases.rows, n).Some? {
        assert OpenOn(leases.rows, OpenLease(leases.rows, n).value, n);
        return HasOpenLease;
      }
      if n !in registry.nodes || !registry.nodes[n].worker.connected || registry.nodes[n].status != Idle {
        return NotReady;
      }
      var ref := fleet.NewCleanRef();
      fleet.BeginSanitize(n, ref, now);
      if !delivered {
        fleet.ClearSanitize(n);
        return Undeliverable;
      }
      return CleanAsked(ref);
    }

    method OnSanitizeResult(n: NodeId, ref: Ref, ok: bool, detail: string)
      requires Valid()
      modifies leases, fleet`rows, registry`nodes
      ensures Valid() && View() == RunAlone(old(View()), OnAnswer(old(View()), n, ref, ok, detail))
    {
      hide WellFormed, AllLawful, OneOpen;
      if ref.LeaseRef? {
        RunFinishClean(View(), ref.lease, n);
        RunGiveUp(View(), ref.lease, n, "failed: " + detail, "clean-up failed: " + detail, None, None);
      }
      if ref.LeaseRef? && ref.lease < |leases.rows| {
        var row := leases.rows[ref.lease];
        if row.node == n && row.state == Sanitizing {
          FinishSanitize(ref.lease, n, ok, detail);
          return;
        }
      }
      if n in fleet.rows && fleet.rows[n].ref == Some(ref) && OpenLease(leases.rows, n).None? {
        if ok {
          fleet.ReleaseHold(n);
        } else {
          fleet.Hold(n, "clean-up failed: " + detail);
        }
      }
    }

    // The reaper: every open lease in turn, then the staff clean-ups nobody answered.
    method Reap(now: Instant, deliver: set<nat>)
      requires Valid()
      modifies leases, fleet`rows, registry`nodes, this`unseenSince
      ensures Valid()
      ensures (View(), unseenSince) == Tick(old(View()), old(unseenSince), now, limits, deliver)
    {
      hide TickOne, OneOpen, WellFormed, AllLawful, Distinct;
      var listed := leases.rows;
      var ids := OpenIds(listed);
      ghost var w, unseen := View(), unseenSince;
      var i := 0;
      while i < |ids|
        invariant 0 <= i <= |ids|
        invariant Valid() && |leases.rows| == |listed|
        invariant forall j :: i <= j < |ids| ==> ids[j] < |listed| && leases.rows[ids[j]] == listed[ids[j]]
        invariant (View(), unseenSince) == TickLeases(w, unseen, ids[..i], now, limits, deliver)
      {
        assert ids[..i + 1][..i] == ids[..i];
        TickOneOnlyRow(View(), unseenSince, ids[i], now, limits, ids[i] in deliver);
        TickLease(ids[i], listed[ids[i]], now, ids[i] in deliver);
        i := i + 1;
      }
      assert ids[..i] == ids;
      HoldOverdue(fleet, leases.rows, now, limits.sanitize);
    }

    // One lease of a reaper pass; `row` is the copy listed when the pass began.
    method TickLease(id: nat, row: Lease, now: Instant, delivered: bool)
      requires Valid() && id < |leases.rows| && leases.rows[id] == row
      modifies leases, fleet`rows, registry`nodes, this`unseenSince
      ensures Valid()
      ensures (View(), unseenSince) == TickOne(old(View()), old(unseenSince), id, now, limits, delivered)
    {
      var n := row.node;
      if n in registry.nodes && registry.nodes[n].status != Offline {
        unseenSince := unseenSince - {n};
      } else {
        if n !in unseenSince {
          unseenSince := unseenSince[n := now];
        }
        if now - unseenSince[n] > limits.lost {
          EndLost(id, n);
          return;
        }
      }
      TickLeaseState(id, row, now, delivered);
    }

    method TickLeaseState(id: nat, row: Lease, now: Instant, delivered: bool)
      requires Valid() && id < |leases.rows| && leases.rows[id] == row
      modifies leases, fleet`rows, registry`nodes
      ensures Valid() && View() == TickState(old(View()), id, now, limits, delivered)
    {
      var n := row.node;
      match row.state {
        case Active =>
          if n in registry.nodes
             && (registry.nodes[n].status == Busy || registry.nodes[n].runningJobs > 0
                 || (registry.nodes[n].lastClaimed.Some? && registry.nodes[n].lastClaimed.value > row.lastActivity)) {
            leases.Touch(id, now);
          } else if now - row.lastActivity > limits.idle {
            var _ := Release(id, None, "system", "idle", now, delivered);
          }
        case Ending =>
          AdvanceLease(id, now, delivered);
        case Sanitizing =>
          var since := if n in fleet.rows then fleet.rows[n].since else None;
          if since.Some? && now - since.value > limits.sanitize {
            FinishSanitize(id, n, false, "the worker did not answer in time");
          }
        case Ended =>
      }
    }
  }
}
