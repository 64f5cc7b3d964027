// The in-memory node registry: what the coordinator knows about each connected worker, and the one
// locked operation with which the scheduler claims a worker for a job.
module Registry {
  import opened Options

  // Node ids are only ever compared and sorted, so any totally ordered type will do.
  type NodeId = int
  type OrgId = string
  // Microseconds on one clock.
  type Instant = int

  const MICROS_PER_SECOND: int := 1_000_000
  const CLAIM_GRACE: int := 10 * MICROS_PER_SECOND

  datatype LeaseState = Active | Ending | Sanitizing | Ended

  // `OtherStatus` stands for any further word a node may report.
  datatype Status = Idle | Busy | Offline | OtherStatus(word: string)

  // A parsed dotted version; None when the text was not dotted whole numbers.
  type Version = Option<seq<int>>

  const FLEET_MIN_WORKER_VERSION: Version := Some([1, 1, 0])

  predicate TupleLess(a: seq<int>, b: seq<int>) {
    if b == [] then false
    else if a == [] then true
    else if a[0] != b[0] then a[0] < b[0]
    else TupleLess(a[1..], b[1..])
  }

  predicate VersionBelow(version: Version, minimum: Version) {
    minimum.Some? && (version.None? || TupleLess(version.value, minimum.value))
  }

  // The worker object as it registers; `connected` is its control stream.
  datatype Worker = Worker(
    ownOrg: Option<OrgId>, sandboxed: bool, connected: bool, version: Version, status: Status)

  // A hosted worker's lease as (organization, state); None when it has no open lease.
  type LeaseView = Option<(OrgId, LeaseState)>

  datatype Info = Info(
    worker: Worker, lastSeen: Instant, status: Status,
    cpu: real, memory: real, runningJobs: int,
    draining: bool, quarantined: bool, outdated: bool,
    orgId: Option<OrgId>, fleet: bool, lease: LeaseView,
    lastClaimed: Option<Instant>, sharedPool: bool)

  // The registry as a value: dictionary contents plus insertion order.
  datatype Reg = Reg(order: seq<NodeId>, nodes: map<NodeId, Info>)

  predicate Distinct(s: seq<NodeId>) {
    forall i, j :: 0 <= i < j < |s| ==> s[i] != s[j]
  }

  ghost predicate WellFormed(r: Reg) {
    (forall n :: n in r.order <==> n in r.nodes) && Distinct(r.order)
  }

  predicate Dispatchable(info: Info) {
    && (info.fleet ==>
          && info.lease.Some? && info.lease.value.1 == Active
          && info.worker.sandboxed
          && !VersionBelow(info.worker.version, FLEET_MIN_WORKER_VERSION))
    && info.status == Idle
    && !info.draining && !info.quarantined && !info.outdated
    && info.worker.connected
  }

  function StatusToRecord(info: Info, status: Status, workerReported: bool, now: Instant): Status {
    if workerReported && status == Idle && info.status == Busy
       && info.lastClaimed.Some? && now - info.lastClaimed.value < CLAIM_GRACE
    then Busy
    else status
  }

  // ------------------------------------------------------------------ one operation on the value

  function OrgOfLease(lease: LeaseView): Option<OrgId> {
    if lease.Some? then Some(lease.value.0) else None
  }

  function FreshInfo(worker: Worker, member: bool, lease: LeaseView, pooled: bool, minVersion: Version,
                     now: Instant): Info
  {
    var fleet := worker.ownOrg.None? && member;
    var held := if fleet then lease else None;
    Info(worker, now, worker.status, 0.0, 0.0, 0, false, false,
         VersionBelow(worker.version, minVersion),
         if fleet then OrgOfLease(held) else worker.ownOrg, fleet, held, None,
         worker.ownOrg.None? && !fleet && pooled)
  }

  datatype Op =
    | Register(node: NodeId, worker: Worker, member: bool, lease: LeaseView, pooled: bool, minVersion: Version)
    | Remove(node: NodeId)
    | SetLease(node: NodeId, lease: LeaseView)
    | SetSharedPool(node: NodeId, enabled: bool)
    | SetDraining(node: NodeId, draining: bool)
    | SetQuarantined(node: NodeId, quarantined: bool)
    | Connection(node: NodeId, up: bool)
    | Claim(node: NodeId)
    | Heartbeat(node: NodeId, status: Status, stamp: Instant, workerReported: bool)
    | Resources(node: NodeId, cpu: Option<real>, memory: Option<real>, jobs: int, status: Status,
                workerReported: bool)
    | MarkOffline(node: NodeId)
    | HealthSweep(timeout: int)

  predicate Registrable(r: Reg, n: NodeId) {
    n in r.nodes ==> r.nodes[n].status == Offline
  }

  function Put(r: Reg, n: NodeId, info: Info): Reg {
    Reg(if n in r.nodes then r.order else r.order + [n], r.nodes[n := info])
  }

  function WithoutNode(s: seq<NodeId>, n: NodeId): (t: seq<NodeId>)
    ensures forall m :: m in t <==> m in s && m != n
  {
    if s == [] then [] else (if s[0] == n then [] else [s[0]]) + WithoutNode(s[1..], n)
  }

  predicate TimedOut(info: Info, timeout: int, now: Instant) {
    now - info.lastSeen > timeout
  }

  function Swept(info: Info, timeout: int, now: Instant): Info {
    if TimedOut(info, timeout, now) then info.(status := Offline) else info
  }

  function Leased(info: Info, lease: LeaseView): Info {
    if info.fleet then info.(lease := lease, orgId := OrgOfLease(lease), sharedPool := false) else info
  }

  // The registry side of a lease change.
  function WithLease(r: Reg, n: NodeId, lease: LeaseView): Reg {
    if n in r.nodes then r.(nodes := r.nodes[n := Leased(r.nodes[n], lease)]) else r
  }

  predicate GoesOffline(nodes: map<NodeId, Info>, n: NodeId, timeout: int, now: Instant) {
    n in nodes && nodes[n].status != Offline && TimedOut(nodes[n], timeout, now)
  }

  // What one operation does to one known worker's record.
  function Revise(info: Info, op: Op, now: Instant): Info {
    match op
    case SetLease(_, lease) => Leased(info, lease)
    case SetSharedPool(_, enabled) => info.(sharedPool := enabled && info.orgId.None? && !info.fleet)
    case SetDraining(_, d) => info.(draining := d)
    case SetQuarantined(_, q) => info.(quarantined := q)
    case Connection(_, up) => info.(worker := info.worker.(connected := up))
    case Claim(_) => info.(status := Busy, lastClaimed := Some(now))
    case Heartbeat(_, status, stamp, byWorker) =>
      if stamp < info.lastSeen then info
      else info.(lastSeen := stamp, status := StatusToRecord(info, status, byWorker, now),
                 lastClaimed := if status == Busy && !byWorker then Some(now) else info.lastClaimed)
    case Resources(_, cpu, memory, jobs, status, byWorker) =>
      info.(cpu := if cpu.Some? then cpu.value else info.cpu,
            memory := if memory.Some? then memory.value else info.memory,
            runningJobs := jobs, status := StatusToRecord(info, status, byWorker, now))
    case MarkOffline(_) => info.(status := Offline)
    case HealthSweep(timeout) => Swept(info, timeout, now)
    case _ => info
  }

  // What one operation does to the registry. On an unknown worker the source either does nothing or raises.
  function ApplyOp(r: Reg, op: Op, now: Instant): Reg {
    match op
    case Register(n, worker, member, lease, pooled, minVersion) =>
      if Registrable(r, n) then Put(r, n, FreshInfo(worker, member, lease, pooled, minVersion, now)) else r
    case Remove(n) => if n in r.nodes then Reg(WithoutNode(r.order, n), r.nodes - {n}) else r
    case SetLease(n, lease) => WithLease(r, n, lease)
    case HealthSweep(timeout) => r.(nodes := map n | n in r.nodes :: Swept(r.nodes[n], timeout, now))
    case _ => if op.node in r.nodes then r.(nodes := r.nodes[op.node := Revise(r.nodes[op.node], op, now)]) else r
  }

  lemma {:induction false} WithoutNodeDistinct(s: seq<NodeId>, n: NodeId)
    requires Distinct(s)
    ensures Distinct(WithoutNode(s, n))
  {
    if s != [] {
      WithoutNodeDistinct(s[1..], n);
      var rest := WithoutNode(s[1..], n);
      assert s[0] !in rest;
      if s[0] == n {
        assert WithoutNode(s, n) == rest;
      } else {
        assert WithoutNode(s, n) == [s[0]] + rest;
      }
    }
  }

  lemma OpKeepsWellFormed(r: Reg, op: Op, now: Instant)
    requires WellFormed(r)
    ensures WellFormed(ApplyOp(r, op, now))
  {
    if op.Remove? {
      WithoutNodeDistinct(r.order, op.node);
    } else if op.Register? {
      assert op.node !in r.nodes ==> op.node !in r.order;
    }
  }

  // ------------------------------------------------------------------ what every record keeps

  // The organization rules: a hosted worker acts for its lease holder and is never in the shared pool; any other
  // worker acts for its own organization; a pool worker has none.
  predicate Lawful(info: Info) {
    && (info.fleet ==> info.worker.ownOrg.None? && info.orgId == OrgOfLease(info.lease) && !info.sharedPool)
    && (!info.fleet ==> info.orgId == info.worker.ownOrg && info.lease.None?)
    && (info.sharedPool ==> info.orgId.None? && !info.fleet)
  }

  ghost predicate AllLawful(r: Reg) {
    forall n :: n in r.nodes ==> Lawful(r.nodes[n])
  }

  lemma OpKeepsLawful(r: Reg, op: Op, now: Instant)
    requires AllLawful(r)
    ensures AllLawful(ApplyOp(r, op, now))
  {
    var r' := ApplyOp(r, op, now);
    forall n | n in r'.nodes ensures Lawful(r'.nodes[n]) {
      if n in r.nodes { assert Lawful(r.nodes[n]); }
    }
  }

  // ------------------------------------------------------------------ the claim

  type Filter = (NodeId, Info) -> bool
  type ScoreFn = Info -> real

  predicate Eligible(r: Reg, f: Filter, n: NodeId) {
    n in r.nodes && Dispatchable(r.nodes[n]) && f(n, r.nodes[n])
  }

  // Position k of the scan holds the claim's winner among the first `upto` workers.
  ghost predicate WinsAt(r: Reg, score: ScoreFn, f: Filter, k: int, upto: int)
    requires WellFormed(r) && upto <= |r.order|
  {
    && 0 <= k < upto && Eligible(r, f, r.order[k])
    && (forall j :: 0 <= j < k && Eligible(r, f, r.order[j]) ==>
          score(r.nodes[r.order[k]]) < score(r.nodes[r.order[j]]))
    && (forall j :: k <= j < upto && Eligible(r, f, r.order[j]) ==>
          score(r.nodes[r.order[k]]) <= score(r.nodes[r.order[j]]))
  }

  ghost predicate IsBest(r: Reg, score: ScoreFn, f: Filter, n: NodeId)
    requires WellFormed(r)
  {
    exists k :: WinsAt(r, score, f, k, |r.order|) && r.order[k] == n
  }

  lemma BestIsUnique(r: Reg, score: ScoreFn, f: Filter, n: NodeId, m: NodeId)
    requires WellFormed(r) && IsBest(r, score, f, n) && IsBest(r, score, f, m)
    ensures n == m
  {
    var i :| WinsAt(r, score, f, i, |r.order|) && r.order[i] == n;
    var j :| WinsAt(r, score, f, j, |r.order|) && r.order[j] == m;
    assert i == j;
  }

  // ------------------------------------------------------------------ the claim is exclusive during the grace

  function ApplyOps(r: Reg, ops: seq<(Op, Instant)>): Reg
    decreases |ops|
  {
    if ops == [] then r else ApplyOps(ApplyOp(r, ops[0].0, ops[0].1), ops[1..])
  }

  // The operation can end the claim on n: it registers, removes or marks offline the worker, or it is a status the
  // coordinator itself sets, or a worker's report of something other than idle or busy.
  predicate EndsClaim(r: Reg, op: Op, now: Instant, n: NodeId) {
    match op
    case Register(m, _, _, _, _, _) => m == n && Registrable(r, n)
    case Remove(m) => m == n
    case Claim(m) => m == n
    case MarkOffline(m) => m == n
    case Heartbeat(m, status, _, byWorker) => m == n && !(byWorker && status in {Idle, Busy})
    case Resources(m, _, _, _, status, byWorker) => m == n && !(byWorker && status in {Idle, Busy})
    case HealthSweep(timeout) => n in r.nodes && TimedOut(r.nodes[n], timeout, now)
    case _ => false
  }

  ghost predicate Undisturbed(r: Reg, ops: seq<(Op, Instant)>, n: NodeId)
    decreases |ops|
  {
    ops == [] ||
    (!EndsClaim(r, ops[0].0, ops[0].1, n) && Undisturbed(ApplyOp(r, ops[0].0, ops[0].1), ops[1..], n))
  }

  ghost predicate ClaimedAt(r: Reg, n: NodeId, at: Instant) {
    n in r.nodes && r.nodes[n].status == Busy && r.nodes[n].lastClaimed == Some(at)
  }

  // After a claim at `at`, no run of undisturbing operations inside the grace window makes the worker dispatchable
  // (so claimable) again, at any point of the run.
  lemma {:induction false} ClaimHoldsThroughGrace(r: Reg, n: NodeId, at: Instant, ops: seq<(Op, Instant)>)
    requires ClaimedAt(r, n, at)
    requires Undisturbed(r, ops, n)
    requires forall i :: 0 <= i < |ops| ==> ops[i].1 < at + CLAIM_GRACE
    ensures forall k :: 0 <= k <= |ops| ==>
      ClaimedAt(ApplyOps(r, ops[..k]), n, at) && !Dispatchable(ApplyOps(r, ops[..k]).nodes[n])
    decreases |ops|
  {
    forall k | 0 <= k <= |ops|
      ensures ClaimedAt(ApplyOps(r, ops[..k]), n, at) && !Dispatchable(ApplyOps(r, ops[..k]).nodes[n])
    {
      if k > 0 {
        var r1 := ApplyOp(r, ops[0].0, ops[0].1);
        assert ClaimedAt(r1, n, at);
        ClaimHoldsThroughGrace(r1, n, at, ops[1..]);
        assert ops[..k][1..] == ops[1..][..k - 1];
      }
    }
  }

  // The grace protects a record that still says busy and nothing else: one disconnect, and the worker's next "idle"
  // is believed at once.
  lemma OfflineEndsTheGrace(r: Reg, n: NodeId, at: Instant, stamp: Instant)
    requires ClaimedAt(r, n, at) && stamp >= r.nodes[n].lastSeen
    ensures var ops := [(MarkOffline(n), at), (Heartbeat(n, Idle, stamp, true), at)];
            n in ApplyOps(r, ops).nodes && ApplyOps(r, ops).nodes[n].status == Idle
  {
    var ops := [(MarkOffline(n), at), (Heartbeat(n, Idle, stamp, true), at)];
    var r1 := ApplyOp(r, ops[0].0, at);
    var r2 := ApplyOp(r1, ops[1].0, at);
    assert ops[1..] == [ops[1]];
    assert ApplyOps(r1, ops[1..]) == ApplyOps(r2, ops[1..][1..]);
  }

  // ------------------------------------------------------------------ the class

  class NodeRegistry {
    var order: seq<NodeId>
    var nodes: map<NodeId, Info>
    const timeout: int
    const minVersion: Version

    function View(): Reg reads this { Reg(order, nodes) }

    ghost predicate Valid() reads this { WellFormed(View()) && AllLawful(View()) }

    constructor (timeout: int, minVersion: Version)
      ensures Valid() && View() == Reg([], map[])
      ensures this.timeout == timeout && this.minVersion == minVersion
    {
      order, nodes := [], map[];
      this.timeout, this.minVersion := timeout, minVersion;
    }

    // `member`, `lease` and `pooled` are the answers of the three look-ups the coordinator plugs in.
    method Add(n: NodeId, worker: Worker, member: bool, lease: LeaseView, pooled: bool, now: Instant)
      returns (ok: bool)
      requires Valid()
      modifies this
      ensures Valid()
      ensures ok == old(Registrable(View(), n))
      ensures View() == old(ApplyOp(View(), Register(n, worker, member, lease, pooled, minVersion), now))
    {
      OpKeepsWellFormed(View(), Register(n, worker, member, lease, pooled, minVersion), now);
      OpKeepsLawful(View(), Register(n, worker, member, lease, pooled, minVersion), now);
      if n in nodes && nodes[n].status != Offline {
        return false;
      }
      if n !in nodes {
        order := order + [n];
      }
      nodes := nodes[n := FreshInfo(worker, member, lease, pooled, minVersion, now)];
      return true;
    }

    method Drop(n: NodeId) returns (ok: bool)
      requires Valid()
      modifies this
      ensures Valid()
      ensures ok == (n in old(nodes))
      ensures View() == old(ApplyOp(View(), Remove(n), 0))
    {
      OpKeepsWellFormed(View(), Remove(n), 0);
      if n !in nodes {
        return false;
      }
      order, nodes := WithoutNode(order, n), nodes - {n};
      return true;
    }

    // The other single-record updates: pool, drain and quarantine changes, a stream going up or down, a claim's own
    // write, heartbeats, resource reports and an immediate offline mark. `ok` is whether the worker is known: for one
    // that is not, most of them raise, while a pool change and an offline mark do nothing.
    method Update(op: Op, now: Instant) returns (ok: bool)
      requires Valid()
      requires !op.Register? && !op.Remove? && !op.HealthSweep? && !op.SetLease?
      modifies this
      ensures Valid()
      ensures ok == (op.node in old(nodes))
      ensures View() == old(ApplyOp(View(), op, now))
    {
      OpKeepsWellFormed(View(), op, now);
      OpKeepsLawful(View(), op, now);
      if op.node !in nodes {
        return false;
      }
      nodes := nodes[op.node := Revise(nodes[op.node], op, now)];
      return true;
    }

    method SetLeaseOf(n: NodeId, lease: LeaseView)
      requires Valid()
      modifies this`nodes
      ensures Valid()
      ensures View() == WithLease(old(View()), n, lease)
    {
      if n in nodes && nodes[n].fleet {
        assert Lawful(nodes[n]);
        nodes := nodes[n := nodes[n].(lease := lease, orgId := OrgOfLease(lease), sharedPool := false)];
      }
    }

    // Marks offline every worker not heard from within the timeout; returns those it changed, in registry order.
    method CheckNodeHealth(now: Instant) returns (offline: seq<NodeId>)
      requires Valid()
      modifies this
      ensures Valid()
      ensures View() == old(ApplyOp(View(), HealthSweep(timeout), now))
      ensures forall n :: n in offline <==> GoesOffline(old(nodes), n, timeout, now)
    {
      ghost var r := View();
      offline := Sweep(now);
      OpKeepsWellFormed(r, HealthSweep(timeout), now);
      OpKeepsLawful(r, HealthSweep(timeout), now);
    }

    method Sweep(now: Instant) returns (offline: seq<NodeId>)
      requires WellFormed(View())
      modifies this`nodes
      ensures nodes == map n | n in old(nodes) :: Swept(old(nodes)[n], timeout, now)
      ensures forall n :: n in offline <==> GoesOffline(old(nodes), n, timeout, now)
    {
      hide AllLawful, TimedOut;
      ghost var was := nodes;
      assert forall j :: 0 <= j < |order| ==> order[j] in order;
      offline := [];
      var i := 0;
      while i < |order|
        invariant 0 <= i <= |order|
        invariant nodes.Keys == was.Keys && forall j :: 0 <= j < |order| ==> order[j] in was
        invariant forall j :: 0 <= j < |order| ==>
          nodes[order[j]] == if j < i then Swept(was[order[j]], timeout, now) else was[order[j]]
        invariant forall n :: n in offline ==> n in was
        invariant forall j :: 0 <= j < |order| ==> (order[j] in offline <==> j < i && GoesOffline(was, order[j], timeout, now))
      {
        var n := order[i];
        assert n in was && nodes[n] == was[n] && n !in offline;
        if TimedOut(nodes[n], timeout, now) && nodes[n].status != Offline {
          nodes := nodes[n := nodes[n].(status := Offline)];
          offline := offline + [n];
        }
        i := i + 1;
      }
      assert forall n :: n in was ==> n in order;
    }

    // Selects the lowest-scoring eligible worker, first on ties, and marks it busy in the same locked step.
    method ClaimBestIdleNode(score: ScoreFn, f: Filter, now: Instant) returns (best: Option<NodeId>)
      requires Valid()
      modifies this
      ensures Valid()
      ensures best.None? <==> forall n :: !old(Eligible(View(), f, n))
      ensures best.None? ==> View() == old(View())
      ensures best.Some? ==> old(IsBest(View(), score, f, best.value))
      ensures best.Some? ==> View() == old(ApplyOp(View(), Claim(best.value), now))
    {
      best := None;
      ghost var at := 0;
      var i := 0;
      while i < |order|
        invariant 0 <= i <= |order|
        invariant unchanged(this)
        invariant best.None? ==> forall j :: 0 <= j < i ==> !Eligible(View(), f, order[j])
        invariant best.Some? ==> WinsAt(View(), score, f, at, i) && best.value == order[at]
      {
        var n := order[i];
        if Dispatchable(nodes[n]) && f(n, nodes[n]) {
          if best.None? || score(nodes[n]) < score(nodes[best.value]) {
            best, at := Some(n), i;
          }
        }
        i := i + 1;
      }
      if best.Some? {
        OpKeepsWellFormed(View(), Claim(best.value), now);
        OpKeepsLawful(View(), Claim(best.value), now);
        assert IsBest(View(), score, f, best.value);
        nodes := nodes[best.value := nodes[best.value].(status := Busy, lastClaimed := Some(now))];
      }
    }
  }
}
