// Which worker a job gets: its own organization's workers first, then, when allowed, the shared pool.
module Scheduler {
  import opened Options
  import opened Registry

  datatype Job = Job(org: Option<OrgId>, requireSandbox: bool, sharedPool: bool)

  function Load(info: Info): real {
    info.cpu * 0.5 + info.memory * 0.3 + info.runningJobs as real * 20.0
  }

  // `able` stands for the capability and stake checks: any predicate on the candidate.
  function Base(job: Job, able: Filter): Filter {
    (n, info: Info) => able(n, info) && (job.requireSandbox ==> info.worker.sandboxed)
  }

  function OwnTier(job: Job, able: Filter): Filter {
    (n, info: Info) => Base(job, able)(n, info) && info.orgId == job.org
  }

  function PoolTier(job: Job, able: Filter): Filter {
    (n, info: Info) => Base(job, able)(n, info) && info.orgId.None? && info.sharedPool && info.worker.sandboxed
  }

  // The scheduler may give node n to the job in registry state r, by either of its two claims.
  predicate MayTake(r: Reg, job: Job, able: Filter, n: NodeId) {
    || Eligible(r, OwnTier(job, able), n)
    || (job.sharedPool && job.org.Some? && Eligible(r, PoolTier(job, able), n))
  }

  // Tenant isolation at the claim. A hosted worker is only ever taken under an active lease, sandboxed, by its lease
  // holder; a worker with an organization only by that organization; a job with no organization never takes a
  // worker that has one; and what another organization's job takes is a sandboxed pool worker.
  lemma TakenByTheRightTenant(r: Reg, job: Job, able: Filter, n: NodeId)
    requires AllLawful(r) && MayTake(r, job, able, n)
    ensures n in r.nodes
    ensures var info := r.nodes[n];
      && (info.fleet ==> info.lease.Some? && info.lease.value.1 == Active && info.worker.sandboxed
                         && job.org == Some(info.lease.value.0))
      && (info.orgId.Some? ==> job.org == info.orgId)
      && (job.org.None? ==> info.orgId.None?)
      && (info.orgId != job.org ==> info.sharedPool && !info.fleet && info.worker.sandboxed && job.sharedPool)
  {
    assert Lawful(r.nodes[n]);
  }

  class Selector {
    const registry: NodeRegistry

    constructor (registry: NodeRegistry)
      ensures this.registry == registry
    {
      this.registry := registry;
    }

    method SelectNode(job: Job, able: Filter, now: Instant) returns (node: Option<NodeId>)
      requires registry.Valid()
      modifies registry
      ensures registry.Valid()
      ensures node.None? ==> registry.View() == old(registry.View())
      ensures node.None? <==> forall n :: !old(MayTake(registry.View(), job, able, n))
      ensures node.Some? ==>
        && old(MayTake(registry.View(), job, able, node.value))
        && registry.View() == old(ApplyOp(registry.View(), Claim(node.value), now))
      // The organization's own workers are tried first, and each tier gives its least loaded worker.
      ensures node.Some? ==>
        if exists n :: old(Eligible(registry.View(), OwnTier(job, able), n))
        then old(IsBest(registry.View(), Load, OwnTier(job, able), node.value))
        else old(IsBest(registry.View(), Load, PoolTier(job, able), node.value))
    {
      ghost var r := registry.View();
      node := registry.ClaimBestIdleNode(Load, OwnTier(job, able), now);
      if node.Some? {
        assert Eligible(r, OwnTier(job, able), node.value) && MayTake(r, job, able, node.value);
      } else {
        assert forall n :: !Eligible(r, OwnTier(job, able), n);
      }
      if node.None? && job.sharedPool && job.org.Some? {
        node := registry.ClaimBestIdleNode(Load, PoolTier(job, able), now);
        if node.Some? {
          assert MayTake(r, job, able, node.value);
        } else {
          assert forall n :: !Eligible(r, PoolTier(job, able), n);
        }
      }
    }
  }
}
