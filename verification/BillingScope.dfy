// Which organizations a monthly run goes through, and what it finds for each: worked out from the stored jobs and
// receipts and from what the plans charge.
module BillingScope {
  import opened Options
  import opened IsoTime
  import opened Calendar
  import opened Invoices
  import LineItems
  import Metering
  import PeriodContent
  import Receipts

  // What a run reads: the time, what is stored, the registered organizations and what each one's plan adds to a month
  // (None: finding out fails), where working an organization's bill out fails otherwise, and how payments stand.
  datatype Env = Env(now: Instant, clock: int, store: PeriodContent.Store, jobNodes: map<string, string>,
                     nodeOrgs: map<string, string>, ceiling: real, validator: Receipts.Validator, pricing: LineItems.Pricing,
                     listed: seq<string>, terms: (string, Period) -> Option<LineItems.Terms>,
                     breaks: (string, Period) -> bool, finalize: bool, setup: Id -> Setup)

  // An organization that is not registered owes no fee.
  function TermsFor(env: Env, org: string, p: Period): Option<LineItems.Terms> {
    match env.terms(org, p)
    case None => None
    case Some(t) => Some(if org in env.listed then t else t.(fee := 0))
  }

  function RulesFor(env: Env, org: string, p: Period): Option<PeriodContent.Rules> {
    match TermsFor(env, org, p)
    case None => None
    case Some(t) =>
      Some(PeriodContent.Rules(Metering.Context(org, env.jobNodes, env.nodeOrgs, env.ceiling), env.validator, env.pricing, t))
  }

  // The lines for an organization and month; None when working them out fails.
  function ContentOf(env: Env, org: string, p: Period): Option<seq<LineItems.Line>> {
    var rules := RulesFor(env, org, p);
    if env.breaks(org, p) || rules.None? then None else Some(PeriodContent.Content(env.store, rules.value, p.0, p.1))
  }

  // The organizations with a job completed in the month, each once.
  function JobOrgs(jobs: seq<Metering.Job>, p: Period): seq<string> {
    if jobs == [] then []
    else
      var orgs, job := JobOrgs(jobs[..|jobs| - 1], p), jobs[|jobs| - 1];
      if job.org != "" && Metering.InPeriod(job, job.org, p.0, p.1) && job.org !in orgs then orgs + [job.org] else orgs
  }

  // Of the listed organizations those that owe a fee for the month; None when one's terms cannot be found out.
  function FeeOrgs(env: Env, listed: seq<string>, p: Period): Option<seq<string>> {
    if listed == [] then Some([])
    else
      var sofar, org := FeeOrgs(env, listed[..|listed| - 1], p), listed[|listed| - 1];
      if sofar.None? || TermsFor(env, org, p).None? then None
      else Some(if TermsFor(env, org, p).value.fee > 0 then sofar.value + [org] else sofar.value)
  }

  function Without(more: seq<string>, orgs: seq<string>): seq<string> {
    if more == [] then []
    else
      var rest, org := Without(more[..|more| - 1], orgs), more[|more| - 1];
      if org in orgs then rest else rest + [org]
  }

  // The organizations of a month's run, those with jobs first; None when finding out fails, which ends the run.
  function OrgsOf(env: Env, p: Period): Option<seq<string>> {
    var withJobs, withFee := JobOrgs(env.store.jobs, p), FeeOrgs(env, env.listed, p);
    if withFee.None? then None else Some(withJobs + Without(withFee.value, withJobs))
  }

  predicate HasJob(env: Env, org: string, p: Period) {
    exists i :: 0 <= i < |env.store.jobs| && Metering.InPeriod(env.store.jobs[i], org, p.0, p.1)
  }

  predicate OwesFee(env: Env, org: string, p: Period) {
    TermsFor(env, org, p).Some? && TermsFor(env, org, p).value.fee > 0
  }

  lemma {:induction false} JobOrgsAre(jobs: seq<Metering.Job>, p: Period, org: string)
    requires org != ""
    ensures org in JobOrgs(jobs, p) <==> exists i :: 0 <= i < |jobs| && Metering.InPeriod(jobs[i], org, p.0, p.1)
  {
    if jobs != [] {
      var front, last := jobs[..|jobs| - 1], |jobs| - 1;
      JobOrgsAre(front, p, org);
      assert Metering.InPeriod(jobs[last], org, p.0, p.1) ==> jobs[last].org == org;
      hide Metering.InPeriod;
      if i :| 0 <= i < |jobs| && Metering.InPeriod(jobs[i], org, p.0, p.1) {
        assert i < last ==> front[i] == jobs[i];
      }
    }
  }

  lemma {:induction false} FeeOrgsAre(env: Env, listed: seq<string>, p: Period, org: string)
    requires FeeOrgs(env, listed, p).Some?
    ensures org in FeeOrgs(env, listed, p).value <==> org in listed && OwesFee(env, org, p)
  {
    hide TermsFor;
    if listed != [] {
      FeeOrgsAre(env, listed[..|listed| - 1], p, org);
      assert org in listed <==> org in listed[..|listed| - 1] || org == listed[|listed| - 1];
    }
  }

  lemma {:induction false} WithoutIs(more: seq<string>, orgs: seq<string>, org: string)
    ensures org in Without(more, orgs) <==> org in more && org !in orgs
  {
    if more != [] {
      WithoutIs(more[..|more| - 1], orgs, org);
      assert org in more <==> org in more[..|more| - 1] || org == more[|more| - 1];
    }
  }

  // A month's run goes through exactly the organizations with a job completed in it or a fee owed for it.
  lemma OrgsOfAre(env: Env, p: Period, org: string)
    requires OrgsOf(env, p).Some? && org != ""
    ensures org in OrgsOf(env, p).value <==> HasJob(env, org, p) || OwesFee(env, org, p)
  {
    var withJobs, withFee := JobOrgs(env.store.jobs, p), FeeOrgs(env, env.listed, p).value;
    JobOrgsAre(env.store.jobs, p, org);
    FeeOrgsAre(env, env.listed, p, org);
    WithoutIs(withFee, withJobs, org);
    hide Metering.InPeriod;
  }

  // Neither depends on the time of the run or on how payments stand.
  lemma SameScope(env: Env, again: Env, p: Period, org: string)
    requires again == env.(now := again.now, clock := again.clock, finalize := again.finalize, setup := again.setup)
    ensures OrgsOf(again, p) == OrgsOf(env, p) && ContentOf(again, org, p) == ContentOf(env, org, p)
  {
    hide PeriodContent.Content, JobOrgs, FeeOrgs, Without;
    SameFees(env, again, env.listed, p);
  }

  lemma {:induction false} SameFees(env: Env, again: Env, listed: seq<string>, p: Period)
    requires again == env.(now := again.now, clock := again.clock, finalize := again.finalize, setup := again.setup)
    ensures FeeOrgs(again, listed, p) == FeeOrgs(env, listed, p)
  {
    if listed != [] { SameFees(env, again, listed[..|listed| - 1], p); }
  }
}
