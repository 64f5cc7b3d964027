// Usage measured from completed jobs: billable seconds and tokens, with bad values set aside and counted.
module Metering {
  import opened Options
  import opened IsoTime

  // A value out of a job's stored result: absent, not a usable number (text, a boolean, not finite), or a number.
  datatype Reading = Missing | Unusable | Number(value: real)

  // Token counts are read with "or 0", so anything empty is Missing here.
  datatype TokenUse = NoTokens | Tokens(input: Reading, output: Reading)

  datatype Job = Job(id: string, org: string, completed: bool, completedAt: string,
                     timeout: Reading, runtime: Reading, tokens: TokenUse)

  // Who is billed, where each job ran, whose each node is, and the ceiling for a job without a timeout. "" is nobody.
  datatype Context = Context(org: string, jobNodes: map<string, string>, nodeOrgs: map<string, string>, ceiling: real)

  datatype Measured = Measured(jobs: nat, seconds: real, own: real, input: nat, output: nat,
                               invalidRuntime: nat, clampedRuntime: nat, invalidTokens: nat)

  const NOTHING := Measured(0, 0.0, 0.0, 0, 0, 0, 0, 0)

  function Plus(a: Measured, b: Measured): Measured {
    Measured(a.jobs + b.jobs, a.seconds + b.seconds, a.own + b.own, a.input + b.input, a.output + b.output,
             a.invalidRuntime + b.invalidRuntime, a.clampedRuntime + b.clampedRuntime, a.invalidTokens + b.invalidTokens)
  }

  function Cap(job: Job, ceiling: real): real {
    if job.timeout.Number? && job.timeout.value > 0.0 then job.timeout.value else ceiling
  }

  predicate Usable(r: Reading) { r.Number? && r.value >= 0.0 }

  predicate Invalid(r: Reading) { r.Unusable? || (r.Number? && r.value < 0.0) }

  function Seconds(job: Job, ceiling: real): real {
    if !Usable(job.runtime) then 0.0
    else if job.runtime.value > Cap(job, ceiling) then Cap(job, ceiling) else job.runtime.value
  }

  predicate Clamped(job: Job, ceiling: real) { Usable(job.runtime) && job.runtime.value > Cap(job, ceiling) }

  predicate OnOwnWorker(job: Job, c: Context) {
    c.org != "" && job.id in c.jobNodes && c.jobNodes[job.id] != ""
    && c.jobNodes[job.id] in c.nodeOrgs && c.nodeOrgs[c.jobNodes[job.id]] == c.org
  }

  function CleanTokens(r: Reading): Option<nat> {
    if r.Missing? then Some(0) else if Usable(r) then Some(r.value.Floor) else None
  }

  predicate TokensCount(t: TokenUse) { t.Tokens? && CleanTokens(t.input).Some? && CleanTokens(t.output).Some? }

  function InputCount(t: TokenUse): nat { if TokensCount(t) then CleanTokens(t.input).value else 0 }

  function OutputCount(t: TokenUse): nat { if TokensCount(t) then CleanTokens(t.output).value else 0 }

  // What one job adds.
  function Share(job: Job, c: Context): Measured {
    var seconds := Seconds(job, c.ceiling);
    Measured(1, seconds, if OnOwnWorker(job, c) then seconds else 0.0,
             InputCount(job.tokens),
             OutputCount(job.tokens),
             if Invalid(job.runtime) then 1 else 0, if Clamped(job, c.ceiling) then 1 else 0,
             if job.tokens.Tokens? && !TokensCount(job.tokens) then 1 else 0)
  }

  function Measure(jobs: seq<Job>, c: Context): Measured {
    if jobs == [] then NOTHING else Plus(Measure(jobs[..|jobs| - 1], c), Share(jobs[|jobs| - 1], c))
  }

  // The counts of what was set aside, kept as the jobs are gone through.
  class Excluded {
    var invalidRuntime: nat
    var clampedRuntime: nat
    var invalidTokens: nat

    constructor ()
      ensures invalidRuntime == 0 && clampedRuntime == 0 && invalidTokens == 0
    {
      invalidRuntime, clampedRuntime, invalidTokens := 0, 0, 0;
    }
  }

  method CleanRuntime(job: Job, ceiling: real, excluded: Excluded) returns (seconds: real)
    modifies excluded
    ensures seconds == Seconds(job, ceiling)
    ensures excluded.invalidRuntime == old(excluded.invalidRuntime) + if Invalid(job.runtime) then 1 else 0
    ensures excluded.clampedRuntime == old(excluded.clampedRuntime) + if Clamped(job, ceiling) then 1 else 0
    ensures excluded.invalidTokens == old(excluded.invalidTokens)
  {
    if job.runtime.Missing? {
      return 0.0;
    }
    if !job.runtime.Number? || job.runtime.value < 0.0 {
      excluded.invalidRuntime := excluded.invalidRuntime + 1;
      return 0.0;
    }
    var cap := if job.timeout.Number? && job.timeout.value > 0.0 then job.timeout.value else ceiling;
    if job.runtime.value > cap {
      excluded.clampedRuntime := excluded.clampedRuntime + 1;
      return cap;
    }
    return job.runtime.value;
  }

  method CountTokens(job: Job, excluded: Excluded) returns (tin: nat, tout: nat)
    modifies excluded
    ensures tin == InputCount(job.tokens)
    ensures tout == OutputCount(job.tokens)
    ensures excluded.invalidTokens == old(excluded.invalidTokens) + if job.tokens.Tokens? && !TokensCount(job.tokens) then 1 else 0
    ensures excluded.invalidRuntime == old(excluded.invalidRuntime) && excluded.clampedRuntime == old(excluded.clampedRuntime)
  {
    if job.tokens.NoTokens? {
      return 0, 0;
    }
    var input, output := CleanTokens(job.tokens.input), CleanTokens(job.tokens.output);
    if input.None? || output.None? {
      excluded.invalidTokens := excluded.invalidTokens + 1;
      return 0, 0;
    }
    return input.value, output.value;
  }

  // One more job, figure by figure.
  lemma UpTo(jobs: seq<Job>, i: nat, c: Context)
    requires i < |jobs|
    ensures var m, n, job := Measure(jobs[..i], c), Measure(jobs[..i + 1], c), jobs[i];
      && n.jobs == m.jobs + 1
      && n.seconds == m.seconds + Seconds(job, c.ceiling)
      && n.own == m.own + (if OnOwnWorker(job, c) then Seconds(job, c.ceiling) else 0.0)
      && n.input == m.input + InputCount(job.tokens)
      && n.output == m.output + OutputCount(job.tokens)
      && n.invalidRuntime == m.invalidRuntime + (if Invalid(job.runtime) then 1 else 0)
      && n.clampedRuntime == m.clampedRuntime + (if Clamped(job, c.ceiling) then 1 else 0)
      && n.invalidTokens == m.invalidTokens + (if job.tokens.Tokens? && !TokensCount(job.tokens) then 1 else 0)
  {
    hide Measure, Seconds, OnOwnWorker, Invalid, Clamped, InputCount, OutputCount, TokensCount;
    OneMore(jobs[..i], jobs[i], c);
    assert jobs[..i + 1] == jobs[..i] + [jobs[i]];
  }

  method MeasureJobs(jobs: seq<Job>, c: Context) returns (m: Measured)
    ensures m == Measure(jobs, c)
  {
    var excluded := new Excluded();
    var seconds, own := 0.0, 0.0;
    var input, output := 0, 0;
    assert Measure(jobs[..0], c) == NOTHING;
    hide *;
    for i := 0 to |jobs|
      invariant fresh(excluded)
      invariant Measured(i, seconds, own, input, output, excluded.invalidRuntime, excluded.clampedRuntime,
                         excluded.invalidTokens) == Measure(jobs[..i], c)
    {
      var job := jobs[i];
      UpTo(jobs, i, c);
      var billable := CleanRuntime(job, c.ceiling, excluded);
      seconds := seconds + billable;
      if OnOwnWorker(job, c) {
        own := own + billable;
      }
      var tin, tout := CountTokens(job, excluded);
      input := input + tin;
      output := output + tout;
    }
    assert jobs[..|jobs|] == jobs;
    m := Measured(|jobs|, seconds, own, input, output, excluded.invalidRuntime, excluded.clampedRuntime, excluded.invalidTokens);
  }

  // ------------------------------------------------------------------ what the totals mean

  lemma PlusLaws(a: Measured, b: Measured, d: Measured)
    ensures Plus(Plus(a, b), d) == Plus(a, Plus(b, d)) && Plus(a, b) == Plus(b, a) && Plus(a, NOTHING) == a
  {
  }

  lemma OneMore(jobs: seq<Job>, job: Job, c: Context)
    ensures Measure(jobs + [job], c) == Plus(Measure(jobs, c), Share(job, c))
  {
    hide Share, Plus;
    assert (jobs + [job])[..|jobs|] == jobs;
  }

  lemma {:induction false} MeasureAdds(a: seq<Job>, b: seq<Job>, c: Context)
    ensures Measure(a + b, c) == Plus(Measure(a, c), Measure(b, c))
  {
    hide Share, Plus;
    PlusLaws(Measure(a, c), NOTHING, NOTHING);
    if b == [] {
      assert a + b == a;
    } else {
      var front, job := b[..|b| - 1], b[|b| - 1];
      assert a + b == (a + front) + [job] && b == front + [job];
      MeasureAdds(a, front, c);
      OneMore(a + front, job, c);
      OneMore(front, job, c);
      PlusLaws(Measure(a, c), Measure(front, c), Share(job, c));
      hide Measure;
    }
  }

  lemma MoveToEnd(left: seq<Job>, job: Job, right: seq<Job>, c: Context)
    ensures Measure(left + [job] + right, c) == Measure(left + right + [job], c)
  {
    hide Measure, Plus, Share;
    MeasureAdds(left + [job], right, c);
    MeasureAdds(left, [job], c);
    MeasureAdds(left + right, [job], c);
    MeasureAdds(left, right, c);
    PlusLaws(Measure(left, c), Measure([job], c), Measure(right, c));
    PlusLaws(Measure(left, c), Measure(right, c), Measure([job], c));
    PlusLaws(Measure(right, c), Measure([job], c), NOTHING);
  }

  lemma WithoutOne<T>(s: seq<T>, k: nat)
    requires k < |s|
    ensures multiset(s) - multiset{s[k]} == multiset(s[..k] + s[k + 1..])
  {
    assert s == s[..k] + [s[k]] + s[k + 1..];
  }

  // The last of one listing is somewhere in the other, and the rest are the same again.
  lemma LastIsIn<T>(a: seq<T>, b: seq<T>) returns (k: nat)
    requires multiset(a) == multiset(b) && a != []
    ensures k < |b| && b[k] == a[|a| - 1]
    ensures multiset(a[..|a| - 1]) == multiset(b[..k] + b[k + 1..])
  {
    assert a[|a| - 1] in multiset(b);
    k :| 0 <= k < |b| && b[k] == a[|a| - 1];
    WithoutOne(a, |a| - 1);
    WithoutOne(b, k);
    assert a[..|a| - 1] + a[|a|..] == a[..|a| - 1];
  }

  // The order the database lists the jobs in does not matter.
  lemma {:induction false} MeasureIgnoresOrder(a: seq<Job>, b: seq<Job>, c: Context)
    requires multiset(a) == multiset(b)
    ensures Measure(a, c) == Measure(b, c)
    decreases |a|
  {
    hide Share, Plus, Measure;
    assert |a| == |multiset(a)| == |multiset(b)| == |b|;
    if a == [] {
      assert a == b;
    } else {
      var k := LastIsIn(a, b);
      var job, front, left, right := a[|a| - 1], a[..|a| - 1], b[..k], b[k + 1..];
      MeasureIgnoresOrder(front, left + right, c);
      OneMore(front, job, c);
      OneMore(left + right, job, c);
      MoveToEnd(left, job, right, c);
      assert a == front + [job] && b == left + [job] + right;
    }
  }

  function Caps(jobs: seq<Job>, ceiling: real): real {
    if jobs == [] then 0.0 else Caps(jobs[..|jobs| - 1], ceiling) + Cap(jobs[|jobs| - 1], ceiling)
  }

  // Seconds as reported, where the report is usable.
  function Reported(jobs: seq<Job>): real {
    if jobs == [] then 0.0
    else Reported(jobs[..|jobs| - 1]) + if Usable(jobs[|jobs| - 1].runtime) then jobs[|jobs| - 1].runtime.value else 0.0
  }

  function CountIf(jobs: seq<Job>, p: Job -> bool): nat {
    if jobs == [] then 0 else CountIf(jobs[..|jobs| - 1], p) + if p(jobs[|jobs| - 1]) then 1 else 0
  }

  // Whatever the workers report, no more is billed than the jobs were allowed, nor than was reported; what ran on the
  // customer's own workers is part of the whole; and every job is set aside, clamped, unreported or billed as reported.
  lemma {:induction false} MeteringIsBounded(jobs: seq<Job>, c: Context)
    requires c.ceiling >= 0.0
    ensures var m := Measure(jobs, c);
      && 0.0 <= m.own <= m.seconds && m.seconds <= Caps(jobs, c.ceiling) && m.seconds <= Reported(jobs)
      && m.jobs == |jobs|
      && m.jobs == m.invalidRuntime + m.clampedRuntime + CountIf(jobs, (j: Job) => j.runtime.Missing?)
                   + CountIf(jobs, (j: Job) => Usable(j.runtime) && Seconds(j, c.ceiling) == j.runtime.value)
      && (m.clampedRuntime == 0 ==> m.seconds == Reported(jobs))
  {
    if jobs != [] { MeteringIsBounded(jobs[..|jobs| - 1], c); }
  }

  function OwnJobs(jobs: seq<Job>, c: Context): seq<Job> {
    if jobs == [] then []
    else
      var own := OwnJobs(jobs[..|jobs| - 1], c);
      if OnOwnWorker(jobs[|jobs| - 1], c) then own + [jobs[|jobs| - 1]] else own
  }

  // Own-worker seconds are what the jobs that ran on the organization's own workers come to on their own.
  lemma {:induction false} OwnSecondsAreTheOwnJobs(jobs: seq<Job>, c: Context)
    ensures Measure(jobs, c).own == Measure(OwnJobs(jobs, c), c).seconds
  {
    hide Measure, OnOwnWorker, Seconds;
    if jobs == [] {
      assert OwnJobs(jobs, c) == jobs;
      NoJobsNothing(c);
    } else {
      var front, job := jobs[..|jobs| - 1], jobs[|jobs| - 1];
      OwnSecondsAreTheOwnJobs(front, c);
      LastSeconds(jobs, c);
      SecondsUpTo(OwnJobs(front, c), job, c);
    }
  }

  lemma NoJobsNothing(c: Context)
    ensures Measure([], c) == NOTHING
  {
  }

  lemma LastSeconds(jobs: seq<Job>, c: Context)
    requires jobs != []
    ensures Measure(jobs, c).own ==
      Measure(jobs[..|jobs| - 1], c).own + if OnOwnWorker(jobs[|jobs| - 1], c) then Seconds(jobs[|jobs| - 1], c.ceiling) else 0.0
  {
    hide Seconds, OnOwnWorker, Invalid, Clamped, InputCount, OutputCount, TokensCount;
  }

  lemma SecondsUpTo(jobs: seq<Job>, job: Job, c: Context)
    ensures Measure(jobs + [job], c).seconds == Measure(jobs, c).seconds + Seconds(job, c.ceiling)
    ensures Measure(jobs + [job], c).own ==
      Measure(jobs, c).own + if OnOwnWorker(job, c) then Seconds(job, c.ceiling) else 0.0
  {
    OneMore(jobs, job, c);
    hide Measure, Seconds, OnOwnWorker, Invalid, Clamped, InputCount, OutputCount, TokensCount;
  }

  // ------------------------------------------------------------------ periods

  // Completed jobs of the organization whose completion time is, as text, in [start, end).
  predicate InPeriod(job: Job, org: string, start: Instant, end: Instant) {
    job.org == org && job.completed && !Less(job.completedAt, Text(start)) && Less(job.completedAt, Text(end))
  }

  function JobsForPeriod(jobs: seq<Job>, org: string, start: Instant, end: Instant): seq<Job> {
    if jobs == [] then []
    else
      JobsForPeriod(jobs[..|jobs| - 1], org, start, end)
      + if InPeriod(jobs[|jobs| - 1], org, start, end) then [jobs[|jobs| - 1]] else []
  }

  // A period that starts when another ends, or later, has no job in common with it, however its times are written.
  lemma PeriodsShareNoJob(job: Job, org: string, a: Instant, b: Instant, x: Instant, y: Instant)
    requires Micros(b) <= Micros(x)
    ensures !(InPeriod(job, org, a, b) && InPeriod(job, org, x, y))
  {
    TextOrderIsTimeOrder(b, x);
    FieldsOrderTime(b, x);
    hide Text, Micros;
    if InPeriod(job, org, a, b) && Text(b) != Text(x) {
      LessIsTotal(Text(b), Text(x));
      LessIsTransitive(job.completedAt, Text(b), Text(x));
    }
  }

  // For a time written as isoformat writes it, being in the period is being in the interval.
  lemma InPeriodIsInInterval(job: Job, org: string, at: Instant, start: Instant, end: Instant)
    requires job.completedAt == Text(at)
    ensures InPeriod(job, org, start, end) <==> job.org == org && job.completed && Micros(start) <= Micros(at) < Micros(end)
  {
    TextOrderIsTimeOrder(at, start);
    TextOrderIsTimeOrder(at, end);
  }

  lemma InOneHalf(job: Job, org: string, a: Instant, b: Instant, x: Instant)
    requires Micros(a) <= Micros(b) <= Micros(x)
    ensures InPeriod(job, org, a, x) <==> InPeriod(job, org, a, b) || InPeriod(job, org, b, x)
  {
    TextOrderIsTimeOrder(b, a);
    TextOrderIsTimeOrder(x, b);
    hide Text, Micros;
    var t := job.completedAt;
    LessIsTotal(Text(a), Text(b));
    LessIsTotal(Text(b), Text(x));
    LessIsTotal(t, Text(a));
    LessIsTotal(t, Text(b));
    if Less(t, Text(a)) && Less(Text(a), Text(b)) { LessIsTransitive(t, Text(a), Text(b)); }
    if Less(t, Text(b)) && Less(Text(b), Text(x)) { LessIsTransitive(t, Text(b), Text(x)); }
  }

  // Usage over a period is the usage of its two parts together.
  lemma {:induction false} PeriodsAdd(jobs: seq<Job>, org: string, a: Instant, b: Instant, x: Instant, c: Context)
    requires Micros(a) <= Micros(b) <= Micros(x)
    ensures Measure(JobsForPeriod(jobs, org, a, x), c) ==
      Plus(Measure(JobsForPeriod(jobs, org, a, b), c), Measure(JobsForPeriod(jobs, org, b, x), c))
  {
    PlusLaws(NOTHING, NOTHING, NOTHING);
    hide Share, InPeriod, Micros, Plus;
    if jobs != [] {
      var job, front := jobs[|jobs| - 1], jobs[..|jobs| - 1];
      PeriodsAdd(front, org, a, b, x, c);
      InOneHalf(job, org, a, b, x);
      PeriodsShareNoJob(job, org, a, b, b, x);
      var all, first, second := JobsForPeriod(front, org, a, x), JobsForPeriod(front, org, a, b), JobsForPeriod(front, org, b, x);
      OneMore(all, job, c);
      OneMore(first, job, c);
      OneMore(second, job, c);
      PlusLaws(Measure(first, c), Measure(second, c), Share(job, c));
      PlusLaws(Measure(second, c), Share(job, c), NOTHING);
      PlusLaws(Measure(first, c), Share(job, c), Measure(second, c));
      assert all + [] == all && first + [] == first && second + [] == second;
      hide Measure;
    }
  }
}
