// What an organization is billed for a period, from the stored jobs and receipts to the lines of the invoice; a preview
// goes the same way.
module PeriodContent {
  import opened Options
  import opened IsoTime
  import LineItems
  import Metering
  import Receipts

  datatype Upload = Upload(receipt: Receipts.Receipt, uploadedAt: string)

  // What is stored, and how the organization is to be billed.
  datatype Store = Store(jobs: seq<Metering.Job>, uploads: seq<Upload>)

  datatype Rules = Rules(context: Metering.Context, validator: Receipts.Validator, pricing: LineItems.Pricing,
                         terms: LineItems.Terms)

  predicate CompletedFor(jobs: seq<Metering.Job>, id: Option<string>, org: string) {
    exists i :: 0 <= i < |jobs| && Some(jobs[i].id) == id && jobs[i].org == org && jobs[i].completed
  }

  // A receipt is billed by when it was uploaded, whenever its job completed.
  predicate UploadedIn(s: Store, u: Upload, org: string, start: Instant, end: Instant) {
    CompletedFor(s.jobs, u.receipt.job, org) && !Less(u.uploadedAt, Text(start)) && Less(u.uploadedAt, Text(end))
  }

  function ReceiptsForPeriod(s: Store, uploads: seq<Upload>, org: string, start: Instant, end: Instant)
    : seq<Receipts.Receipt>
  {
    if uploads == [] then []
    else
      var u := uploads[|uploads| - 1];
      ReceiptsForPeriod(s, uploads[..|uploads| - 1], org, start, end)
      + if UploadedIn(s, u, org, start, end) then [u.receipt] else []
  }

  function Proofs(rs: seq<Receipts.Receipt>): nat {
    if rs == [] then 0
    else
      Proofs(rs[..|rs| - 1]) + if rs[|rs| - 1].payload.Some? && rs[|rs| - 1].payload.value.proof then 1 else 0
  }

  function Policies(rs: seq<Receipts.Receipt>): nat {
    if rs == [] then 0
    else
      Policies(rs[..|rs| - 1]) + if rs[|rs| - 1].payload.Some? && rs[|rs| - 1].payload.value.policy then 1 else 0
  }

  method ReceiptTotals(rs: seq<Receipts.Receipt>) returns (count: nat, verifications: nat, decisions: nat)
    ensures count == |rs| && verifications == Proofs(rs) && decisions == Policies(rs)
  {
    count, verifications, decisions := 0, 0, 0;
    for i := 0 to |rs|
      invariant count == i && verifications == Proofs(rs[..i]) && decisions == Policies(rs[..i])
    {
      assert rs[..i + 1][..i] == rs[..i];
      count := count + 1;
      if rs[i].payload.Some? && rs[i].payload.value.proof {
        verifications := verifications + 1;
      }
      if rs[i].payload.Some? && rs[i].payload.value.policy {
        decisions := decisions + 1;
      }
    }
    assert rs[..|rs|] == rs;
  }

  function UsageOf(s: Store, r: Rules, start: Instant, end: Instant): LineItems.Usage {
    var m := Metering.Measure(Metering.JobsForPeriod(s.jobs, r.context.org, start, end), r.context);
    var valid := Receipts.Valid(ReceiptsForPeriod(s, s.uploads, r.context.org, start, end), r.validator);
    LineItems.Usage(m.jobs, m.seconds, m.own, m.input, m.output, Proofs(valid), Policies(valid), |valid|)
  }

  function Content(s: Store, r: Rules, start: Instant, end: Instant): seq<LineItems.Line> {
    LineItems.PeriodLines(UsageOf(s, r, start, end), r.pricing, r.terms)
  }

  method WorkOutContent(s: Store, r: Rules, start: Instant, end: Instant)
    returns (usage: LineItems.Usage, lines: seq<LineItems.Line>)
    ensures usage == UsageOf(s, r, start, end) && lines == Content(s, r, start, end)
  {
    hide Metering.Measure, Metering.JobsForPeriod, Receipts.Valid, Receipts.Count, ReceiptsForPeriod, Proofs, Policies;
    hide LineItems.LineItems, LineItems.WithIncludedUsage, LineItems.WithRoundingAdjustment, LineItems.WithPlanFee;
    var receipts := ReceiptsForPeriod(s, s.uploads, r.context.org, start, end);
    var valid, malformed, mismatched, duplicates, badSignatures := Receipts.ValidateReceipts(receipts, r.validator);
    var m := Metering.MeasureJobs(Metering.JobsForPeriod(s.jobs, r.context.org, start, end), r.context);
    var count, verifications, decisions := ReceiptTotals(valid);
    usage := LineItems.Usage(m.jobs, m.seconds, m.own, m.input, m.output, verifications, decisions, count);
    var items := LineItems.BuildLineItems(usage, r.pricing);
    items := LineItems.WithIncludedUsage(LineItems.WithRoundingAdjustment(items), r.terms.included);
    lines := LineItems.WithPlanFee(items, r.terms.fee, r.terms.name);
  }

  // Measured usage is never negative and the customer's own part is within it, so nothing is cut when the lines are made.
  lemma UsageIsSound(s: Store, r: Rules, start: Instant, end: Instant)
    requires r.context.ceiling >= 0.0
    ensures var u := UsageOf(s, r, start, end); 0.0 <= u.ownCompute <= u.compute && LineItems.OwnPart(u) == u.ownCompute
  {
    Metering.MeteringIsBounded(Metering.JobsForPeriod(s.jobs, r.context.org, start, end), r.context);
    hide Metering.Measure, Metering.Caps, Metering.Reported, Metering.CountIf;
  }

  lemma {:induction false} SelectionCounts(jobs: seq<Metering.Job>, org: string, start: Instant, end: Instant,
                                           job: Metering.Job)
    ensures multiset(Metering.JobsForPeriod(jobs, org, start, end))[job] ==
      if Metering.InPeriod(job, org, start, end) then multiset(jobs)[job] else 0
  {
    hide Metering.InPeriod;
    if jobs != [] {
      SelectionCounts(jobs[..|jobs| - 1], org, start, end, job);
      assert jobs == jobs[..|jobs| - 1] + [jobs[|jobs| - 1]];
    }
  }

  // The bill does not depend on the order the jobs are stored or listed in.
  lemma BillIgnoresJobOrder(s: Store, jobs: seq<Metering.Job>, r: Rules, start: Instant, end: Instant)
    requires multiset(jobs) == multiset(s.jobs)
    ensures Content(s.(jobs := jobs), r, start, end) == Content(s, r, start, end)
  {
    var a := Metering.JobsForPeriod(s.jobs, r.context.org, start, end);
    var b := Metering.JobsForPeriod(jobs, r.context.org, start, end);
    forall job ensures multiset(a)[job] == multiset(b)[job] {
      SelectionCounts(s.jobs, r.context.org, start, end, job);
      SelectionCounts(jobs, r.context.org, start, end, job);
    }
    assert multiset(a) == multiset(b);
    Metering.MeasureIgnoresOrder(a, b, r.context);
    SameReceipts(s, jobs, s.uploads, r.context.org, start, end);
    hide Metering.Measure, Metering.JobsForPeriod, LineItems.PeriodLines, Receipts.Valid, Proofs, Policies;
  }

  lemma {:induction false} SameReceipts(s: Store, jobs: seq<Metering.Job>, uploads: seq<Upload>, org: string,
                                        start: Instant, end: Instant)
    requires multiset(jobs) == multiset(s.jobs)
    ensures ReceiptsForPeriod(s.(jobs := jobs), uploads, org, start, end) == ReceiptsForPeriod(s, uploads, org, start, end)
  {
    hide Less, Text;
    if uploads != [] {
      SameReceipts(s, jobs, uploads[..|uploads| - 1], org, start, end);
      var id := uploads[|uploads| - 1].receipt.job;
      SameCompleted(jobs, s.jobs, id, org);
      SameCompleted(s.jobs, jobs, id, org);
      hide CompletedFor;
    }
  }

  lemma SameCompleted(a: seq<Metering.Job>, b: seq<Metering.Job>, id: Option<string>, org: string)
    requires multiset(a) == multiset(b)
    ensures CompletedFor(a, id, org) ==> CompletedFor(b, id, org)
  {
    if CompletedFor(a, id, org) {
      var i :| 0 <= i < |a| && Some(a[i].id) == id && a[i].org == org && a[i].completed;
      assert a[i] in multiset(b);
    }
  }

  // From stored jobs and receipts to the amount due: the usage at its prices, rounded once, less the included usage but
  // not below zero, plus the fee.
  lemma AmountDue(s: Store, r: Rules, start: Instant, end: Instant)
    requires LineItems.Priced(r.pricing)
    ensures LineItems.Total(Content(s, r, start, end)) ==
      LineItems.AtLeastZero(LineItems.Cents(LineItems.ExactTotal(LineItems.LineItems(UsageOf(s, r, start, end), r.pricing)))
                            - LineItems.AtLeastZero(r.terms.included))
      + LineItems.AtLeastZero(r.terms.fee)
  {
    LineItems.NetBill(UsageOf(s, r, start, end), r.pricing, r.terms);
  }

  // ------------------------------------------------------------------ which period a receipt is billed in

  // An upload is in at most one of two periods that do not overlap, whatever its time reads.
  lemma PeriodsShareNoUpload(s: Store, u: Upload, org: string, a: Instant, b: Instant, x: Instant, y: Instant)
    requires Micros(b) <= Micros(x)
    ensures !(UploadedIn(s, u, org, a, b) && UploadedIn(s, u, org, x, y))
  {
    TextOrderIsTimeOrder(b, x);
    FieldsOrderTime(b, x);
    hide Text, Micros, CompletedFor;
    if UploadedIn(s, u, org, a, b) && Text(b) != Text(x) {
      LessIsTotal(Text(b), Text(x));
      LessIsTransitive(u.uploadedAt, Text(b), Text(x));
    }
  }

  // For a time written as isoformat writes it, the upload is in the period when the instant is in the interval.
  lemma UploadedInIsInInterval(s: Store, u: Upload, org: string, at: Instant, start: Instant, end: Instant)
    requires u.uploadedAt == Text(at)
    ensures UploadedIn(s, u, org, start, end) <==>
      CompletedFor(s.jobs, u.receipt.job, org) && Micros(start) <= Micros(at) < Micros(end)
  {
    TextOrderIsTimeOrder(at, start);
    TextOrderIsTimeOrder(at, end);
    hide Text, Micros, CompletedFor;
  }

  lemma {:induction false} UploadIsSelected(s: Store, uploads: seq<Upload>, k: nat, org: string, start: Instant, end: Instant)
    requires k < |uploads| && UploadedIn(s, uploads[k], org, start, end)
    ensures uploads[k].receipt in ReceiptsForPeriod(s, uploads, org, start, end)
  {
    hide UploadedIn;
    if k < |uploads| - 1 { UploadIsSelected(s, uploads[..|uploads| - 1], k, org, start, end); }
  }

  // One good receipt uploaded in the period is something to bill, with or without a job completed in it.
  lemma ReceiptIsBillable(s: Store, r: Rules, k: nat, start: Instant, end: Instant)
    requires k < |s.uploads| && UploadedIn(s, s.uploads[k], r.context.org, start, end)
    requires Receipts.Good(s.uploads[k].receipt, r.validator)
    ensures Content(s, r, start, end) != []
  {
    var chosen := ReceiptsForPeriod(s, s.uploads, r.context.org, start, end);
    var receipt, u := s.uploads[k].receipt, UsageOf(s, r, start, end);
    hide UploadedIn, Receipts.Good, Proofs, Policies, Metering.Measure, Metering.JobsForPeriod, ReceiptsForPeriod;
    UploadIsSelected(s, s.uploads, k, r.context.org, start, end);
    var j :| 0 <= j < |chosen| && chosen[j] == receipt;
    assert Receipts.AnyGood(chosen, r.validator, receipt.id);
    Receipts.SeenAreGood(chosen, r.validator, receipt.id);
    hide Receipts.Valid, Receipts.AnyGood;
    assert u.receipts > 0;
    LineItems.EmptyMeansUnused(u, r.pricing);
    LineItems.NothingToBillIff(u, r.pricing, r.terms);
    hide LineItems.LineItems, LineItems.PeriodLines;
  }
}
