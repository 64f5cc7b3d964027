// Automatic runs one after another, while jobs complete and receipts come in between them: when an uploaded receipt is
// billed.
module BillingOverTime {
  import opened Options
  import opened IsoTime
  import opened Calendar
  import opened BillingScope
  import opened BillingRuns
  import opened Invoices
  import InvoiceLife
  import LineItems
  import PeriodContent

  // One run: what it reads, the store as it then is included, and how many months it covers.
  datatype Pass = Pass(env: Env, count: nat)

  function AfterPass(l: Ledger, pass: Pass): Ledger {
    var window := PreviousMonths(pass.env.now, pass.count);
    if window.None? then l else BillMonths(Work(l, NOTHING_YET), window.value, pass.env).0.ledger
  }

  function AfterPasses(l: Ledger, passes: seq<Pass>): Ledger {
    if passes == [] then l else AfterPass(AfterPasses(l, passes[..|passes| - 1]), passes[|passes| - 1])
  }

  predicate WholeMonths(p: Period) {
    MonthStart(p.0) && MonthStart(p.1) && MonthIndex(p.1) == MonthIndex(p.0) + 1
  }

  // A run only adds invoices, each of one whole month and apart from all the others.
  lemma PassAdds(l: Ledger, pass: Pass)
    ensures Grown(l.rows, AfterPass(l, pass).rows)
    ensures forall j :: |l.rows| <= j < |AfterPass(l, pass).rows| ==>
      var r := AfterPass(l, pass).rows[j]; r.start.Canonical? && r.end.Canonical? && WholeMonths((r.start.at, r.end.at))
    ensures AllApart(l.rows) ==> AllApart(AfterPass(l, pass).rows)
  {
    hide *;
    var window := PreviousMonths(pass.env.now, pass.count);
    if window.None? {
      NothingPasses(l, pass);
    } else {
      var months, w := window.value, Work(l, NOTHING_YET);
      WindowIsBillable(pass.env.now, pass.count);
      WindowIsMonths(pass.env.now, pass.count);
      MonthsResolve(w, months, pass.env);
      PassIsRun(l, pass);
      AddedAreMonths(l.rows, AfterPass(l, pass).rows, months, pass.env);
      if AllApart(l.rows) {
        var ops := RunIsCalls(w, months, pass.env);
        InvoiceLife.NoTimeBilledTwice(l, ops);
      }
    }
  }

  lemma NothingPasses(l: Ledger, pass: Pass)
    requires PreviousMonths(pass.env.now, pass.count).None?
    ensures AfterPass(l, pass) == l && Grown(l.rows, l.rows)
  {
    hide PreviousMonths;
  }

  lemma PassIsRun(l: Ledger, pass: Pass)
    requires PreviousMonths(pass.env.now, pass.count).Some?
    ensures AfterPass(l, pass) ==
      BillMonths(Work(l, NOTHING_YET), PreviousMonths(pass.env.now, pass.count).value, pass.env).0.ledger
  {
    hide PreviousMonths, BillMonths;
  }

  lemma AddedAreMonths(rows: seq<Invoice>, now: seq<Invoice>, months: seq<Period>, env: Env)
    requires AddedFor(rows, now, months, env)
    requires forall i :: 0 <= i < |months| ==>
      MonthStart(months[i].0) && MonthStart(months[i].1) && MonthIndex(months[i].1) == MonthIndex(months[i].0) + 1
    ensures forall j :: |rows| <= j < |now| ==>
      now[j].start.Canonical? && now[j].end.Canonical? && WholeMonths((now[j].start.at, now[j].end.at))
  {
    hide MonthStart, MonthIndex, InScope, ContentOf;
    forall j | |rows| <= j < |now|
      ensures now[j].start.Canonical? && now[j].end.Canonical? && WholeMonths((now[j].start.at, now[j].end.at))
    {
      assert MadeFor(now[j], months, env);
    }
  }

  lemma {:induction false} PassesKeepApart(l: Ledger, passes: seq<Pass>)
    requires AllApart(l.rows)
    ensures AllApart(AfterPasses(l, passes).rows)
  {
    hide AfterPass, AllApart;
    if passes != [] {
      PassesKeepApart(l, passes[..|passes| - 1]);
      PassAdds(AfterPasses(l, passes[..|passes| - 1]), passes[|passes| - 1]);
    }
  }

  // ------------------------------------------------------------------ when a receipt is billed

  predicate UploadedDuring(u: PeriodContent.Upload, p: Period) {
    !Less(u.uploadedAt, Text(p.0)) && Less(u.uploadedAt, Text(p.1))
  }

  // Run k adds row j.
  predicate AddsRow(l: Ledger, passes: seq<Pass>, k: nat, j: Id) {
    k < |passes| && |AfterPasses(l, passes[..k]).rows| <= j < |AfterPasses(l, passes[..k + 1]).rows|
  }

  // Run k makes the organization's invoice of p.
  predicate MakesInvoice(l: Ledger, passes: seq<Pass>, k: nat, org: string, p: Period) {
    && k < |passes|
    && !BilledFor(AfterPasses(l, passes[..k]).rows, org, p) && BilledFor(AfterPasses(l, passes[..k + 1]).rows, org, p)
  }

  predicate Stored(pass: Pass, u: PeriodContent.Upload, org: string) {
    u in pass.env.store.uploads && PeriodContent.CompletedFor(pass.env.store.jobs, u.receipt.job, org)
  }

  // Row j, made by run k for the organization, is of a period from which the upload was then picked.
  predicate PickedFor(l: Ledger, passes: seq<Pass>, u: PeriodContent.Upload, org: string, k: nat, j: Id) {
    && AddsRow(l, passes, k, j)
    && var r, env := AfterPasses(l, passes[..k + 1]).rows[j], passes[k].env;
    && r.org == org && r.start.Canonical? && r.end.Canonical?
    && u in env.store.uploads && PeriodContent.UploadedIn(env.store, u, org, r.start.at, r.end.at)
  }

  ghost predicate EverBilled(l: Ledger, passes: seq<Pass>, u: PeriodContent.Upload, org: string) {
    exists k: nat, j: Id :: PickedFor(l, passes, u, org, k, j)
  }

  lemma OnePass(l: Ledger, passes: seq<Pass>, k: nat)
    requires k < |passes|
    ensures AfterPasses(l, passes[..k + 1]) == AfterPass(AfterPasses(l, passes[..k]), passes[k])
  {
    hide AfterPass;
    assert passes[..k + 1][..k] == passes[..k];
  }

  // Two whole months in which the same upload falls are the same month.
  lemma SameUploadSameMonth(s: PeriodContent.Store, u: PeriodContent.Upload, org: string, p: Period, q: Period)
    requires WholeMonths(p) && WholeMonths(q)
    requires PeriodContent.UploadedIn(s, u, org, p.0, p.1) && PeriodContent.UploadedIn(s, u, org, q.0, q.1)
    ensures p == q
  {
    hide PeriodContent.UploadedIn, Micros, MonthStart, MonthIndex;
    if Micros(p.1) <= Micros(q.0) {
      PeriodContent.PeriodsShareNoUpload(s, u, org, p.0, p.1, q.0, q.1);
    } else if Micros(q.1) <= Micros(p.0) {
      PeriodContent.PeriodsShareNoUpload(s, u, org, q.0, q.1, p.0, p.1);
    } else {
      MonthsMeetOnlyThemselves(p, q);
    }
  }

  lemma UploadedInMeans(s: PeriodContent.Store, u: PeriodContent.Upload, org: string, p: Period)
    ensures PeriodContent.UploadedIn(s, u, org, p.0, p.1) <==>
      PeriodContent.CompletedFor(s.jobs, u.receipt.job, org) && UploadedDuring(u, p)
  {
    hide Less, PeriodContent.CompletedFor, Text;
  }

  // The invoice of exactly p, new, is the only one to share time with p.
  lemma NewForMonth(rows: seq<Invoice>, now: seq<Invoice>, j: Id, org: string, p: Period)
    requires Grown(rows, now) && AllApart(now) && |rows| <= j < |now| && WholeMonths(p)
    requires now[j].org == org && now[j].start == Canonical(p.0) && now[j].end == Canonical(p.1)
    ensures BilledFor(now, org, p) && !BilledFor(rows, org, p)
  {
    hide Micros, MonthStart, MonthIndex;
    assert Micros(p.0) < Micros(p.1) by { MonthsAreIntervals(p); }
    assert Overlaps(now[j], org, p.0, p.1);
    TheOnlyRow(now, j, p, org);
    assert forall i :: 0 <= i < |rows| && Overlaps(rows[i], org, p.0, p.1) ==> Overlaps(now[i], org, p.0, p.1);
  }

  lemma OverlapIsNew(rows: seq<Invoice>, now: seq<Invoice>, org: string, p: Period) returns (j: Id)
    requires Grown(rows, now) && BilledFor(now, org, p) && !BilledFor(rows, org, p) && WholeMonths(p)
    requires forall i :: |rows| <= i < |now| ==>
      now[i].start.Canonical? && now[i].end.Canonical? && WholeMonths((now[i].start.at, now[i].end.at))
    ensures |rows| <= j < |now| && now[j].org == org && now[j].start == Canonical(p.0) && now[j].end == Canonical(p.1)
  {
    hide Micros, MonthStart, MonthIndex;
    j :| 0 <= j < |now| && Overlaps(now[j], org, p.0, p.1);
    assert j < |rows| ==> Overlaps(rows[j], org, p.0, p.1);
    MonthsMeetOnlyThemselves(p, (now[j].start.at, now[j].end.at));
  }

  lemma PickedMeansInvoiced(l: Ledger, passes: seq<Pass>, u: PeriodContent.Upload, org: string, p: Period, k: nat, j: Id)
    requires AllApart(l.rows) && WholeMonths(p) && UploadedDuring(u, p) && PickedFor(l, passes, u, org, k, j)
    ensures MakesInvoice(l, passes, k, org, p) && Stored(passes[k], u, org)
  {
    hide AllApart, Grown, AfterPass, UploadedDuring, WholeMonths, BilledFor, PeriodContent.UploadedIn;
    var before, after := AfterPasses(l, passes[..k]), AfterPasses(l, passes[..k + 1]);
    var r, store := after.rows[j], passes[k].env.store;
    OnePass(l, passes, k);
    PassesKeepApart(l, passes[..k]);
    PassAdds(before, passes[k]);
    var q := (r.start.at, r.end.at);
    UploadedInMeans(store, u, org, p);
    UploadedInMeans(store, u, org, q);
    SameUploadSameMonth(store, u, org, p, q);
    NewForMonth(before.rows, after.rows, j, org, p);
  }

  lemma InvoicedMeansPicked(l: Ledger, passes: seq<Pass>, u: PeriodContent.Upload, org: string, p: Period, k: nat)
    requires WholeMonths(p) && UploadedDuring(u, p) && MakesInvoice(l, passes, k, org, p) && Stored(passes[k], u, org)
    ensures exists j: Id :: PickedFor(l, passes, u, org, k, j)
  {
    hide AllApart, Grown, AfterPass, UploadedDuring, WholeMonths, BilledFor, PeriodContent.UploadedIn;
    var before, after := AfterPasses(l, passes[..k]), AfterPasses(l, passes[..k + 1]);
    OnePass(l, passes, k);
    PassAdds(before, passes[k]);
    var j := OverlapIsNew(before.rows, after.rows, org, p);
    UploadedInMeans(passes[k].env.store, u, org, p);
    assert PickedFor(l, passes, u, org, k, j);
  }

  // When a run that goes through all its months makes the invoice of one: it covers the month, nothing of it is billed yet,
  // there is something to bill, and the organization has a completed job in the month or owes a fee.
  lemma MakesInvoiceIff(l: Ledger, passes: seq<Pass>, k: nat, org: string, p: Period)
    requires k < |passes| && PreviousMonths(passes[k].env.now, passes[k].count).Some? && WholeMonths(p) && org != ""
    requires BillMonths(Work(AfterPasses(l, passes[..k]), NOTHING_YET),
                        PreviousMonths(passes[k].env.now, passes[k].count).value, passes[k].env).1
    ensures var env := passes[k].env;
      MakesInvoice(l, passes, k, org, p) <==>
        && p in PreviousMonths(env.now, passes[k].count).value && !BilledFor(AfterPasses(l, passes[..k]).rows, org, p)
        && ContentOf(env, org, p).Some? && ContentOf(env, org, p).value != []
        && (HasJob(env, org, p) || OwesFee(env, org, p))
  {
    hide *;
    var env, months, before := passes[k].env, PreviousMonths(passes[k].env.now, passes[k].count).value, AfterPasses(l, passes[..k]);
    OnePass(l, passes, k);
    PassIsRun(before, passes[k]);
    PassAdds(before, passes[k]);
    var after := AfterPass(before, passes[k]);
    assert MakesInvoice(l, passes, k, org, p) <==> !BilledFor(before.rows, org, p) && BilledFor(after.rows, org, p) by {
      MakesInvoiceMeans(l, passes, k, org, p);
    }
    if !BilledFor(before.rows, org, p) && BilledFor(after.rows, org, p) {
      var j := OverlapIsNew(before.rows, after.rows, org, p);
      WindowIsBillable(env.now, passes[k].count);
      MonthsResolve(Work(before, NOTHING_YET), months, env);
      NewIsMade(before.rows, after.rows, months, env, j, p);
      OrgsOfAre(env, p, org);
    } else if p in months && ContentOf(env, org, p).Some? && ContentOf(env, org, p).value != []
              && !BilledFor(before.rows, org, p) {
      RunInvoicesIff(before, env, passes[k].count, p, org);
    }
  }

  lemma MakesInvoiceMeans(l: Ledger, passes: seq<Pass>, k: nat, org: string, p: Period)
    requires k < |passes|
    ensures MakesInvoice(l, passes, k, org, p) <==>
      !BilledFor(AfterPasses(l, passes[..k]).rows, org, p) && BilledFor(AfterPasses(l, passes[..k + 1]).rows, org, p)
  {
    hide AfterPasses, BilledFor;
  }

  lemma NewIsMade(rows: seq<Invoice>, now: seq<Invoice>, months: seq<Period>, env: Env, j: Id, p: Period)
    requires AddedFor(rows, now, months, env) && |rows| <= j < |now|
    requires now[j].start == Canonical(p.0) && now[j].end == Canonical(p.1)
    ensures p in months && OrgsOf(env, p).Some? && now[j].org in OrgsOf(env, p).value
    ensures ContentOf(env, now[j].org, p).Some? && ContentOf(env, now[j].org, p).value != []
  {
    hide OrgsOf, ContentOf;
    assert MadeFor(now[j], months, env);
  }

  // What such a row charges was worked out from receipts among which this one is.
  lemma PickedIsBilled(l: Ledger, passes: seq<Pass>, u: PeriodContent.Upload, org: string, k: nat, j: Id)
    requires PickedFor(l, passes, u, org, k, j)
    ensures var r, env := AfterPasses(l, passes[..k + 1]).rows[j], passes[k].env;
      && ContentOf(env, org, (r.start.at, r.end.at)) == Some(r.lines) && r.amount == LineItems.Total(r.lines)
      && u.receipt in PeriodContent.ReceiptsForPeriod(env.store, env.store.uploads, org, r.start.at, r.end.at)
  {
    hide AfterPass, AfterPasses, PeriodContent.UploadedIn, ContentOf, PeriodContent.ReceiptsForPeriod, LineItems.Total;
    var r, env := AfterPasses(l, passes[..k + 1]).rows[j], passes[k].env;
    OnePass(l, passes, k);
    PassContent(AfterPasses(l, passes[..k]), passes[k], j);
    var i :| 0 <= i < |env.store.uploads| && env.store.uploads[i] == u;
    PeriodContent.UploadIsSelected(env.store, env.store.uploads, i, org, r.start.at, r.end.at);
  }

  lemma PassContent(l: Ledger, pass: Pass, j: Id)
    requires |l.rows| <= j < |AfterPass(l, pass).rows|
    ensures var r := AfterPass(l, pass).rows[j];
      && r.start.Canonical? && r.end.Canonical? && r.amount == LineItems.Total(r.lines)
      && ContentOf(pass.env, r.org, (r.start.at, r.end.at)) == Some(r.lines)
  {
    hide *;
    if PreviousMonths(pass.env.now, pass.count).None? {
      NothingPasses(l, pass);
    } else {
      var months := PreviousMonths(pass.env.now, pass.count).value;
      WindowIsBillable(pass.env.now, pass.count);
      MonthsResolve(Work(l, NOTHING_YET), months, pass.env);
      PassIsRun(l, pass);
      AddedHaveContent(l.rows, AfterPass(l, pass).rows, months, pass.env, j);
    }
  }

  lemma AddedHaveContent(rows: seq<Invoice>, now: seq<Invoice>, months: seq<Period>, env: Env, j: Id)
    requires AddedFor(rows, now, months, env) && |rows| <= j < |now|
    ensures now[j].start.Canonical? && now[j].end.Canonical? && now[j].amount == LineItems.Total(now[j].lines)
    ensures ContentOf(env, now[j].org, (now[j].start.at, now[j].end.at)) == Some(now[j].lines)
  {
    hide InScope, ContentOf, LineItems.Total;
    assert MadeFor(now[j], months, env);
  }

  // The exact condition: over any runs, whatever is stored at each, a receipt uploaded in a month is ever billed if and only
  // if it and its completed job were stored by the time of the run that made the month's invoice.
  lemma ReceiptBilledIff(l: Ledger, passes: seq<Pass>, u: PeriodContent.Upload, org: string, p: Period)
    requires AllApart(l.rows) && WholeMonths(p) && UploadedDuring(u, p)
    ensures EverBilled(l, passes, u, org) <==>
      exists k: nat :: MakesInvoice(l, passes, k, org, p) && Stored(passes[k], u, org)
  {
    hide AllApart, UploadedDuring, WholeMonths, PickedFor, AfterPasses, BilledFor, Stored;
    if EverBilled(l, passes, u, org) {
      var k: nat, j: Id :| PickedFor(l, passes, u, org, k, j);
      PickedMeansInvoiced(l, passes, u, org, p, k, j);
    }
    if k: nat :| MakesInvoice(l, passes, k, org, p) && Stored(passes[k], u, org) {
      InvoicedMeansPicked(l, passes, u, org, p, k);
    }
  }

  lemma {:induction false} StaysBilled(l: Ledger, passes: seq<Pass>, a: nat, b: nat, org: string, p: Period)
    requires a <= b <= |passes| && BilledFor(AfterPasses(l, passes[..a]).rows, org, p)
    ensures BilledFor(AfterPasses(l, passes[..b]).rows, org, p)
  {
    hide BilledFor, AfterPasses, AfterPass, Grown;
    if a < b {
      StaysBilled(l, passes, a, b - 1, org, p);
      OnePass(l, passes, b - 1);
      PassAdds(AfterPasses(l, passes[..b - 1]), passes[b - 1]);
      BilledStays(AfterPasses(l, passes[..b - 1]).rows, AfterPasses(l, passes[..b]).rows, org, p);
    }
  }

  // So a receipt whose job completes, or which comes in, after the run that made its month's invoice is never billed, by
  // that run or any other, however long they go on.
  lemma MissedOnceMissedForGood(l: Ledger, passes: seq<Pass>, u: PeriodContent.Upload, org: string, p: Period, k: nat)
    requires AllApart(l.rows) && WholeMonths(p) && UploadedDuring(u, p)
    requires MakesInvoice(l, passes, k, org, p) && !Stored(passes[k], u, org)
    ensures !EverBilled(l, passes, u, org)
  {
    hide AllApart, UploadedDuring, WholeMonths, EverBilled, Stored, AfterPasses, BilledFor;
    ReceiptBilledIff(l, passes, u, org, p);
    forall other: nat | MakesInvoice(l, passes, other, org, p) ensures other == k {
      if other < k { StaysBilled(l, passes, other + 1, k, org, p); }
      if k < other { StaysBilled(l, passes, k + 1, other, org, p); }
    }
  }
}
