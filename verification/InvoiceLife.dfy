// Any sequence of generating, finalizing and recording payments: what an invoice's life can look like, and that no time
// is billed twice along the way.
module InvoiceLife {
  import opened Options
  import opened IsoTime
  import opened Invoices
  import LineItems
  import Metering
  import PeriodContent

  datatype Op =
    | Generating(org: string, start: Instant, end: Instant, at: Instant, content: Option<seq<LineItems.Line>>, skipEmpty: bool)
    | Finalizing(id: Id, setup: Setup, now: int)
    | Paying(id: Id, reference: string, now: int)

  function Do(l: Ledger, op: Op): Ledger {
    match op
    case Generating(org, start, end, at, content, skipEmpty) =>
      l.(rows := Generate(l.rows, org, start, end, at, content, skipEmpty).0)
    case Finalizing(id, setup, now) => Finalize(l, id, setup, now).0
    case Paying(id, reference, now) => ManualPayment(l, id, reference, now).0
  }

  function DoAll(l: Ledger, ops: seq<Op>): Ledger {
    if ops == [] then l else Do(DoAll(l, ops[..|ops| - 1]), ops[|ops| - 1])
  }

  // How often a provider has answered a charge for an invoice.
  function Answers(attempts: seq<Attempt>, id: Id): nat {
    if attempts == [] then 0
    else Answers(attempts[..|attempts| - 1], id)
         + if attempts[|attempts| - 1].id == id && attempts[|attempts| - 1].answered then 1 else 0
  }

  function Accepts(attempts: seq<Attempt>, id: Id): nat {
    if attempts == [] then 0
    else Accepts(attempts[..|attempts| - 1], id)
         + if attempts[|attempts| - 1].id == id && attempts[|attempts| - 1].accepted then 1 else 0
  }

  predicate PaidByHand(r: Invoice) {
    r.provider == Some("manual") && r.chargeId.Some? && 0 < |r.chargeId.value| <= 200
  }

  ghost predicate RowOk(l: Ledger, id: Id) {
    id < |l.rows| ==>
      var r := l.rows[id];
      && (r.status.Draft? ==> Answers(l.attempts, id) == 0)
      && Answers(l.attempts, id) <= 1 && Accepts(l.attempts, id) <= Answers(l.attempts, id)
      && (r.status.Paid? && r.amount > 0 ==> Accepts(l.attempts, id) == 1 || PaidByHand(r))
      && (r.finalizedAt.Some? <==> !r.status.Draft?) && (r.paidAt.Some? <==> r.status.Paid?)
  }

  ghost predicate LifeInv(l: Ledger) {
    && (forall id: Id :: RowOk(l, id))
    && (forall k :: 0 <= k < |l.attempts| ==>
          l.attempts[k].id < |l.rows| && l.rows[l.attempts[k].id].amount > 0
          && (l.attempts[k].accepted ==> l.attempts[k].answered))
  }

  // From one ledger to a later one: invoices stay, with their organization, period, lines and amount; one that is paid
  // or void does not change at all; none becomes a draft again.
  ghost predicate Later(l: Ledger, m: Ledger) {
    && |l.rows| <= |m.rows| && l.attempts <= m.attempts
    && forall i :: 0 <= i < |l.rows| ==>
         var r, s := l.rows[i], m.rows[i];
         && s.org == r.org && s.start == r.start && s.end == r.end && s.amount == r.amount && s.lines == r.lines
         && (r.status.Paid? || r.status.Void? ==> s == r)
         && (s.status.Draft? ==> s == r)
         && (r.status.Open? || r.status.Failed? ==> s == r || (s.status.Paid? && PaidByHand(s)))
         && (r.finalizedAt.Some? ==> s.finalizedAt == r.finalizedAt)
  }

  lemma OneMoreAttempt(attempts: seq<Attempt>, a: Attempt, id: Id)
    ensures Answers(attempts + [a], id) == Answers(attempts, id) + if a.id == id && a.answered then 1 else 0
    ensures Accepts(attempts + [a], id) == Accepts(attempts, id) + if a.id == id && a.accepted then 1 else 0
  {
    assert (attempts + [a])[..|attempts|] == attempts;
  }

  lemma {:induction false} NoAnswersYet(attempts: seq<Attempt>, id: Id)
    requires forall k :: 0 <= k < |attempts| ==> attempts[k].id < id
    ensures Answers(attempts, id) == 0 && Accepts(attempts, id) == 0
  {
    if attempts != [] { NoAnswersYet(attempts[..|attempts| - 1], id); }
  }

  lemma FinalizeKeeps(l: Ledger, id: Id, setup: Setup, now: int)
    requires LifeInv(l)
    ensures var m := Finalize(l, id, setup, now).0; LifeInv(m) && Later(l, m)
  {
    var m := Finalize(l, id, setup, now).0;
    forall k: Id ensures RowOk(m, k) { FinalizeKeepsRow(l, id, setup, now, k); }
    FinalizeIsLater(l, id, setup, now);
    hide Answers, Accepts, RowOk, Later, Marked;
  }

  lemma FinalizeIsLater(l: Ledger, id: Id, setup: Setup, now: int)
    requires LifeInv(l)
    ensures Later(l, Finalize(l, id, setup, now).0)
  {
    assert RowOk(l, id);
    hide Answers, Accepts, LifeInv, RowOk;
  }

  lemma FinalizeKeepsRow(l: Ledger, id: Id, setup: Setup, now: int, k: Id)
    requires LifeInv(l)
    ensures RowOk(Finalize(l, id, setup, now).0, k)
  {
    hide RowOk;
    assert RowOk(l, k);
    hide LifeInv;
    if k == id && id < |l.rows| && l.rows[id].status.Draft? {
      FinalizeKeepsOwnRow(l, id, setup, now);
    } else {
      FinalizeKeepsOtherRow(l, id, setup, now, k);
    }
  }

  lemma FinalizeKeepsOtherRow(l: Ledger, id: Id, setup: Setup, now: int, k: Id)
    requires RowOk(l, k) && !(k == id && id < |l.rows| && l.rows[id].status.Draft?)
    ensures RowOk(Finalize(l, id, setup, now).0, k)
  {
    var m := Finalize(l, id, setup, now).0;
    assert |m.rows| == |l.rows| && (k < |l.rows| ==> m.rows[k] == l.rows[k]);
    if m.attempts != l.attempts {
      assert m.attempts == l.attempts + [m.attempts[|l.attempts|]] && m.attempts[|l.attempts|].id == id;
      OneMoreAttempt(l.attempts, m.attempts[|l.attempts|], k);
    }
    hide Finalize, Answers, Accepts, Marked;
  }

  lemma FinalizeKeepsOwnRow(l: Ledger, id: Id, setup: Setup, now: int)
    requires RowOk(l, id) && id < |l.rows| && l.rows[id].status.Draft?
    ensures RowOk(Finalize(l, id, setup, now).0, id)
  {
    hide Answers, Accepts;
    if setup.Gateway? && l.rows[id].amount > 0 {
      OneMoreAttempt(l.attempts, Attempt(id, setup.reply.Accepted?, !setup.reply.Raises?), id);
    }
  }

  lemma PaymentKeeps(l: Ledger, id: Id, reference: string, now: int)
    requires LifeInv(l)
    ensures var m := ManualPayment(l, id, reference, now).0; LifeInv(m) && Later(l, m)
  {
    hide Answers, Accepts, Strip;
    var m := ManualPayment(l, id, reference, now).0;
    forall k: Id ensures RowOk(m, k) { assert RowOk(l, k); }
  }

  lemma GenerateKeeps(l: Ledger, op: Op)
    requires LifeInv(l) && op.Generating?
    ensures LifeInv(Do(l, op)) && Later(l, Do(l, op))
  {
    var m := Do(l, op);
    if op.content.Some? { CreateCovers(l.rows, op.org, op.start, op.end, op.content.value); }
    hide Create, First;
    forall k: Id ensures RowOk(m, k) {
      assert RowOk(l, k);
      if k == |l.rows| { NoAnswersYet(l.attempts, k); }
      hide Answers, Accepts;
    }
    hide Answers, Accepts, RowOk;
  }

  lemma StepKeeps(l: Ledger, op: Op)
    requires LifeInv(l)
    ensures LifeInv(Do(l, op)) && Later(l, Do(l, op))
  {
    hide LifeInv, Later, Finalize, ManualPayment;
    match op {
      case Generating(_, _, _, _, _, _) => GenerateKeeps(l, op);
      case Finalizing(id, setup, now) => FinalizeKeeps(l, id, setup, now);
      case Paying(id, reference, now) => PaymentKeeps(l, id, reference, now);
    }
  }

  lemma LaterStill(a: Ledger, b: Ledger, c: Ledger)
    requires Later(a, b) && Later(b, c)
    ensures Later(a, c)
  {
    forall i | 0 <= i < |a.rows|
      ensures c.rows[i].status.Draft? ==> c.rows[i] == a.rows[i]
    {
    }
  }

  // Over any sequence of calls a provider answers at most one charge per invoice, never for a bill of nothing, and a
  // positive bill is paid only by an accepted charge or by hand with a reference; and paid is final.
  lemma {:induction false} EveryLifeIsOrderly(l: Ledger, ops: seq<Op>)
    requires LifeInv(l)
    ensures LifeInv(DoAll(l, ops)) && Later(l, DoAll(l, ops))
  {
    if ops == [] {
    } else {
      var mid := DoAll(l, ops[..|ops| - 1]);
      EveryLifeIsOrderly(l, ops[..|ops| - 1]);
      StepKeeps(mid, ops[|ops| - 1]);
      LaterStill(l, mid, DoAll(l, ops));
      hide LifeInv, Later;
    }
  }

  // When the provider in use only issues, nothing is ever charged: every positive bill that gets paid is paid by hand.
  lemma {:induction false} ByHandMeansNoCharge(l: Ledger, ops: seq<Op>)
    requires forall i :: 0 <= i < |ops| && ops[i].Finalizing? ==> !ops[i].setup.Gateway?
    ensures DoAll(l, ops).attempts == l.attempts
  {
    if ops != [] { ByHandMeansNoCharge(l, ops[..|ops| - 1]); }
  }

  lemma StepKeepsApart(l: Ledger, op: Op)
    requires AllApart(l.rows)
    ensures AllApart(Do(l, op).rows)
  {
    if op.Generating? {
      if op.content.Some? { CreateKeepsApart(l.rows, op.org, op.start, op.end, op.content.value); }
      hide Create, AllApart;
    } else {
      SamePeriods(l, op);
      ApartStays(l.rows, Do(l, op).rows);
    }
  }

  predicate PeriodsKept(rows: seq<Invoice>, now: seq<Invoice>) {
    |rows| == |now| && forall i :: 0 <= i < |rows| ==>
      now[i].org == rows[i].org && now[i].start == rows[i].start && now[i].end == rows[i].end
  }

  lemma SamePeriods(l: Ledger, op: Op)
    requires !op.Generating?
    ensures PeriodsKept(l.rows, Do(l, op).rows)
  {
    hide Strip;
  }

  lemma ApartStays(rows: seq<Invoice>, now: seq<Invoice>)
    requires AllApart(rows) && PeriodsKept(rows, now)
    ensures AllApart(now)
  {
    forall i, j | 0 <= i < j < |now| ensures Apart(now[i], now[j]) { assert Apart(rows[i], rows[j]); }
  }

  // However invoices are generated, by hand or by the automation and for whatever periods, no organization is billed twice
  // for the same time.
  lemma {:induction false} NoTimeBilledTwice(l: Ledger, ops: seq<Op>)
    requires AllApart(l.rows)
    ensures AllApart(DoAll(l, ops).rows)
  {
    if ops != [] {
      NoTimeBilledTwice(l, ops[..|ops| - 1]);
      StepKeepsApart(DoAll(l, ops[..|ops| - 1]), ops[|ops| - 1]);
      hide AllApart;
    }
  }

  lemma {:induction false} MadeHereAreCanonical(l: Ledger, ops: seq<Op>)
    requires forall i :: 0 <= i < |l.rows| ==> l.rows[i].start.Canonical? && l.rows[i].end.Canonical?
    ensures forall i :: 0 <= i < |DoAll(l, ops).rows| ==>
      DoAll(l, ops).rows[i].start.Canonical? && DoAll(l, ops).rows[i].end.Canonical?
  {
    if ops != [] {
      var mid, op := DoAll(l, ops[..|ops| - 1]), ops[|ops| - 1];
      MadeHereAreCanonical(l, ops[..|ops| - 1]);
      if op.Generating? {
        if op.content.Some? { CreateCovers(mid.rows, op.org, op.start, op.end, op.content.value); }
        hide Create, DoAll;
      } else {
        SamePeriods(mid, op);
        hide Finalize, ManualPayment, DoAll;
      }
    }
  }

  // So no completed job, and no uploaded receipt, is in the periods of two invoices made here.
  lemma NothingBilledTwice(ops: seq<Op>, job: Metering.Job, store: PeriodContent.Store, upload: PeriodContent.Upload,
                           i: Id, j: Id)
    requires i < |DoAll(Ledger([], []), ops).rows| && j < |DoAll(Ledger([], []), ops).rows| && i != j
    requires DoAll(Ledger([], []), ops).rows[i].org == DoAll(Ledger([], []), ops).rows[j].org
    ensures var a, b := DoAll(Ledger([], []), ops).rows[i], DoAll(Ledger([], []), ops).rows[j];
      && a.start.Canonical? && a.end.Canonical? && b.start.Canonical? && b.end.Canonical?
      && !(Metering.InPeriod(job, a.org, a.start.at, a.end.at) && Metering.InPeriod(job, b.org, b.start.at, b.end.at))
      && !(PeriodContent.UploadedIn(store, upload, a.org, a.start.at, a.end.at)
           && PeriodContent.UploadedIn(store, upload, b.org, b.start.at, b.end.at))
  {
    assert AllApart([]);
    hide AllApart, DoAll, Metering.InPeriod, PeriodContent.UploadedIn;
    MadeHereAreCanonical(Ledger([], []), ops);
    NoTimeBilledTwice(Ledger([], []), ops);
    var rows := DoAll(Ledger([], []), ops).rows;
    var first, second := if i < j then i else j, if i < j then j else i;
    NoJobTwice(rows, job, first, second);
    NoUploadTwice(rows, store, upload, first, second);
  }

  lemma NoUploadTwice(rows: seq<Invoice>, store: PeriodContent.Store, upload: PeriodContent.Upload, i: Id, j: Id)
    requires AllApart(rows) && i < j < |rows| && rows[i].org == rows[j].org
    requires rows[i].start.Canonical? && rows[i].end.Canonical? && rows[j].start.Canonical? && rows[j].end.Canonical?
    ensures !(PeriodContent.UploadedIn(store, upload, rows[i].org, rows[i].start.at, rows[i].end.at)
              && PeriodContent.UploadedIn(store, upload, rows[j].org, rows[j].start.at, rows[j].end.at))
  {
    hide PeriodContent.UploadedIn, Micros;
    assert Apart(rows[i], rows[j]);
    var a, b, x, y := rows[i].start.at, rows[i].end.at, rows[j].start.at, rows[j].end.at;
    if Micros(b) <= Micros(x) {
      PeriodContent.PeriodsShareNoUpload(store, upload, rows[i].org, a, b, x, y);
    } else {
      PeriodContent.PeriodsShareNoUpload(store, upload, rows[i].org, x, y, a, b);
    }
  }

  // ------------------------------------------------------------------ when a provider is asked twice

  // How often a provider has been asked to charge an invoice, and how often it raised instead of answering.
  function Asked(attempts: seq<Attempt>, id: Id): nat {
    if attempts == [] then 0
    else Asked(attempts[..|attempts| - 1], id) + if attempts[|attempts| - 1].id == id then 1 else 0
  }

  function Raised(attempts: seq<Attempt>, id: Id): nat {
    if attempts == [] then 0
    else Raised(attempts[..|attempts| - 1], id)
         + if attempts[|attempts| - 1].id == id && !attempts[|attempts| - 1].answered then 1 else 0
  }

  lemma {:induction false} AskedInAll(attempts: seq<Attempt>, id: Id)
    ensures Asked(attempts, id) == Answers(attempts, id) + Raised(attempts, id)
  {
    if attempts != [] { AskedInAll(attempts[..|attempts| - 1], id); }
  }

  // The call asks the provider to charge and the provider raises.
  predicate RaisesOn(l: Ledger, op: Op, id: Id) {
    op.Finalizing? && op.id == id && id < |l.rows| && l.rows[id].status.Draft? && l.rows[id].amount > 0
    && op.setup.Gateway? && op.setup.reply.Raises?
  }

  predicate EverRaises(l: Ledger, ops: seq<Op>, id: Id) {
    ops != [] && (EverRaises(l, ops[..|ops| - 1], id) || RaisesOn(DoAll(l, ops[..|ops| - 1]), ops[|ops| - 1], id))
  }

  lemma {:induction false} RaisedByCalls(l: Ledger, ops: seq<Op>, id: Id)
    ensures Raised(DoAll(l, ops).attempts, id) >= Raised(l.attempts, id)
    ensures Raised(DoAll(l, ops).attempts, id) > Raised(l.attempts, id) <==> EverRaises(l, ops, id)
  {
    hide Do, RaisesOn, Raised;
    if ops != [] {
      RaisedByCalls(l, ops[..|ops| - 1], id);
      OneCallRaises(DoAll(l, ops[..|ops| - 1]), ops[|ops| - 1], id);
    }
  }

  lemma OneCallRaises(l: Ledger, op: Op, id: Id)
    ensures Raised(Do(l, op).attempts, id) == Raised(l.attempts, id) + if RaisesOn(l, op, id) then 1 else 0
  {
    if op.Paying? { PayingAsksNobody(l, op); }
    hide Generate, ManualPayment;
    var m := Do(l, op);
    if |m.attempts| > |l.attempts| {
      assert m.attempts[..|m.attempts| - 1] == l.attempts;
    }
  }

  lemma PayingAsksNobody(l: Ledger, op: Op)
    requires op.Paying?
    ensures Do(l, op).attempts == l.attempts
  {
    hide Strip;
  }

  lemma AnswersSoFar(l: Ledger, id: Id)
    requires LifeInv(l)
    ensures Answers(l.attempts, id) <= 1 && (id < |l.rows| && l.rows[id].status.Draft? ==> Answers(l.attempts, id) == 0)
  {
    assert RowOk(l, id);
    if id >= |l.rows| { NoAnswersYet(l.attempts, id); }
    hide Answers, Accepts;
  }

  // After any calls on an invoice nobody was asked to charge before: as long as it is a draft, finalizing it is its first
  // charge if and only if no earlier finalizing of it raised in the provider.
  lemma FirstChargeIff(l: Ledger, ops: seq<Op>, id: Id)
    requires LifeInv(l) && Asked(l.attempts, id) == 0
    requires id < |DoAll(l, ops).rows| && DoAll(l, ops).rows[id].status.Draft?
    ensures Asked(DoAll(l, ops).attempts, id) == 0 <==> !EverRaises(l, ops, id)
  {
    hide *;
    EveryLifeIsOrderly(l, ops);
    AnswersSoFar(DoAll(l, ops), id);
    AskedInAll(l.attempts, id);
    AskedInAll(DoAll(l, ops).attempts, id);
    RaisedByCalls(l, ops, id);
  }

  // So an invoice is charged at most once, unless the provider raised on it and it is finalized again.
  lemma ChargedOnceUnlessItRaises(l: Ledger, ops: seq<Op>, id: Id)
    requires LifeInv(l) && Asked(l.attempts, id) == 0 && !EverRaises(l, ops, id)
    ensures Asked(DoAll(l, ops).attempts, id) <= 1
  {
    hide *;
    EveryLifeIsOrderly(l, ops);
    AnswersSoFar(DoAll(l, ops), id);
    AskedInAll(l.attempts, id);
    AskedInAll(DoAll(l, ops).attempts, id);
    RaisedByCalls(l, ops, id);
  }

  // Two calls that charge one invoice twice: the first charge raises, and leaves the draft for the second.
  lemma ChargedTwice(l: Ledger, id: Id, provider: string, now: int)
    requires id < |l.rows| && l.rows[id].status.Draft? && l.rows[id].amount > 0
    ensures var ops := [Finalizing(id, Gateway(Raises), now), Finalizing(id, Gateway(Accepted(provider, None)), now)];
      && Asked(DoAll(l, ops).attempts, id) == Asked(l.attempts, id) + 2
      && DoAll(l, ops[..1]).rows == l.rows && DoAll(l, ops).rows[id].status.Paid?
  {
    var raise, accept := Finalizing(id, Gateway(Raises), now), Finalizing(id, Gateway(Accepted(provider, None)), now);
    var ops := [raise, accept];
    assert ops[..1] == [raise] && [raise][..0] == [];
    assert DoAll(l, [raise]) == Do(l, raise) && DoAll(l, ops) == Do(Do(l, raise), accept) by { hide Do; }
    var mid := Do(l, raise);
    assert mid == l.(attempts := l.attempts + [Attempt(id, false, false)]);
    assert Do(mid, accept).attempts == mid.attempts + [Attempt(id, true, true)];
    hide DoAll;
    assert mid.attempts[..|l.attempts|] == l.attempts;
    assert Do(mid, accept).attempts[..|mid.attempts|] == mid.attempts;
  }
}
