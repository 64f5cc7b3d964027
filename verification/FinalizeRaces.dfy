// Several calls on one invoice at the same time: finalizing it, and recording that it was paid by hand. Nothing keeps them
// apart: each reads the invoice, may ask the provider to charge it, and then marks it, whatever has happened to it since.
// The exact conditions under which it is charged twice and under which a paid invoice stays paid.
module FinalizeRaces {
  import opened Options
  import opened Invoices
  import opened InvoiceLife

  type Caller = nat

  // How far a call is: it has read a draft to be charged, holds what it will mark the invoice with, or is through.
  datatype Stage =
    | HasRead
    | Holds(status: Status, provider: Option<string>, chargeId: Option<string>, error: Option<string>)
    | Through

  // The books, the invoice in question, the calls on it so far, and those whose charge the provider answered.
  datatype Race = Race(ledger: Ledger, id: Id, calls: map<Caller, Stage>, answered: set<Caller>)

  datatype Step =
    | Look(who: Caller)                        // finalizing reads the invoice
    | LookToPay(who: Caller, reference: string)
    | Ask(who: Caller, setup: Setup)
    | Mark(who: Caller, now: int)

  predicate Enabled(s: Race, step: Step) {
    s.id < |s.ledger.rows| &&
    match step
    case Ask(t, _) => t in s.calls && s.calls[t].HasRead?
    case Mark(t, _) => t in s.calls && s.calls[t].Holds?
    case _ => step.who !in s.calls
  }

  function Row(s: Race): Invoice
    requires s.id < |s.ledger.rows|
  {
    s.ledger.rows[s.id]
  }

  function Reading(r: Invoice): Stage {
    if !r.status.Draft? then Through
    else if r.amount <= 0 then Holds(Paid, Some("none"), None, None)
    else HasRead
  }

  function ReadingToPay(r: Invoice, reference: string): Stage {
    if r.status !in {Open, Failed} || Strip(reference) == "" then Through
    else Holds(Paid, Some("manual"), Some(Truncate(Strip(reference))), None)
  }

  function Told(setup: Setup): Stage {
    match setup
    case NotConfigured => Through
    case ByHand(name) => Holds(Open, Some(name), None, None)
    case Gateway(Accepted(provider, chargeId)) => Holds(Paid, Some(provider), chargeId, None)
    case Gateway(Declined(provider, error)) => Holds(Failed, Some(provider), None, error)
    case Gateway(Raises) => Through
  }

  function MarkedBy(r: Invoice, h: Stage, now: int): Invoice
    requires h.Holds?
  {
    Marked(r, h.status, h.provider, h.chargeId, h.error, now)
  }

  function Do(s: Race, step: Step): Race
    requires Enabled(s, step)
  {
    match step
    case Look(t) => s.(calls := s.calls[t := Reading(Row(s))])
    case LookToPay(t, reference) => s.(calls := s.calls[t := ReadingToPay(Row(s), reference)])
    case Ask(t, setup) =>
      Race(if setup.Gateway?
           then s.ledger.(attempts := s.ledger.attempts + [Attempt(s.id, setup.reply.Accepted?, !setup.reply.Raises?)])
           else s.ledger,
           s.id, s.calls[t := Told(setup)],
           if setup.Gateway? && !setup.reply.Raises? then s.answered + {t} else s.answered)
    case Mark(t, now) =>
      s.(ledger := Update(s.ledger, s.id, MarkedBy(Row(s), s.calls[t], now)), calls := s.calls[t := Through])
  }

  predicate Possible(s: Race, run: seq<Step>)
    decreases |run|, 0
  {
    run != [] ==> Possible(s, run[..|run| - 1]) && Enabled(After(s, run[..|run| - 1]), run[|run| - 1])
  }

  function After(s: Race, run: seq<Step>): Race
    requires Possible(s, run)
    decreases |run|, 1
  {
    if run == [] then s else Do(After(s, run[..|run| - 1]), run[|run| - 1])
  }

  lemma OneMore(s: Race, run: seq<Step>, step: Step)
    requires Possible(s, run) && Enabled(After(s, run), step)
    ensures Possible(s, run + [step]) && After(s, run + [step]) == Do(After(s, run), step)
  {
    assert (run + [step])[..|run|] == run;
  }

  // ------------------------------------------------------------------ a call by itself

  function IfEnabled(s: Race, step: Step): Race { if Enabled(s, step) then Do(s, step) else s }

  // With nothing in between, the steps of one call do what the call does, on the books as a whole: each refusal, a draft of
  // nothing, every kind of provider and every reply.
  lemma AloneIsFinalize(s: Race, t: Caller, setup: Setup, now: int)
    requires s.id < |s.ledger.rows| && t !in s.calls
    ensures var done := IfEnabled(IfEnabled(IfEnabled(s, Look(t)), Ask(t, setup)), Mark(t, now));
      done.ledger == Finalize(s.ledger, s.id, setup, now).0 && done.calls == s.calls[t := Through]
  {
    assert s.ledger.rows[s.id := Row(s)] == s.ledger.rows;
  }

  lemma AloneIsManualPayment(s: Race, t: Caller, reference: string, now: int)
    requires s.id < |s.ledger.rows| && t !in s.calls
    ensures var done := IfEnabled(IfEnabled(s, LookToPay(t, reference)), Mark(t, now));
      done.ledger == ManualPayment(s.ledger, s.id, reference, now).0 && done.calls == s.calls[t := Through]
  {
    hide Strip, Truncate;
  }

  // ------------------------------------------------------------------ what every interleaving keeps

  function InProgress(s: Race): set<Caller> { set t | t in s.calls && !s.calls[t].Through? }

  function HaveRead(s: Race): set<Caller> { set t | t in s.calls && s.calls[t].HasRead? }

  // Each answer on the books belongs to a call; and a draft has been marked by nobody, so the calls with an answer all still
  // hold it.
  ghost predicate Inv(s: Race) {
    && s.id < |s.ledger.rows|
    && s.answered <= s.calls.Keys && Answers(s.ledger.attempts, s.id) == |s.answered|
    && (forall t :: t in s.calls && s.calls[t].Holds? ==> s.calls[t].status in {Open, Paid, Failed})
    && (forall t :: t in s.calls && s.calls[t].HasRead? ==> t !in s.answered && Row(s).amount > 0)
    && (forall t :: t in s.answered && Row(s).status.Draft? ==> s.calls[t].Holds?)
  }

  // Before any call, of an invoice whose charges if any all raised.
  predicate Untouched(s: Race) {
    && s.id < |s.ledger.rows| && s.calls == map[] && s.answered == {}
    && Answers(s.ledger.attempts, s.id) == 0
  }

  lemma LookInv(s: Race, step: Step)
    requires Inv(s) && Enabled(s, step) && !step.Ask? && !step.Mark?
    ensures Inv(Do(s, step)) && Do(s, step).ledger == s.ledger && Do(s, step).answered == s.answered
    ensures Do(s, step).calls == s.calls[step.who := Do(s, step).calls[step.who]]
    ensures Do(s, step).calls[step.who].HasRead? ==> Row(s).status.Draft?
    ensures Row(s).status.Paid? ==> Do(s, step).calls[step.who].Through?
  {
    hide Answers, Strip, Truncate;
  }

  lemma ToldMeans(setup: Setup)
    ensures Told(setup).Through? || (Told(setup).Holds? && Told(setup).status in {Open, Paid, Failed})
    ensures setup.Gateway? && !setup.reply.Raises? ==> Told(setup).Holds?
  {
  }

  lemma AskIsCounted(s: Race, step: Step)
    requires Enabled(s, step) && step.Ask? && step.who !in s.answered && Answers(s.ledger.attempts, s.id) == |s.answered|
    ensures Answers(Do(s, step).ledger.attempts, s.id) == |Do(s, step).answered|
  {
    hide Answers, Told;
    if step.setup.Gateway? {
      OneMoreAttempt(s.ledger.attempts, Attempt(s.id, step.setup.reply.Accepted?, !step.setup.reply.Raises?), s.id);
    }
  }

  lemma AskInv(s: Race, step: Step)
    requires Inv(s) && Enabled(s, step) && step.Ask?
    ensures Inv(Do(s, step)) && Do(s, step).ledger.rows == s.ledger.rows
  {
    hide Answers, Told;
    ToldMeans(step.setup);
    AskIsCounted(s, step);
  }

  lemma MarkInv(s: Race, step: Step)
    requires Inv(s) && Enabled(s, step) && step.Mark?
    ensures Inv(Do(s, step)) && Row(Do(s, step)).amount == Row(s).amount && Row(Do(s, step)).status == s.calls[step.who].status
  {
    hide Answers;
  }

  lemma StepInv(s: Race, step: Step)
    requires Inv(s) && Enabled(s, step)
    ensures Inv(Do(s, step)) && Do(s, step).id == s.id
  {
    match step {
      case Ask(_, _) => AskInv(s, step);
      case Mark(_, _) => MarkInv(s, step);
      case _ => LookInv(s, step);
    }
    hide Inv, Answers;
  }

  lemma {:induction false} RunInv(s: Race, run: seq<Step>)
    requires Inv(s) && Possible(s, run)
    ensures Inv(After(s, run)) && After(s, run).id == s.id
  {
    hide Inv, Do;
    if run != [] {
      RunInv(s, run[..|run| - 1]);
      StepInv(After(s, run[..|run| - 1]), run[|run| - 1]);
    }
  }

  // ------------------------------------------------------------------ charged twice

  predicate NoNewCall(run: seq<Step>) { forall i :: 0 <= i < |run| ==> run[i].Ask? || run[i].Mark? }

  // Without new calls only those that have read the draft can still be answered.
  lemma {:induction false} OnlyReadersAreAnswered(s: Race, run: seq<Step>)
    requires Possible(s, run) && NoNewCall(run)
    ensures After(s, run).answered + HaveRead(After(s, run)) <= s.answered + HaveRead(s)
  {
    if run != [] {
      OnlyReadersAreAnswered(s, run[..|run| - 1]);
      assert NoNewCall(run[..|run| - 1]) && (run[|run| - 1].Ask? || run[|run| - 1].Mark?);
    }
  }

  // A call that has read the draft can be answered, and nothing else changes.
  lemma AskIfRead(s: Race, run: seq<Step>, t: Caller) returns (more: seq<Step>)
    requires Possible(s, run) && NoNewCall(run) && Inv(After(s, run))
    requires t in HaveRead(After(s, run)) + After(s, run).answered
    ensures Possible(s, more) && NoNewCall(more) && Inv(After(s, more))
    ensures After(s, more).answered == After(s, run).answered + {t}
    ensures HaveRead(After(s, more)) == HaveRead(After(s, run)) - {t}
  {
    hide Answers, Marked, Reading, ReadingToPay;
    var now, step := After(s, run), Ask(t, Gateway(Accepted("gateway", None)));
    more := run;
    if now.calls[t].HasRead? {
      OneMore(s, run, step);
      StepInv(now, step);
      more := run + [step];
    }
    hide Possible, After, Inv;
  }

  // The calls under way can charge the invoice twice between them if and only if two of them have read the draft or been
  // answered. A draft of nothing is read to be charged by none.
  lemma ChargedTwiceIff(s: Race)
    requires Inv(s)
    ensures (exists run :: Possible(s, run) && NoNewCall(run) && Answers(After(s, run).ledger.attempts, s.id) >= 2)
      <==> |HaveRead(s) + s.answered| >= 2
    ensures Row(s).amount <= 0 ==> HaveRead(s) == {}
  {
    var stake := HaveRead(s) + s.answered;
    if |stake| >= 2 {
      var t, u := TwoOf(stake);
      var one := AskIfRead(s, [], t);
      var run := AskIfRead(s, one, u);
      RunInv(s, run);
      Larger({t, u}, After(s, run).answered);
    }
    forall run | Possible(s, run) && NoNewCall(run) ensures Answers(After(s, run).ledger.attempts, s.id) <= |stake| {
      RunInv(s, run);
      OnlyReadersAreAnswered(s, run);
      Larger(After(s, run).answered, stake);
    }
    hide Answers, Possible, After;
  }

  lemma TwoOf(s: set<Caller>) returns (t: Caller, u: Caller)
    requires |s| >= 2
    ensures t in s && u in s && t != u
  {
    t :| t in s;
    assert |s - {t}| >= 1;
    u :| u in s - {t};
  }

  lemma {:induction false} Larger(a: set<Caller>, b: set<Caller>)
    requires a <= b
    ensures |a| <= |b|
    decreases a
  {
    if t :| t in a { Larger(a - {t}, b - {t}); }
  }

  // No call is still to be answered, and what the others hold is payment too.
  ghost predicate Settled(s: Race) {
    forall t :: t in s.calls ==> s.calls[t].Through? || (s.calls[t].Holds? && s.calls[t].status.Paid?)
  }

  // So calls that never overlap charge at most once, and one that marks the invoice paid has settled it.
  lemma {:induction false} OneAtATime(s: Race, run: seq<Step>)
    requires Untouched(s) && Possible(s, run)
    requires forall i :: 0 <= i <= |run| && Possible(s, run[..i]) ==> |InProgress(After(s, run[..i]))| <= 1
    ensures Settling(After(s, run)) && After(s, run).id == s.id < |After(s, run).ledger.rows|
    ensures Answers(After(s, run).ledger.attempts, s.id) <= 1
    ensures Row(After(s, run)).status.Paid? ==> Settled(After(s, run))
  {
    hide Enabled, Do, Settling, Answers, InProgress;
    if run == [] {
      StartsSettling(s);
    } else {
      var front, step := run[..|run| - 1], run[|run| - 1];
      assert forall i :: 0 <= i <= |front| ==> front[..i] == run[..i];
      OneAtATime(s, front);
      assert front[..|front|] == front && run[..|run|] == run;
      OneAtATimeStep(After(s, front), step);
    }
    SettlingMeans(After(s, run));
  }

  // What holds while calls do not overlap: an answer is held by the only call under way until it is marked, and then none
  // has read a draft; and while the invoice is paid none is under way.
  ghost predicate Settling(s: Race) {
    && Inv(s) && |s.answered| <= 1
    && (s.answered != {} && Row(s).status.Draft? ==> InProgress(s) == s.answered)
    && (!Row(s).status.Draft? ==> HaveRead(s) == {})
    && (Row(s).status.Paid? ==> InProgress(s) == {})
  }

  lemma StartsSettling(s: Race)
    requires Untouched(s)
    ensures Settling(s)
  {
    hide Answers;
  }

  lemma SettlingMeans(s: Race)
    requires Settling(s)
    ensures s.id < |s.ledger.rows| && Answers(s.ledger.attempts, s.id) <= 1 && (Row(s).status.Paid? ==> Settled(s))
  {
    hide Answers;
    assert forall t :: t in s.calls && !s.calls[t].Through? ==> t in InProgress(s);
  }

  lemma OneAtATimeStep(s: Race, step: Step)
    requires Settling(s) && Enabled(s, step) && |InProgress(s)| <= 1 && |InProgress(Do(s, step))| <= 1
    ensures Settling(Do(s, step)) && Do(s, step).id == s.id
  {
    if step.Ask? || step.Mark? {
      StepInv(s, step);
      GoesOnAlone(s, step);
    } else {
      LookInv(s, step);
      StartsAlone(s, step.who, Do(s, step));
    }
    hide Inv, Answers;
  }

  // The call under way is the only one.
  lemma GoesOnAlone(s: Race, step: Step)
    requires Settling(s) && Enabled(s, step) && Inv(Do(s, step)) && |InProgress(s)| <= 1 && (step.Ask? || step.Mark?)
    ensures Settling(Do(s, step))
  {
    hide Answers, Reading, ReadingToPay;
    var t, s' := step.who, Do(s, step);
    assert t in InProgress(s);
    Only(InProgress(s), t);
    assert forall u :: u in s.calls && u != t ==> u !in InProgress(s);
    assert HaveRead(s') == {} && InProgress(s') <= {t};
    assert step.Ask? ==> t !in s.answered && (Row(s).status.Draft? ==> s.answered == {});
  }

  // A new call finds none under way, unless it is through at once.
  lemma StartsAlone(s: Race, t: Caller, s': Race)
    requires Settling(s) && Inv(s') && t !in s.calls && t in s'.calls && s'.calls == s.calls[t := s'.calls[t]]
    requires s'.ledger == s.ledger && s'.id == s.id && s'.answered == s.answered && |InProgress(s')| <= 1
    requires (s'.calls[t].HasRead? ==> Row(s).status.Draft?) && (Row(s).status.Paid? ==> s'.calls[t].Through?)
    ensures Settling(s')
  {
    hide Inv;
    assert t !in InProgress(s);
    assert InProgress(s') == if s'.calls[t].Through? then InProgress(s) else InProgress(s) + {t};
    assert HaveRead(s') == if s'.calls[t].HasRead? then HaveRead(s) + {t} else HaveRead(s);
    if t in InProgress(s') { Only(InProgress(s'), t); }
  }

  lemma Only(s: set<Caller>, t: Caller)
    requires t in s && |s| <= 1
    ensures s == {t}
  {
    assert |s - {t}| == 0;
  }

  // ------------------------------------------------------------------ paid, and paid for good

  lemma {:induction false} SettledStaysPaid(s: Race, run: seq<Step>)
    requires Inv(s) && Row(s).status.Paid? && Settled(s) && Possible(s, run)
    ensures Inv(After(s, run)) && After(s, run).id == s.id && Row(After(s, run)).status.Paid? && Settled(After(s, run))
  {
    hide Answers, Strip, Truncate;
    if run != [] {
      var before := After(s, run[..|run| - 1]);
      SettledStaysPaid(s, run[..|run| - 1]);
      StepInv(before, run[|run| - 1]);
      hide Inv;
    }
  }

  // A call under way with anything else ahead of it undoes the payment.
  lemma UndoesPayment(s: Race, t: Caller) returns (run: seq<Step>)
    requires Inv(s) && t in s.calls && !s.calls[t].Through? && !(s.calls[t].Holds? && s.calls[t].status.Paid?)
    ensures Possible(s, run) && NoNewCall(run) && After(s, run).id == s.id < |After(s, run).ledger.rows|
    ensures Row(After(s, run)).status in {Open, Failed}
  {
    if s.calls[t].HasRead? {
      var ask := Ask(t, Gateway(Declined("gateway", None)));
      OneMore(s, [], ask);
      AskInv(s, ask);
      assert Do(s, ask).calls[t] == Holds(Failed, Some("gateway"), None, None);
      hide *;
      run := MarksIt(s, [] + [ask], t);
    } else {
      hide *;
      run := MarksIt(s, [], t);
    }
  }

  lemma MarksIt(s: Race, run: seq<Step>, t: Caller) returns (more: seq<Step>)
    requires Possible(s, run) && NoNewCall(run) && Inv(After(s, run)) && t in After(s, run).calls
    requires After(s, run).calls[t].Holds? && !After(s, run).calls[t].status.Paid?
    ensures Possible(s, more) && NoNewCall(more) && After(s, more).id == After(s, run).id < |After(s, more).ledger.rows|
    ensures Row(After(s, more)).status in {Open, Failed}
  {
    var mark := Mark(t, 0);
    OneMore(s, run, mark);
    MarkInv(After(s, run), mark);
    more := run + [mark];
    hide Possible, After, Answers;
  }

  // A paid invoice stays paid, whatever calls are made on it and however they interleave, if and only if every call now
  // under way would mark it paid too; otherwise it can come to stand as open or failed again, and a payment be recorded.
  lemma StaysPaidIff(s: Race)
    requires Inv(s) && Row(s).status.Paid?
    ensures (forall run :: Possible(s, run) ==> AfterStatus(s, run) == Some(Paid)) <==> Settled(s)
    ensures (exists run :: Possible(s, run) && AfterStatus(s, run) in {Some(Open), Some(Failed)}) <==> !Settled(s)
  {
    hide Answers, Strip, Truncate;
    if Settled(s) {
      forall run | Possible(s, run) ensures AfterStatus(s, run) == Some(Paid) { SettledStaysPaid(s, run); }
    } else {
      var t :| t in s.calls && !(s.calls[t].Through? || (s.calls[t].Holds? && s.calls[t].status.Paid?));
      var run := UndoesPayment(s, t);
      assert AfterStatus(s, run) in {Some(Open), Some(Failed)};
    }
  }

  function AfterStatus(s: Race, run: seq<Step>): Option<Status>
    requires Possible(s, run)
  {
    var done := After(s, run);
    if done.id < |done.ledger.rows| then Some(Row(done).status) else None
  }

  lemma BothRead(s: Race) returns (run: seq<Step>)
    requires Untouched(s) && Row(s).status.Draft? && Row(s).amount > 0
    ensures Possible(s, run) && After(s, run) == s.(calls := map[0 := HasRead, 1 := HasRead])
  {
    hide Answers;
    OneMore(s, [], Look(0));
    OneMore(s, [] + [Look(0)], Look(1));
    run := [] + [Look(0)] + [Look(1)];
    hide Possible, After;
  }

  // Two overlapping calls are both answered, one with a charge and one with a refusal.
  lemma TwoAnswers(s: Race) returns (run: seq<Step>)
    requires Untouched(s) && Row(s).status.Draft? && Row(s).amount > 0
    ensures Possible(s, run)
    ensures After(s, run) ==
      Race(s.ledger.(attempts := s.ledger.attempts + [Attempt(s.id, true, true), Attempt(s.id, false, true)]), s.id,
           map[0 := Holds(Paid, Some("gateway"), None, None), 1 := Holds(Failed, Some("gateway"), None, None)], {0, 1})
  {
    hide Answers, Possible, After, Marked;
    var yes, no := Ask(0, Gateway(Accepted("gateway", None))), Ask(1, Gateway(Declined("gateway", None)));
    var looked := BothRead(s);
    OneMore(s, looked, yes);
    OneMore(s, looked + [yes], no);
    run := looked + [yes] + [no];
    assert s.ledger.attempts + [Attempt(s.id, true, true)] + [Attempt(s.id, false, true)]
        == s.ledger.attempts + [Attempt(s.id, true, true), Attempt(s.id, false, true)];
  }

  // Two overlapping calls and a payment by hand: the first is charged and marks the invoice paid, the second is declined
  // and marks it failed, and so a second payment is taken.
  lemma PaidTwice(s: Race, reference: string) returns (first: seq<Step>, more: seq<Step>)
    requires Untouched(s) && Row(s).status.Draft? && Row(s).amount > 0 && Strip(reference) != ""
    ensures Possible(s, first) && AfterStatus(s, first) == Some(Paid)
    ensures Possible(s, first + more) && AfterStatus(s, first + more) == Some(Paid)
    ensures var done := After(s, first + more);
      && done.id == s.id < |done.ledger.rows| && Row(done).provider == Some("manual")
      && done.ledger.attempts == s.ledger.attempts + [Attempt(s.id, true, true), Attempt(s.id, false, true)]
  {
    hide Strip, Truncate;
    var asked := TwoAnswers(s);
    OneMore(s, asked, Mark(0, 0));
    first := asked + [Mark(0, 0)];
    OneMore(s, first, Mark(1, 0));
    OneMore(s, first + [Mark(1, 0)], LookToPay(2, reference));
    OneMore(s, first + [Mark(1, 0)] + [LookToPay(2, reference)], Mark(2, 0));
    more := [Mark(1, 0), LookToPay(2, reference), Mark(2, 0)];
    assert first + [Mark(1, 0)] + [LookToPay(2, reference)] + [Mark(2, 0)] == first + more;
    hide Possible, After, Answers;
  }
}
