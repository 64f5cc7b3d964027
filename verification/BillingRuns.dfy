// The automatic monthly run: every complete month in the catch-up window, every organization with something to bill.
module BillingRuns {
  import opened Options
  import opened IsoTime
  import opened Calendar
  import opened BillingScope
  import opened Invoices
  import InvoiceLife
  import LineItems
  import Metering
  import PeriodContent
  import Receipts

  datatype Summary = Summary(months: seq<Period>, generated: nat, finalized: nat, already: nat, overlaps: nat, failed: nat)

  datatype Work = Work(ledger: Ledger, summary: Summary)

  // Finalizing a draft, when the run does that.
  function Settle(w: Work, id: Id, env: Env): Work {
    if !env.finalize || id >= |w.ledger.rows| || !w.ledger.rows[id].status.Draft? then w
    else
      var (ledger, ok) := Finalize(w.ledger, id, env.setup(id), env.clock);
      Work(ledger, if ok then w.summary.(finalized := w.summary.finalized + 1)
                   else w.summary.(failed := w.summary.failed + 1))
  }

  function BillOne(w: Work, org: string, p: Period, env: Env): Work {
    var found := TextMatch(w.ledger.rows, org, p.0, p.1);
    if found.Some? then Settle(w.(summary := w.summary.(already := w.summary.already + 1)), found.value, env)
    else
      var (rows, g) := Generate(w.ledger.rows, org, p.0, p.1, env.now, ContentOf(env, org, p), true);
      match g
      case Nothing => w
      case Refused => w.(summary := w.summary.(overlaps := w.summary.overlaps + 1))
      case Billed(id) =>
        Settle(Work(w.ledger.(rows := rows), w.summary.(generated := w.summary.generated + 1)), id, env)
      case BadPeriod => w.(summary := w.summary.(failed := w.summary.failed + 1))
      case NoContent => w.(summary := w.summary.(failed := w.summary.failed + 1))
  }

  function BillOrgs(w: Work, orgs: seq<string>, p: Period, env: Env): Work {
    if orgs == [] then w else BillOne(BillOrgs(w, orgs[..|orgs| - 1], p, env), orgs[|orgs| - 1], p, env)
  }

  function Named(w: Work, p: Period): Work { w.(summary := w.summary.(months := w.summary.months + [p])) }

  // False: the run ended early.
  function BillMonths(w: Work, months: seq<Period>, env: Env): (Work, bool) {
    if months == [] then (w, true)
    else
      var (sofar, going) := BillMonths(w, months[..|months| - 1], env);
      if !going then (sofar, false)
      else
        var p := months[|months| - 1];
        match OrgsOf(env, p)
        case None => (Named(sofar, p), false)
        case Some(orgs) => (BillOrgs(Named(sofar, p), orgs, p, env), true)
  }

  // How many months a run covers: as many as it is asked for, or as configured when it is asked for none in particular; a
  // negative number covers none.
  function MonthsCovered(asked: Option<int>, catchup: nat): nat {
    if asked.None? || asked.value == 0 then catchup else if asked.value < 0 then 0 else asked.value
  }

  const NOTHING_YET := Summary([], 0, 0, 0, 0, 0)

  class BillingAutomation {
    const repo: InvoiceRepository
    const provider: PaymentProvider
    var locked: bool
    var lastRun: Option<Summary>

    constructor (repo: InvoiceRepository, provider: PaymentProvider)
      ensures this.repo == repo && this.provider == provider && lastRun == None && !locked
    {
      this.repo, this.provider, this.locked, lastRun := repo, provider, false, None;
    }

    ghost function Books(): Ledger
      reads repo, provider
    {
      Ledger(repo.rows, provider.attempts)
    }

    method SettleOne(id: Id, env: Env, s: Summary) returns (summary: Summary)
      modifies repo, provider
      ensures Work(Books(), summary) == Settle(Work(old(Books()), s), id, env)
    {
      summary := s;
      if env.finalize && id < |repo.rows| && repo.rows[id].status.Draft? {
        var ok := FinalizeInvoice(repo, provider, id, env.setup(id), env.clock);
        summary := if ok then s.(finalized := s.finalized + 1) else s.(failed := s.failed + 1);
      }
    }

    // The month's lines for one organization; `breaks` stands for anything else that fails on the way.
    method WorkOut(org: string, p: Period, env: Env) returns (content: Option<seq<LineItems.Line>>)
      ensures content == ContentOf(env, org, p)
    {
      var rules := RulesFor(env, org, p);
      if env.breaks(org, p) || rules.None? {
        return None;
      }
      hide PeriodContent.Content;
      var usage, lines := PeriodContent.WorkOutContent(env.store, rules.value, p.0, p.1);
      return Some(lines);
    }

    method BillOrganization(org: string, p: Period, env: Env, s: Summary) returns (summary: Summary)
      modifies repo, provider
      ensures Work(Books(), summary) == BillOne(Work(old(Books()), s), org, p, env)
    {
      hide ContentOf;
      var found := repo.GetForPeriod(org, p.0, p.1);
      if found.Some? {
        summary := SettleOne(found.value, env, s.(already := s.already + 1));
        return;
      }
      var content := WorkOut(org, p, env);
      var g := GenerateInvoice(repo, org, p.0, p.1, env.now, content, true);
      match g {
        case Nothing => summary := s;
        case Refused => summary := s.(overlaps := s.overlaps + 1);
        case Billed(id) => summary := SettleOne(id, env, s.(generated := s.generated + 1));
        case BadPeriod => summary := s.(failed := s.failed + 1);
        case NoContent => summary := s.(failed := s.failed + 1);
      }
    }

    // None: the run raised, with the invoices made until then kept; while another run is going it does nothing.
    method RunOnce(env: Env, asked: Option<int>, catchup: nat) returns (summary: Option<Summary>)
      modifies this, repo, provider
      ensures var window := PreviousMonths(env.now, MonthsCovered(asked, catchup));
        && (old(locked) || window.None? ==> summary.None? && Books() == old(Books()))
        && (!old(locked) && window.Some? ==>
              var (w, going) := BillMonths(Work(old(Books()), NOTHING_YET), window.value, env);
              Books() == w.ledger && summary == if going then Some(w.summary) else None)
      ensures lastRun == (if summary.Some? then summary else old(lastRun)) && locked == old(locked)
    {
      if locked {
        return None;
      }
      locked := true;
      var months := if asked.Some? && asked.value != 0 then asked.value else catchup;
      var window := PreviousMonths(env.now, if months < 0 then 0 else months);
      if window.None? {
        summary := None;
      } else {
        summary := RunThrough(env, window.value);
      }
      lastRun := if summary.Some? then summary else lastRun;
      locked := false;
    }

    method RunThrough(env: Env, periods: seq<Period>) returns (summary: Option<Summary>)
      modifies repo, provider
      ensures var (w, going) := BillMonths(Work(old(Books()), NOTHING_YET), periods, env);
        Books() == w.ledger && summary == if going then Some(w.summary) else None
    {
      var s := NOTHING_YET;
      ghost var start := Work(Books(), NOTHING_YET);
      for i := 0 to |periods|
        invariant BillMonths(start, periods[..i], env) == (Work(Books(), s), true)
      {
        var p := periods[i];
        assert periods[..i + 1][..i] == periods[..i];
        s := s.(months := s.months + [p]);
        var orgs := OrgsOf(env, p);
        if orgs.None? {
          StopsEarly(start, periods, i + 1, env);
          return None;
        }
        ghost var named := Work(Books(), s);
        for j := 0 to |orgs.value|
          invariant Work(Books(), s) == BillOrgs(named, orgs.value[..j], p, env)
        {
          assert orgs.value[..j + 1][..j] == orgs.value[..j];
          s := BillOrganization(orgs.value[j], p, env, s);
        }
        assert orgs.value[..|orgs.value|] == orgs.value;
      }
      assert periods[..|periods|] == periods;
      summary := Some(s);
    }
  }

  lemma {:induction false} StopsEarly(w: Work, months: seq<Period>, n: nat, env: Env)
    requires n <= |months| && !BillMonths(w, months[..n], env).1
    ensures BillMonths(w, months, env) == BillMonths(w, months[..n], env)
  {
    if n < |months| {
      assert months[..|months| - 1][..n] == months[..n];
      StopsEarly(w, months[..|months| - 1], n, env);
    } else {
      assert months[..n] == months;
    }
  }

  // ------------------------------------------------------------------ a run is ordinary calls

  lemma {:induction false} DoAllInTwo(l: Ledger, first: seq<InvoiceLife.Op>, more: seq<InvoiceLife.Op>)
    ensures InvoiceLife.DoAll(l, first + more) == InvoiceLife.DoAll(InvoiceLife.DoAll(l, first), more)
  {
    if more == [] {
      assert first + more == first;
    } else {
      assert (first + more)[..|first + more| - 1] == first + more[..|more| - 1];
      DoAllInTwo(l, first, more[..|more| - 1]);
    }
  }

  lemma SettleIsCalls(w: Work, id: Id, env: Env) returns (ops: seq<InvoiceLife.Op>)
    ensures InvoiceLife.DoAll(w.ledger, ops) == Settle(w, id, env).ledger
  {
    hide Finalize;
    if !env.finalize || id >= |w.ledger.rows| || !w.ledger.rows[id].status.Draft? {
      ops := [];
    } else {
      ops := [InvoiceLife.Finalizing(id, env.setup(id), env.clock)];
      assert ops[..0] == [];
    }
  }

  lemma BillOneIsCalls(w: Work, org: string, p: Period, env: Env) returns (ops: seq<InvoiceLife.Op>)
    ensures InvoiceLife.DoAll(w.ledger, ops) == BillOne(w, org, p, env).ledger
  {
    hide TextMatch, Generate, Settle;
    var found := TextMatch(w.ledger.rows, org, p.0, p.1);
    if found.Some? {
      ops := SettleIsCalls(w.(summary := w.summary.(already := w.summary.already + 1)), found.value, env);
    } else {
      var (rows, g) := Generate(w.ledger.rows, org, p.0, p.1, env.now, ContentOf(env, org, p), true);
      var make := [InvoiceLife.Generating(org, p.0, p.1, env.now, ContentOf(env, org, p), true)];
      assert make[..0] == [];
      var made := w.ledger.(rows := rows);
      assert InvoiceLife.DoAll(w.ledger, make) == made;
      ops := make;
      if g.Billed? {
        var settle := SettleIsCalls(Work(made, w.summary.(generated := w.summary.generated + 1)), g.id, env);
        DoAllInTwo(w.ledger, make, settle);
        ops := make + settle;
      } else {
        NotBilledIsIdle(w.ledger.rows, org, p.0, p.1, env.now, ContentOf(env, org, p));
      }
    }
  }

  lemma NotBilledIsIdle(rows: seq<Invoice>, org: string, start: Instant, end: Instant, now: Instant,
                        content: Option<seq<LineItems.Line>>)
    ensures !Generate(rows, org, start, end, now, content, true).1.Billed? ==>
      Generate(rows, org, start, end, now, content, true).0 == rows
  {
    hide TextMatch, InstantMatch, Clash;
  }

  lemma {:induction false} BillOrgsIsCalls(w: Work, orgs: seq<string>, p: Period, env: Env) returns (ops: seq<InvoiceLife.Op>)
    ensures InvoiceLife.DoAll(w.ledger, ops) == BillOrgs(w, orgs, p, env).ledger
  {
    hide BillOne;
    if orgs == [] {
      ops := [];
    } else {
      var front := BillOrgs(w, orgs[..|orgs| - 1], p, env);
      var first := BillOrgsIsCalls(w, orgs[..|orgs| - 1], p, env);
      var last := BillOneIsCalls(front, orgs[|orgs| - 1], p, env);
      DoAllInTwo(w.ledger, first, last);
      ops := first + last;
    }
  }

  // Whatever a run does to the books is what some sequence of generating and finalizing calls does.
  lemma {:induction false} RunIsCalls(w: Work, months: seq<Period>, env: Env) returns (ops: seq<InvoiceLife.Op>)
    ensures InvoiceLife.DoAll(w.ledger, ops) == BillMonths(w, months, env).0.ledger
  {
    hide BillOrgs;
    if months == [] {
      ops := [];
    } else {
      var p := months[|months| - 1];
      var (sofar, going) := BillMonths(w, months[..|months| - 1], env);
      ops := RunIsCalls(w, months[..|months| - 1], env);
      if going && OrgsOf(env, p).Some? {
        var named := Named(sofar, p);
        var last := BillOrgsIsCalls(named, OrgsOf(env, p).value, p, env);
        DoAllInTwo(w.ledger, ops, last);
        ops := ops + last;
      }
    }
  }

  // ------------------------------------------------------------------ what a run achieves

  predicate Grown(rows: seq<Invoice>, now: seq<Invoice>) {
    |rows| <= |now| && forall i :: 0 <= i < |rows| ==>
      now[i].org == rows[i].org && now[i].start == rows[i].start && now[i].end == rows[i].end
      && now[i].lines == rows[i].lines && now[i].amount == rows[i].amount
  }

  predicate InScope(env: Env, org: string, p: Period) { OrgsOf(env, p).Some? && org in OrgsOf(env, p).value }

  predicate MadeFor(r: Invoice, months: seq<Period>, env: Env) {
    && r.start.Canonical? && r.end.Canonical? && (r.start.at, r.end.at) in months
    && InScope(env, r.org, (r.start.at, r.end.at))
    && ContentOf(env, r.org, (r.start.at, r.end.at)) == Some(r.lines) && r.lines != [] && r.amount == LineItems.Total(r.lines)
  }

  // Rows added since are for one of these months and an organization it goes through, with what there was to bill, and
  // not empty.
  predicate AddedFor(rows: seq<Invoice>, now: seq<Invoice>, months: seq<Period>, env: Env) {
    forall i :: |rows| <= i < |now| ==> MadeFor(now[i], months, env)
  }

  predicate BilledFor(rows: seq<Invoice>, org: string, p: Period) {
    exists i :: 0 <= i < |rows| && Overlaps(rows[i], org, p.0, p.1)
  }

  // Some of the time is billed, or there is nothing to bill, or it cannot be worked out.
  predicate Resolved(rows: seq<Invoice>, org: string, p: Period, env: Env) {
    BilledFor(rows, org, p) || ContentOf(env, org, p).None? || ContentOf(env, org, p).value == []
  }

  lemma SettleGrows(w: Work, id: Id, env: Env)
    ensures var now := Settle(w, id, env).ledger.rows; |now| == |w.ledger.rows| && Grown(w.ledger.rows, now)
  {
  }

  lemma GrownStill(a: seq<Invoice>, b: seq<Invoice>, c: seq<Invoice>)
    requires Grown(a, b) && Grown(b, c)
    ensures Grown(a, c)
  {
  }

  lemma BilledStays(rows: seq<Invoice>, now: seq<Invoice>, org: string, p: Period)
    requires Grown(rows, now) && BilledFor(rows, org, p)
    ensures BilledFor(now, org, p)
  {
    hide Micros;
    var i :| 0 <= i < |rows| && Overlaps(rows[i], org, p.0, p.1);
    assert Overlaps(now[i], org, p.0, p.1);
  }

  // One organization and month: at most one row more, for this month; afterwards it is resolved.
  lemma BillOneResolves(w: Work, org: string, p: Period, env: Env)
    requires Billable(p.0, p.1, env.now)
    requires InScope(env, org, p)
    ensures var rows, now := w.ledger.rows, BillOne(w, org, p, env).ledger.rows;
      && Grown(rows, now) && AddedFor(rows, now, [p], env) && |now| <= |rows| + 1 && Resolved(now, org, p, env)
      && (Resolved(rows, org, p, env) ==> |now| == |rows|)
  {
    hide OrgsOf, ContentOf;
    var rows, now := w.ledger.rows, BillOne(w, org, p, env).ledger.rows;
    var found := TextMatch(rows, org, p.0, p.1);
    FirstIs(rows, (r: Invoice) => SameText(r, org, p.0, p.1));
    if found.Some? {
      assert Overlaps(rows[found.value], org, p.0, p.1);
      SettleGrows(w.(summary := w.summary.(already := w.summary.already + 1)), found.value, env);
      BilledStays(rows, now, org, p);
    } else if ContentOf(env, org, p).Some? && ContentOf(env, org, p).value != [] {
      BillNew(w, org, p, env);
    }
    hide *;
  }

  lemma BillNew(w: Work, org: string, p: Period, env: Env)
    requires Billable(p.0, p.1, env.now) && TextMatch(w.ledger.rows, org, p.0, p.1).None?
    requires ContentOf(env, org, p).Some? && ContentOf(env, org, p).value != []
    requires InScope(env, org, p)
    ensures var rows, now := w.ledger.rows, BillOne(w, org, p, env).ledger.rows;
      && Grown(rows, now) && AddedFor(rows, now, [p], env) && |now| <= |rows| + 1 && BilledFor(now, org, p)
      && (BilledFor(rows, org, p) ==> |now| == |rows|)
  {
    hide TextMatch, InstantMatch, Clash, Finalize, Grown, AddedFor, BilledFor, Micros, InScope, ContentOf;
    var rows := w.ledger.rows;
    var (after, c) := Create(rows, org, p.0, p.1, ContentOf(env, org, p).value);
    CreateBills(rows, org, p, env);
    if !c.Overlapping? {
      var made := Work(w.ledger.(rows := after), w.summary.(generated := w.summary.generated + 1));
      SettleGrows(made, c.id, env);
      var now := Settle(made, c.id, env).ledger.rows;
      assert BillOne(w, org, p, env).ledger.rows == now;
      hide Create, Settle, BillOne;
      BilledStays(after, now, org, p);
      GrownStill(rows, after, now);
      AddedStays(rows, after, now, [p], env);
    }
  }

  lemma AddedStays(rows: seq<Invoice>, after: seq<Invoice>, now: seq<Invoice>, months: seq<Period>, env: Env)
    requires AddedFor(rows, after, months, env) && Grown(after, now) && |now| == |after|
    ensures AddedFor(rows, now, months, env)
  {
  }

  lemma CreateBills(rows: seq<Invoice>, org: string, p: Period, env: Env)
    requires Micros(p.0) < Micros(p.1) && ContentOf(env, org, p).Some? && ContentOf(env, org, p).value != []
    requires InScope(env, org, p)
    ensures var (after, c) := Create(rows, org, p.0, p.1, ContentOf(env, org, p).value);
      && BilledFor(after, org, p) && Grown(rows, after) && AddedFor(rows, after, [p], env) && |after| <= |rows| + 1
      && (c.Overlapping? ==> after == rows) && (c.Fresh? ==> !BilledFor(rows, org, p)) && (c.Existing? ==> after == rows)
  {
    hide OrgsOf, ContentOf, Micros;
    var lines := ContentOf(env, org, p).value;
    CreateCovers(rows, org, p.0, p.1, lines);
    FirstIs(rows, (r: Invoice) => Overlaps(r, org, p.0, p.1));
    var (after, c) := Create(rows, org, p.0, p.1, lines);
    assert Overlaps(after[c.id], org, p.0, p.1);
    hide Micros, First;
  }

  lemma {:induction false} BillOrgsResolves(w: Work, orgs: seq<string>, p: Period, env: Env)
    requires Billable(p.0, p.1, env.now)
    requires forall org :: org in orgs ==> InScope(env, org, p)
    ensures var rows, now := w.ledger.rows, BillOrgs(w, orgs, p, env).ledger.rows;
      && Grown(rows, now) && AddedFor(rows, now, [p], env)
      && (forall org :: org in orgs ==> Resolved(now, org, p, env))
      && ((forall org :: org in orgs ==> Resolved(rows, org, p, env)) ==> |now| == |rows|)
  {
    hide BillOne, Billable, Resolved, InScope, MadeFor;
    if orgs != [] {
      assert orgs[|orgs| - 1] in orgs && forall org :: org in orgs[..|orgs| - 1] ==> org in orgs;
      var front, last := orgs[..|orgs| - 1], orgs[|orgs| - 1];
      var mid := BillOrgs(w, front, p, env);
      BillOrgsResolves(w, front, p, env);
      BillOneResolves(mid, last, p, env);
      var rows, between, now := w.ledger.rows, mid.ledger.rows, BillOrgs(w, orgs, p, env).ledger.rows;
      GrownStill(rows, between, now);
      forall org | org in front ensures Resolved(now, org, p, env) { ResolvedStays(between, now, org, p, env); }
      if forall org :: org in orgs ==> Resolved(rows, org, p, env) {
        assert last in orgs && forall org :: org in front ==> org in orgs;
        ResolvedStays(rows, between, last, p, env);
      }
      AddedInTwo(rows, between, now, [p], [p], env);
    }
  }

  lemma ResolvedStays(rows: seq<Invoice>, now: seq<Invoice>, org: string, p: Period, env: Env)
    requires Grown(rows, now) && Resolved(rows, org, p, env)
    ensures Resolved(now, org, p, env)
  {
    if BilledFor(rows, org, p) { BilledStays(rows, now, org, p); }
  }

  lemma AddedInTwo(a: seq<Invoice>, b: seq<Invoice>, c: seq<Invoice>, some: seq<Period>, more: seq<Period>, env: Env)
    requires Grown(a, b) && Grown(b, c) && AddedFor(a, b, some, env) && AddedFor(b, c, more, env)
    ensures forall all: seq<Period> {:trigger AddedFor(a, c, all, env)} ::
      (forall p :: p in some || p in more ==> p in all) ==> AddedFor(a, c, all, env)
  {
  }

  predicate AllBillable(months: seq<Period>, now: Instant) {
    forall i :: 0 <= i < |months| ==> Billable(months[i].0, months[i].1, now)
  }

  predicate AllResolved(rows: seq<Invoice>, months: seq<Period>, env: Env) {
    forall p, org :: p in months && OrgsOf(env, p).Some? && org in OrgsOf(env, p).value ==> Resolved(rows, org, p, env)
  }

  lemma {:induction false} MonthsResolve(w: Work, months: seq<Period>, env: Env)
    requires AllBillable(months, env.now)
    ensures var (done, going) := BillMonths(w, months, env); var rows := w.ledger.rows;
      && Grown(rows, done.ledger.rows) && AddedFor(rows, done.ledger.rows, months, env)
      && (going ==> AllResolved(done.ledger.rows, months, env))
      && (AllResolved(rows, months, env) ==> |done.ledger.rows| == |rows|)
      && (going <==> forall p :: p in months ==> OrgsOf(env, p).Some?)
  {
    hide BillOrgs, Billable, Resolved, OrgsOf, ContentOf;
    if months != [] {
      var front, p := months[..|months| - 1], months[|months| - 1];
      assert p in months && (forall q :: q in months <==> q in front || q == p) && Billable(p.0, p.1, env.now);
      MonthsResolve(w, front, env);
      var (mid, on) := BillMonths(w, front, env);
      if on && OrgsOf(env, p).Some? {
        var named := Named(mid, p);
        BillOrgsResolves(named, OrgsOf(env, p).value, p, env);
        OneMoreMonth(w.ledger.rows, mid.ledger.rows, BillMonths(w, months, env).0.ledger.rows, front, p, env);
      }
    }
  }

  lemma OneMoreMonth(rows: seq<Invoice>, mid: seq<Invoice>, now: seq<Invoice>, front: seq<Period>, p: Period, env: Env)
    requires Grown(rows, mid) && Grown(mid, now) && AddedFor(rows, mid, front, env) && AddedFor(mid, now, [p], env)
    requires OrgsOf(env, p).Some? && AllResolved(mid, front, env)
    requires forall org :: org in OrgsOf(env, p).value ==> Resolved(now, org, p, env)
    ensures Grown(rows, now) && AddedFor(rows, now, front + [p], env) && AllResolved(now, front + [p], env)
    ensures AllResolved(rows, front + [p], env) ==> forall org :: org in OrgsOf(env, p).value ==> Resolved(mid, org, p, env)
  {
    hide Resolved;
    GrownStill(rows, mid, now);
    AddedInTwo(rows, mid, now, front, [p], env);
    forall q, org | q in front + [p] && OrgsOf(env, q).Some? && org in OrgsOf(env, q).value
      ensures Resolved(now, org, q, env)
    {
      if q in front { ResolvedStays(mid, now, org, q, env); }
    }
    if AllResolved(rows, front + [p], env) {
      forall org | org in OrgsOf(env, p).value ensures Resolved(mid, org, p, env) {
        assert p in front + [p];
        ResolvedStays(rows, mid, org, p, env);
      }
    }
  }

  // ------------------------------------------------------------------ the automation's promises

  lemma WindowIsBillable(now: Instant, count: nat)
    requires PreviousMonths(now, count).Some?
    ensures AllBillable(PreviousMonths(now, count).value, now)
  {
    var months := PreviousMonths(now, count).value;
    MonthsTile(Floor(now), count);
    PreviousMonthsTile(now, count);
    hide *;
    forall i | 0 <= i < |months| ensures Billable(months[i].0, months[i].1, now) {
      MonthIsBillable(months[i], now);
    }
    assert AllBillable(months, now) by { EachBillable(months, now); }
  }

  lemma EachBillable(months: seq<Period>, now: Instant)
    requires forall i :: 0 <= i < |months| ==> Billable(months[i].0, months[i].1, now)
    ensures AllBillable(months, now)
  {
  }

  lemma MonthIsBillable(p: Period, now: Instant)
    requires MonthStart(p.0) && MonthStart(p.1) && MonthIndex(p.1) == MonthIndex(p.0) + 1 && Micros(p.1) <= Micros(now)
    ensures Billable(p.0, p.1, now)
  {
    MonthLength(p);
    MonthsAreIntervals(p);
    hide Micros;
  }

  lemma WindowIsMonths(now: Instant, count: nat)
    requires PreviousMonths(now, count).Some?
    ensures forall i :: 0 <= i < |PreviousMonths(now, count).value| ==>
      var q := PreviousMonths(now, count).value[i];
      MonthStart(q.0) && MonthStart(q.1) && MonthIndex(q.1) == MonthIndex(q.0) + 1
  {
    MonthsTile(Floor(now), count);
  }

  // After a run, an organization with something to bill for a covered month of which nothing was billed before has an
  // invoice for it if and only if it has a job completed in the month or owes a fee for it.
  lemma RunInvoicesIff(l: Ledger, env: Env, count: nat, p: Period, org: string)
    requires PreviousMonths(env.now, count).Some? && p in PreviousMonths(env.now, count).value && org != ""
    requires BillMonths(Work(l, NOTHING_YET), PreviousMonths(env.now, count).value, env).1
    requires ContentOf(env, org, p).Some? && ContentOf(env, org, p).value != [] && !BilledFor(l.rows, org, p)
    ensures BilledFor(BillMonths(Work(l, NOTHING_YET), PreviousMonths(env.now, count).value, env).0.ledger.rows, org, p)
      <==> HasJob(env, org, p) || OwesFee(env, org, p)
  {
    hide *;
    var months, w := PreviousMonths(env.now, count).value, Work(l, NOTHING_YET);
    WindowIsBillable(env.now, count);
    WindowIsMonths(env.now, count);
    MonthsResolve(w, months, env);
    var rows := BillMonths(w, months, env).0.ledger.rows;
    OrgsOfAre(env, p, org);
    BilledIffInScope(l.rows, rows, months, p, org, env);
  }

  lemma BilledIffInScope(rows: seq<Invoice>, now: seq<Invoice>, months: seq<Period>, p: Period, org: string, env: Env)
    requires Grown(rows, now) && AddedFor(rows, now, months, env) && AllResolved(now, months, env)
    requires forall i :: 0 <= i < |months| ==>
      MonthStart(months[i].0) && MonthStart(months[i].1) && MonthIndex(months[i].1) == MonthIndex(months[i].0) + 1
    requires p in months && !BilledFor(rows, org, p) && OrgsOf(env, p).Some?
    requires ContentOf(env, org, p).Some? && ContentOf(env, org, p).value != []
    ensures BilledFor(now, org, p) <==> org in OrgsOf(env, p).value
  {
    hide OrgsOf, ContentOf, Micros, Overlaps, MonthStart, MonthIndex;
    if org in OrgsOf(env, p).value {
      assert Resolved(now, org, p, env);
    } else if BilledFor(now, org, p) {
      NewRowIsInScope(rows, now, months, p, org, env);
    }
  }

  // When it has, there is exactly one, of exactly the month, for what there was to bill.
  lemma RunInvoicesEveryMonth(l: Ledger, env: Env, count: nat, p: Period, org: string) returns (j: Id)
    requires AllApart(l.rows) && PreviousMonths(env.now, count).Some? && p in PreviousMonths(env.now, count).value
    requires BillMonths(Work(l, NOTHING_YET), PreviousMonths(env.now, count).value, env).1
    requires org != "" && (HasJob(env, org, p) || OwesFee(env, org, p))
    requires ContentOf(env, org, p).Some? && ContentOf(env, org, p).value != [] && !BilledFor(l.rows, org, p)
    ensures var rows := BillMonths(Work(l, NOTHING_YET), PreviousMonths(env.now, count).value, env).0.ledger.rows;
      && |l.rows| <= j < |rows| && SameInstants(rows[j], org, p.0, p.1)
      && rows[j].lines == ContentOf(env, org, p).value && rows[j].amount == LineItems.Total(rows[j].lines)
      && forall k :: 0 <= k < |rows| && k != j ==> !Overlaps(rows[k], org, p.0, p.1)
  {
    hide *;
    var months, w := PreviousMonths(env.now, count).value, Work(l, NOTHING_YET);
    WindowIsBillable(env.now, count);
    WindowIsMonths(env.now, count);
    MonthsResolve(w, months, env);
    var ops := RunIsCalls(w, months, env);
    InvoiceLife.NoTimeBilledTwice(l, ops);
    var rows := BillMonths(w, months, env).0.ledger.rows;
    OrgsOfAre(env, p, org);
    j := TheNewRow(l.rows, rows, months, p, org, env);
    TheOnlyRow(rows, j, p, org);
  }

  lemma NewRowIsInScope(rows: seq<Invoice>, now: seq<Invoice>, months: seq<Period>, p: Period, org: string, env: Env)
    requires Grown(rows, now) && AddedFor(rows, now, months, env)
    requires forall i :: 0 <= i < |months| ==>
      MonthStart(months[i].0) && MonthStart(months[i].1) && MonthIndex(months[i].1) == MonthIndex(months[i].0) + 1
    requires p in months && !BilledFor(rows, org, p) && BilledFor(now, org, p)
    ensures OrgsOf(env, p).Some? && org in OrgsOf(env, p).value
  {
    hide Micros, OrgsOf, ContentOf;
    var j :| 0 <= j < |now| && Overlaps(now[j], org, p.0, p.1);
    assert j < |rows| ==> Overlaps(rows[j], org, p.0, p.1);
    assert MadeFor(now[j], months, env);
    MonthsMeetOnlyThemselves(p, (now[j].start.at, now[j].end.at));
  }

  lemma TheOnlyRow(rows: seq<Invoice>, j: Id, p: Period, org: string)
    requires AllApart(rows) && j < |rows| && SameInstants(rows[j], org, p.0, p.1)
    ensures forall k :: 0 <= k < |rows| && k != j ==> !Overlaps(rows[k], org, p.0, p.1)
  {
    hide Micros;
    forall k | 0 <= k < |rows| && k != j ensures !Overlaps(rows[k], org, p.0, p.1) {
      assert Apart(rows[if k < j then k else j], rows[if k < j then j else k]);
    }
  }

  lemma TheNewRow(rows: seq<Invoice>, now: seq<Invoice>, months: seq<Period>, p: Period, org: string, env: Env)
    returns (j: Id)
    requires Grown(rows, now) && AddedFor(rows, now, months, env) && AllResolved(now, months, env)
    requires forall i :: 0 <= i < |months| ==>
      MonthStart(months[i].0) && MonthStart(months[i].1) && MonthIndex(months[i].1) == MonthIndex(months[i].0) + 1
    requires p in months && OrgsOf(env, p).Some? && org in OrgsOf(env, p).value
    requires ContentOf(env, org, p).Some? && ContentOf(env, org, p).value != [] && !BilledFor(rows, org, p)
    ensures |rows| <= j < |now| && SameInstants(now[j], org, p.0, p.1)
    ensures now[j].lines == ContentOf(env, org, p).value && now[j].amount == LineItems.Total(now[j].lines)
  {
    hide Micros, OrgsOf, ContentOf;
    assert Resolved(now, org, p, env);
    j :| 0 <= j < |now| && Overlaps(now[j], org, p.0, p.1);
    assert j < |rows| ==> Overlaps(rows[j], org, p.0, p.1);
    assert MadeFor(now[j], months, env);
    var q := (now[j].start.at, now[j].end.at);
    MonthsMeetOnlyThemselves(p, q);
  }

  // And it is for the amount due.
  lemma RunBillsTheAmountDue(l: Ledger, env: Env, count: nat, p: Period, org: string) returns (j: Id)
    requires AllApart(l.rows) && PreviousMonths(env.now, count).Some? && p in PreviousMonths(env.now, count).value
    requires BillMonths(Work(l, NOTHING_YET), PreviousMonths(env.now, count).value, env).1
    requires org != "" && (HasJob(env, org, p) || OwesFee(env, org, p)) && LineItems.Priced(env.pricing)
    requires ContentOf(env, org, p).Some? && ContentOf(env, org, p).value != [] && !BilledFor(l.rows, org, p)
    ensures var rows := BillMonths(Work(l, NOTHING_YET), PreviousMonths(env.now, count).value, env).0.ledger.rows;
      && |l.rows| <= j < |rows| && SameInstants(rows[j], org, p.0, p.1)
      && RulesFor(env, org, p).Some? && rows[j].amount == DueFor(env, RulesFor(env, org, p).value, p)
  {
    hide *;
    j := RunInvoicesEveryMonth(l, env, count, p, org);
    RulesAreThere(env, org, p);
    var rules := RulesFor(env, org, p).value;
    AmountIsDue(env, rules, p);
  }

  lemma RulesAreThere(env: Env, org: string, p: Period)
    requires ContentOf(env, org, p).Some?
    ensures RulesFor(env, org, p).Some? && RulesFor(env, org, p).value.pricing == env.pricing
    ensures ContentOf(env, org, p).value == PeriodContent.Content(env.store, RulesFor(env, org, p).value, p.0, p.1)
  {
    hide PeriodContent.Content;
  }

  // The usage at its prices, rounded once, less the included usage but not below zero, plus the fee.
  function DueFor(env: Env, rules: PeriodContent.Rules, p: Period): int {
    LineItems.AtLeastZero(
      LineItems.Cents(LineItems.ExactTotal(
        LineItems.LineItems(PeriodContent.UsageOf(env.store, rules, p.0, p.1), rules.pricing)))
      - LineItems.AtLeastZero(rules.terms.included))
    + LineItems.AtLeastZero(rules.terms.fee)
  }

  lemma AmountIsDue(env: Env, rules: PeriodContent.Rules, p: Period)
    requires LineItems.Priced(rules.pricing)
    ensures LineItems.Total(PeriodContent.Content(env.store, rules, p.0, p.1)) == DueFor(env, rules, p)
  {
    PeriodContent.AmountDue(env.store, rules, p.0, p.1);
    hide PeriodContent.Content, PeriodContent.UsageOf, LineItems.LineItems, LineItems.ExactTotal, LineItems.Cents;
  }

  // Receipts are billed by their upload, and a run goes by completed jobs: receipts uploaded in a month in which their
  // organization completed no job, and owes no fee, are something to bill that no run bills. No other month's bill has
  // them either.
  lemma ReceiptsAloneAreNeverBilled(l: Ledger, env: Env, count: nat, p: Period, org: string, k: nat, other: Period)
    requires PreviousMonths(env.now, count).Some? && p in PreviousMonths(env.now, count).value && org != ""
    requires BillMonths(Work(l, NOTHING_YET), PreviousMonths(env.now, count).value, env).1
    requires ContentOf(env, org, p).Some? && !BilledFor(l.rows, org, p)
    requires k < |env.store.uploads| && PeriodContent.UploadedIn(env.store, env.store.uploads[k], org, p.0, p.1)
    requires Receipts.Good(env.store.uploads[k].receipt, env.validator)
    requires !HasJob(env, org, p) && !OwesFee(env, org, p)
    requires Micros(other.1) <= Micros(p.0) || Micros(p.1) <= Micros(other.0)
    ensures ContentOf(env, org, p).value != []
    ensures !BilledFor(BillMonths(Work(l, NOTHING_YET), PreviousMonths(env.now, count).value, env).0.ledger.rows, org, p)
    ensures !PeriodContent.UploadedIn(env.store, env.store.uploads[k], org, other.0, other.1)
  {
    var u := env.store.uploads[k];
    hide BillMonths, PreviousMonths, PeriodContent.UploadedIn, PeriodContent.Content;
    PeriodContent.ReceiptIsBillable(env.store, RulesFor(env, org, p).value, k, p.0, p.1);
    if Micros(p.1) <= Micros(other.0) {
      PeriodContent.PeriodsShareNoUpload(env.store, u, org, p.0, p.1, other.0, other.1);
    } else {
      PeriodContent.PeriodsShareNoUpload(env.store, u, org, other.0, other.1, p.0, p.1);
    }
    hide ContentOf;
    RunInvoicesIff(l, env, count, p, org);
  }

  // Such an input: a replicated job whose receipt comes in at `sent` and which is complete at `done`, nothing else
  // stored, receipts at a dollar.
  function LateJob(done: Instant): Metering.Job {
    Metering.Job("job", "acme", true, Text(done), Metering.Missing, Metering.Missing, Metering.NoTokens)
  }

  function LateUpload(sent: Instant): PeriodContent.Upload {
    var payload := Receipts.Payload(Some("job"), true, false, "");
    PeriodContent.Upload(Receipts.Receipt(Some("receipt"), Some("job"), Some(payload), true), Text(sent))
  }

  function LateEnv(now: Instant, sent: Instant, done: Instant): Env {
    Env(now, 0, PeriodContent.Store([LateJob(done)], [LateUpload(sent)]), map[], map[], 1.0, None,
        LineItems.Pricing(0.0, None, 0.0, 0.0, 0.0, 0.0, 100.0, 0.0),
        [], (org, p) => Some(LineItems.Terms(0, 0, "")), (org, p) => false, false, id => NotConfigured)
  }

  // Whatever the months: a receipt sent in one of them, its job done after it, and the run leaves the month unbilled.
  lemma LateJobIsNeverBilled(now: Instant, sent: Instant, done: Instant, count: nat, p: Period, other: Period)
    requires PreviousMonths(now, count).Some? && p in PreviousMonths(now, count).value
    requires Within(sent, p) && Micros(p.1) <= Micros(done)
    requires Micros(other.1) <= Micros(p.0) || Micros(p.1) <= Micros(other.0)
    ensures var env := LateEnv(now, sent, done);
      var (w, going) := BillMonths(Work(Ledger([], []), NOTHING_YET), PreviousMonths(now, count).value, env);
      && ContentOf(env, "acme", p).Some? && ContentOf(env, "acme", p).value != []
      && going && !BilledFor(w.ledger.rows, "acme", p)
      && !PeriodContent.UploadedIn(env.store, LateUpload(sent), "acme", other.0, other.1)
  {
    hide *;
    var env, months, w := LateEnv(now, sent, done), PreviousMonths(now, count).value, Work(Ledger([], []), NOTHING_YET);
    LateStore(now, sent, done);
    forall q { LateScope(now, sent, done, q); }
    LateUploadIn(now, sent, done, p);
    LateNoJob(now, sent, done, p);
    NothingBilledYet("acme", p);
    WindowIsBillable(env.now, count);
    MonthsResolve(w, months, env);
    ReceiptsAloneAreNeverBilled(w.ledger, env, count, p, "acme", 0, other);
  }

  lemma NothingBilledYet(org: string, p: Period)
    ensures !BilledFor([], org, p)
  {
  }

  lemma LateStore(now: Instant, sent: Instant, done: Instant)
    ensures var env := LateEnv(now, sent, done);
      && env.now == now && env.store.jobs == [LateJob(done)] && env.store.uploads == [LateUpload(sent)]
      && Receipts.Good(LateUpload(sent).receipt, env.validator)
  {
    hide Text;
  }

  lemma LateScope(now: Instant, sent: Instant, done: Instant, p: Period)
    ensures var env := LateEnv(now, sent, done);
      OrgsOf(env, p).Some? && ContentOf(env, "acme", p).Some? && !OwesFee(env, "acme", p)
  {
    hide JobOrgs, PeriodContent.Content, LateJob, LateUpload;
    assert FeeOrgs(LateEnv(now, sent, done), [], p) == Some([]);
  }

  lemma LateUploadIn(now: Instant, sent: Instant, done: Instant, p: Period)
    requires Within(sent, p)
    ensures PeriodContent.UploadedIn(LateEnv(now, sent, done).store, LateUpload(sent), "acme", p.0, p.1)
  {
    var store := LateEnv(now, sent, done).store;
    hide Text, Micros;
    assert store.jobs[0] == LateJob(done) && LateUpload(sent).uploadedAt == Text(sent);
    assert PeriodContent.CompletedFor(store.jobs, LateUpload(sent).receipt.job, "acme");
    PeriodContent.UploadedInIsInInterval(store, LateUpload(sent), "acme", sent, p.0, p.1);
    hide *;
    WithinMeans(sent, p);
  }

  lemma WithinMeans(t: Instant, p: Period)
    requires Within(t, p)
    ensures Micros(p.0) <= Micros(t) < Micros(p.1)
  {
  }

  lemma LateNoJob(now: Instant, sent: Instant, done: Instant, p: Period)
    requires Micros(p.1) <= Micros(done)
    ensures !HasJob(LateEnv(now, sent, done), "acme", p)
  {
    LateStore(now, sent, done);
    assert LateJob(done).completedAt == Text(done);
    Metering.InPeriodIsInInterval(LateJob(done), "acme", done, p.0, p.1);
    hide LateEnv, LateJob, LateUpload, Metering.InPeriod, Text, Micros;
  }

  lemma {:induction false} NothingFinalized(w: Work, months: seq<Period>, env: Env)
    requires !env.finalize
    ensures var l := BillMonths(w, months, env).0.ledger; w.ledger.rows <= l.rows && l.attempts == w.ledger.attempts
  {
    hide BillOrgs;
    if months != [] {
      var front, p := months[..|months| - 1], months[|months| - 1];
      NothingFinalized(w, front, env);
      var (mid, on) := BillMonths(w, front, env);
      if on && OrgsOf(env, p).Some? {
        NoneFinalizedFor(Named(mid, p), OrgsOf(env, p).value, p, env);
      }
    }
  }

  lemma {:induction false} NoneFinalizedFor(w: Work, orgs: seq<string>, p: Period, env: Env)
    requires !env.finalize
    ensures var l := BillOrgs(w, orgs, p, env).ledger; w.ledger.rows <= l.rows && l.attempts == w.ledger.attempts
  {
    hide BillOne;
    if orgs != [] {
      var mid := BillOrgs(w, orgs[..|orgs| - 1], p, env);
      NoneFinalizedFor(w, orgs[..|orgs| - 1], p, env);
      BillOneAppends(mid, orgs[|orgs| - 1], p, env);
    }
  }

  lemma BillOneAppends(w: Work, org: string, p: Period, env: Env)
    requires !env.finalize
    ensures var l := BillOne(w, org, p, env).ledger; w.ledger.rows <= l.rows && l.attempts == w.ledger.attempts
  {
    hide OrgsOf, ContentOf, Generate, TextMatch;
    GenerateAppends(w.ledger.rows, org, p.0, p.1, env.now, ContentOf(env, org, p));
  }

  lemma GenerateAppends(rows: seq<Invoice>, org: string, start: Instant, end: Instant, now: Instant,
                        content: Option<seq<LineItems.Line>>)
    ensures rows <= Generate(rows, org, start, end, now, content, true).0
  {
    hide TextMatch, InstantMatch, Clash, Billable;
  }

  // Running again on the result makes no invoice; and, when it only drafts, changes nothing at all. How payments stand
  // may have changed in between, and so may the clock within the month.
  lemma RunningAgainMakesNothing(l: Ledger, env: Env, again: Env, count: nat)
    requires PreviousMonths(env.now, count).Some? && PreviousMonths(again.now, count) == PreviousMonths(env.now, count)
    requires BillMonths(Work(l, NOTHING_YET), PreviousMonths(env.now, count).value, env).1
    requires again == env.(now := again.now, clock := again.clock, finalize := again.finalize, setup := again.setup)
    ensures var months := PreviousMonths(env.now, count).value;
      var first := BillMonths(Work(l, NOTHING_YET), months, env).0.ledger;
      var second := BillMonths(Work(first, NOTHING_YET), months, again).0.ledger;
      |second.rows| == |first.rows| && (!again.finalize ==> second == first)
  {
    var months := PreviousMonths(env.now, count).value;
    var first := BillMonths(Work(l, NOTHING_YET), months, env).0.ledger;
    WindowIsBillable(env.now, count);
    WindowIsBillable(again.now, count);
    MonthsResolve(Work(l, NOTHING_YET), months, env);
    hide BillMonths, PreviousMonths, Resolved;
    assert AllResolved(first.rows, months, again) by { SameQuestions(first.rows, months, env, again); }
    MonthsResolve(Work(first, NOTHING_YET), months, again);
    if !again.finalize { NothingFinalized(Work(first, NOTHING_YET), months, again); }
  }

  lemma SameQuestions(rows: seq<Invoice>, months: seq<Period>, env: Env, again: Env)
    requires again == env.(now := again.now, clock := again.clock, finalize := again.finalize, setup := again.setup)
    requires AllResolved(rows, months, env)
    ensures AllResolved(rows, months, again)
  {
    forall p, org | p in months && OrgsOf(again, p).Some? && org in OrgsOf(again, p).value
      ensures Resolved(rows, org, p, again)
    {
      SameScope(env, again, p, org);
      hide OrgsOf, ContentOf;
      assert Resolved(rows, org, p, env);
    }
  }

  // ------------------------------------------------------------------ what the summary counts

  // The invoice is there, but only under another spelling of its period.
  predicate Respelled(w: Work, org: string, p: Period, env: Env) {
    && TextMatch(w.ledger.rows, org, p.0, p.1).None? && InstantMatch(w.ledger.rows, org, p.0, p.1).Some?
    && Billable(p.0, p.1, env.now) && ContentOf(env, org, p).Some? && ContentOf(env, org, p).value != []
  }

  function RespelledOrgs(w: Work, orgs: seq<string>, p: Period, env: Env): nat {
    if orgs == [] then 0
    else
      var front, org := orgs[..|orgs| - 1], orgs[|orgs| - 1];
      RespelledOrgs(w, front, p, env) + if Respelled(BillOrgs(w, front, p, env), org, p, env) then 1 else 0
  }

  // How often a run comes upon one.
  function RespelledMonths(w: Work, months: seq<Period>, env: Env): nat {
    if months == [] then 0
    else
      var front, p := months[..|months| - 1], months[|months| - 1];
      var (sofar, going) := BillMonths(w, front, env);
      RespelledMonths(w, front, env)
      + if going && OrgsOf(env, p).Some? then RespelledOrgs(Named(sofar, p), OrgsOf(env, p).value, p, env) else 0
  }

  // One organization and month: the count of generated invoices goes up by what was made, and once more for such an
  // invoice.
  lemma GeneratedOne(w: Work, org: string, p: Period, env: Env)
    ensures var done := BillOne(w, org, p, env);
      done.summary.generated - w.summary.generated
        == |done.ledger.rows| - |w.ledger.rows| + if Respelled(w, org, p, env) then 1 else 0
  {
    hide TextMatch, InstantMatch, ContentOf, OrgsOf, Generate, Settle, Billable;
    var rows, content := w.ledger.rows, ContentOf(env, org, p);
    var found := TextMatch(rows, org, p.0, p.1);
    if found.Some? {
      SettleCounts(w.(summary := w.summary.(already := w.summary.already + 1)), found.value, env);
    } else {
      GeneratedFromContent(rows, org, p.0, p.1, env.now, content);
      GenerateAppends(rows, org, p.0, p.1, env.now, content);
      var (after, g) := Generate(rows, org, p.0, p.1, env.now, content, true);
      if g.Billed? {
        SettleCounts(Work(w.ledger.(rows := after), w.summary.(generated := w.summary.generated + 1)), g.id, env);
      }
    }
  }

  lemma GeneratedFromContent(rows: seq<Invoice>, org: string, start: Instant, end: Instant, now: Instant,
                             content: Option<seq<LineItems.Line>>)
    requires TextMatch(rows, org, start, end).None?
    ensures var (after, g) := Generate(rows, org, start, end, now, content, true);
      |after| - |rows|
        == (if g.Billed? then 1 else 0)
           - if InstantMatch(rows, org, start, end).Some? && Billable(start, end, now) && content.Some? && content.value != []
             then 1 else 0
  {
    hide TextMatch, InstantMatch, Clash, Billable;
  }

  lemma SettleCounts(w: Work, id: Id, env: Env)
    ensures Settle(w, id, env).summary.generated == w.summary.generated
    ensures |Settle(w, id, env).ledger.rows| == |w.ledger.rows|
  {
  }

  lemma {:induction false} GeneratedOrgs(w: Work, orgs: seq<string>, p: Period, env: Env)
    ensures var done := BillOrgs(w, orgs, p, env);
      done.summary.generated - w.summary.generated == |done.ledger.rows| - |w.ledger.rows| + RespelledOrgs(w, orgs, p, env)
  {
    hide BillOne, Respelled;
    if orgs != [] {
      GeneratedOrgs(w, orgs[..|orgs| - 1], p, env);
      GeneratedOne(BillOrgs(w, orgs[..|orgs| - 1], p, env), orgs[|orgs| - 1], p, env);
    }
  }

  lemma {:induction false} GeneratedInAll(w: Work, months: seq<Period>, env: Env)
    ensures var done := BillMonths(w, months, env).0;
      done.summary.generated - w.summary.generated == |done.ledger.rows| - |w.ledger.rows| + RespelledMonths(w, months, env)
  {
    hide BillOrgs, RespelledOrgs, OrgsOf;
    if months != [] {
      var front, p := months[..|months| - 1], months[|months| - 1];
      GeneratedInAll(w, front, env);
      var (sofar, going) := BillMonths(w, front, env);
      if going && OrgsOf(env, p).Some? { GeneratedOrgs(Named(sofar, p), OrgsOf(env, p).value, p, env); }
    }
  }

  // A run reports as generated exactly the invoices it made if and only if it came upon none that is there only under
  // another spelling of its period.
  lemma GeneratedCountsWhatIsMadeIff(l: Ledger, months: seq<Period>, env: Env)
    ensures var done := BillMonths(Work(l, NOTHING_YET), months, env).0;
      done.summary.generated == |done.ledger.rows| - |l.rows| <==> RespelledMonths(Work(l, NOTHING_YET), months, env) == 0
  {
    GeneratedInAll(Work(l, NOTHING_YET), months, env);
    hide BillMonths, RespelledMonths;
  }

  // A run over one month and organization that comes upon one: the books stay as they are, yet one is reported.
  lemma SpellingIsCounted(env: Env, org: string, p: Period)
    requires Billable(p.0, p.1, env.now) && OrgsOf(env, p) == Some([org]) && !env.finalize
    requires ContentOf(env, org, p).Some? && ContentOf(env, org, p).value != []
    ensures var row := NewInvoice(org, p.0, p.1, ContentOf(env, org, p).value).(start := Spelled("Z", Some(Micros(p.0))));
      var done := BillMonths(Work(Ledger([row], []), NOTHING_YET), [p], env).0;
      done.ledger == Ledger([row], []) && done.summary.generated == 1
  {
    var content := ContentOf(env, org, p).value;
    var row := NewInvoice(org, p.0, p.1, content).(start := Spelled("Z", Some(Micros(p.0))));
    var w := Work(Ledger([row], []), NOTHING_YET);
    hide ContentOf, OrgsOf, Micros;
    RespelledRow(row, org, p);
    RespelledIsIdle(Named(w, p), org, p, env, row, content);
    hide BillOne, NewInvoice, Billable;
    OneOrgRun(w, org, p, env);
  }

  lemma RespelledIsIdle(w: Work, org: string, p: Period, env: Env, row: Invoice, content: seq<LineItems.Line>)
    requires Billable(p.0, p.1, env.now) && ContentOf(env, org, p) == Some(content) && content != [] && !env.finalize
    requires w.ledger.rows == [row] && TextMatch([row], org, p.0, p.1).None? && InstantMatch([row], org, p.0, p.1) == Some(0)
    ensures BillOne(w, org, p, env) == w.(summary := w.summary.(generated := w.summary.generated + 1))
  {
    hide ContentOf, TextMatch, InstantMatch, Clash, Billable;
  }

  lemma OneOrgRun(w: Work, org: string, p: Period, env: Env)
    requires OrgsOf(env, p) == Some([org])
    ensures BillMonths(w, [p], env).0 == BillOne(Named(w, p), org, p, env)
  {
    hide BillOne, OrgsOf;
    assert [p][..0] == [] && [org][..0] == [];
    assert BillMonths(w, [], env) == (w, true) && BillOrgs(Named(w, p), [], p, env) == Named(w, p);
  }

  lemma RespelledRow(row: Invoice, org: string, p: Period)
    requires row.org == org && row.start == Spelled("Z", Some(Micros(p.0))) && row.end == Canonical(p.1)
    ensures TextMatch([row], org, p.0, p.1).None? && InstantMatch([row], org, p.0, p.1) == Some(0)
  {
    FirstIs([row], (r: Invoice) => SameText(r, org, p.0, p.1));
    FirstIs([row], (r: Invoice) => SameInstants(r, org, p.0, p.1));
    assert SameInstants([row][0], org, p.0, p.1);
    hide Micros, First;
  }
}
