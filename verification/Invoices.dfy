// Invoices: one per organization and stretch of time, made as drafts, then issued, charged or paid by hand.
module Invoices {
  import opened Options
  import opened IsoTime
  import LineItems
  import Metering

  // A stored period boundary: as isoformat writes it, or another spelling and the instant it reads as, if it can be read.
  datatype Boundary = Canonical(at: Instant) | Spelled(text: string, readsAs: Option<int>)

  function Reads(b: Boundary): Option<int> { if b.Canonical? then Some(Micros(b.at)) else b.readsAs }

  datatype Status = Draft | Open | Paid | Failed | Void

  datatype Invoice = Invoice(org: string, start: Boundary, end: Boundary, amount: int, lines: seq<LineItems.Line>,
                             status: Status, provider: Option<string>, chargeId: Option<string>, error: Option<string>,
                             finalizedAt: Option<int>, paidAt: Option<int>)

  type Id = nat

  predicate Readable(r: Invoice) { Reads(r.start).Some? && Reads(r.end).Some? }

  // Stored under the very same text.
  predicate SameText(r: Invoice, org: string, start: Instant, end: Instant) {
    r.org == org && r.start == Canonical(start) && r.end == Canonical(end)
  }

  predicate SameInstants(r: Invoice, org: string, start: Instant, end: Instant) {
    r.org == org && Reads(r.start) == Some(Micros(start)) && Reads(r.end) == Some(Micros(end))
  }

  predicate Overlaps(r: Invoice, org: string, start: Instant, end: Instant) {
    r.org == org && Readable(r) && Reads(r.start).value < Micros(end) && Reads(r.end).value > Micros(start)
  }

  // The first row for which a test holds.
  function First(rows: seq<Invoice>, test: Invoice -> bool): Option<Id> {
    if rows == [] then None
    else
      var found := First(rows[..|rows| - 1], test);
      if found.Some? then found else if test(rows[|rows| - 1]) then Some(|rows| - 1) else None
  }

  lemma {:induction false} FirstIs(rows: seq<Invoice>, test: Invoice -> bool)
    ensures match First(rows, test)
      case Some(i) => i < |rows| && test(rows[i]) && forall j :: 0 <= j < i ==> !test(rows[j])
      case None => forall j :: 0 <= j < |rows| ==> !test(rows[j])
  {
    if rows != [] { FirstIs(rows[..|rows| - 1], test); }
  }

  function TextMatch(rows: seq<Invoice>, org: string, start: Instant, end: Instant): Option<Id> {
    First(rows, (r: Invoice) => SameText(r, org, start, end))
  }

  function InstantMatch(rows: seq<Invoice>, org: string, start: Instant, end: Instant): Option<Id> {
    First(rows, (r: Invoice) => SameInstants(r, org, start, end))
  }

  function Clash(rows: seq<Invoice>, org: string, start: Instant, end: Instant): Option<Id> {
    First(rows, (r: Invoice) => Overlaps(r, org, start, end))
  }

  datatype Creation = Existing(id: Id) | Fresh(id: Id) | Overlapping(id: Id)

  function NewInvoice(org: string, start: Instant, end: Instant, lines: seq<LineItems.Line>): Invoice {
    Invoice(org, Canonical(start), Canonical(end), LineItems.Total(lines), lines, Draft, None, None, None, None, None)
  }

  function Create(rows: seq<Invoice>, org: string, start: Instant, end: Instant, lines: seq<LineItems.Line>)
    : (seq<Invoice>, Creation)
  {
    var text, same := TextMatch(rows, org, start, end), InstantMatch(rows, org, start, end);
    var clash := Clash(rows, org, start, end);
    if text.Some? then (rows, Existing(text.value))
    else if same.Some? then (rows, Existing(same.value))
    else if clash.Some? then (rows, Overlapping(clash.value))
    else (rows + [NewInvoice(org, start, end, lines)], Fresh(|rows|))
  }

  // A status update: a new provider or charge id replaces the old, the first finalization and payment times stay.
  function Marked(r: Invoice, status: Status, provider: Option<string>, chargeId: Option<string>, error: Option<string>,
                  now: int): Invoice
  {
    r.(status := status,
       provider := if provider.Some? then provider else r.provider,
       chargeId := if chargeId.Some? then chargeId else r.chargeId,
       error := error,
       finalizedAt := if r.finalizedAt.Some? then r.finalizedAt else if status.Draft? then None else Some(now),
       paidAt := if r.paidAt.Some? then r.paidAt else if status.Paid? then Some(now) else None)
  }

  class InvoiceRepository {
    var rows: seq<Invoice>

    constructor ()
      ensures rows == []
    {
      rows := [];
    }

    method GetForPeriod(org: string, start: Instant, end: Instant) returns (found: Option<Id>)
      ensures found == TextMatch(rows, org, start, end)
    {
      found := None;
      for i := 0 to |rows|
        invariant found == TextMatch(rows[..i], org, start, end)
      {
        assert rows[..i + 1][..i] == rows[..i];
        if found.None? && SameText(rows[i], org, start, end) {
          found := Some(i);
        }
      }
      assert rows[..|rows|] == rows;
    }

    // The row with exactly the same instants, else the first that shares time with the period.
    method FindSameOrOverlapping(org: string, start: Instant, end: Instant) returns (same: Option<Id>, overlap: Option<Id>)
      ensures same == InstantMatch(rows, org, start, end)
      ensures same.None? ==> overlap == Clash(rows, org, start, end)
    {
      same, overlap := None, None;
      var i := 0;
      while i < |rows| && same.None?
        invariant 0 <= i <= |rows|
        invariant same == InstantMatch(rows[..i], org, start, end)
        invariant same.None? ==> overlap == Clash(rows[..i], org, start, end)
      {
        assert rows[..i + 1][..i] == rows[..i];
        if rows[i].org == org && Readable(rows[i]) {
          if Reads(rows[i].start).value == Micros(start) && Reads(rows[i].end).value == Micros(end) {
            same := Some(i);
          } else if Reads(rows[i].start).value < Micros(end) && Reads(rows[i].end).value > Micros(start) && overlap.None? {
            overlap := Some(i);
          }
        }
        i := i + 1;
      }
      assert rows[..|rows|] == rows;
      if same.Some? { MatchStays(rows, i, (r: Invoice) => SameInstants(r, org, start, end)); }
    }

    method CreateInvoice(org: string, start: Instant, end: Instant, lines: seq<LineItems.Line>) returns (c: Creation)
      modifies this
      ensures (rows, c) == Create(old(rows), org, start, end, lines)
    {
      var text := GetForPeriod(org, start, end);
      if text.Some? {
        return Existing(text.value);
      }
      var same, overlap := FindSameOrOverlapping(org, start, end);
      if same.Some? {
        return Existing(same.value);
      }
      if overlap.Some? {
        return Overlapping(overlap.value);
      }
      c := Fresh(|rows|);
      rows := rows + [NewInvoice(org, start, end, lines)];
    }

    method MarkStatus(id: Id, status: Status, provider: Option<string>, chargeId: Option<string>, error: Option<string>,
                      now: int)
      requires id < |rows|
      modifies this
      ensures rows == old(rows)[id := Marked(old(rows)[id], status, provider, chargeId, error, now)]
    {
      rows := rows[id := Marked(rows[id], status, provider, chargeId, error, now)];
    }
  }

  lemma {:induction false} MatchStays(rows: seq<Invoice>, n: nat, test: Invoice -> bool)
    requires n <= |rows| && First(rows[..n], test).Some?
    ensures First(rows, test) == First(rows[..n], test)
  {
    if n < |rows| {
      assert rows[..|rows| - 1][..n] == rows[..n];
      MatchStays(rows[..|rows| - 1], n, test);
    } else {
      assert rows[..n] == rows;
    }
  }

  // ------------------------------------------------------------------ no time is billed twice

  predicate Apart(a: Invoice, b: Invoice) {
    a.org == b.org && Readable(a) && Readable(b) ==>
      Reads(a.end).value <= Reads(b.start).value || Reads(b.end).value <= Reads(a.start).value
  }

  predicate AllApart(rows: seq<Invoice>) { forall i, j :: 0 <= i < j < |rows| ==> Apart(rows[i], rows[j]) }

  lemma CreateKeepsApart(rows: seq<Invoice>, org: string, start: Instant, end: Instant, lines: seq<LineItems.Line>)
    requires AllApart(rows)
    ensures AllApart(Create(rows, org, start, end, lines).0)
  {
    FirstIs(rows, (r: Invoice) => Overlaps(r, org, start, end));
    hide Micros;
  }

  // Creating finds or makes the invoice of exactly these instants, or is refused because some of the time is billed.
  lemma CreateCovers(rows: seq<Invoice>, org: string, start: Instant, end: Instant, lines: seq<LineItems.Line>)
    ensures var (after, c) := Create(rows, org, start, end, lines);
      && rows <= after && c.id < |after|
      && (c.Overlapping? ==> Overlaps(rows[c.id], org, start, end) && after == rows)
      && (!c.Overlapping? ==> SameInstants(after[c.id], org, start, end))
      && (c.Existing? ==> after == rows)
      && (c.Fresh? ==> after == rows + [NewInvoice(org, start, end, lines)] && c.id == |rows|)
      && (c.Overlapping? || c.Fresh? ==> forall i :: 0 <= i < |rows| ==> !SameInstants(rows[i], org, start, end))
  {
    FirstIs(rows, (r: Invoice) => SameText(r, org, start, end));
    FirstIs(rows, (r: Invoice) => SameInstants(r, org, start, end));
    FirstIs(rows, (r: Invoice) => Overlaps(r, org, start, end));
    hide Micros;
  }

  // No completed job is in the periods of two invoices of its organization, whatever its completion time reads.
  lemma NoJobTwice(rows: seq<Invoice>, job: Metering.Job, i: Id, j: Id)
    requires AllApart(rows) && i < j < |rows| && rows[i].org == rows[j].org
    requires rows[i].start.Canonical? && rows[i].end.Canonical? && rows[j].start.Canonical? && rows[j].end.Canonical?
    ensures !(Metering.InPeriod(job, rows[i].org, rows[i].start.at, rows[i].end.at)
              && Metering.InPeriod(job, rows[j].org, rows[j].start.at, rows[j].end.at))
  {
    assert Apart(rows[i], rows[j]);
    var a, b, x, y := rows[i].start.at, rows[i].end.at, rows[j].start.at, rows[j].end.at;
    if Micros(b) <= Micros(x) {
      Metering.PeriodsShareNoJob(job, rows[i].org, a, b, x, y);
    } else {
      Metering.PeriodsShareNoJob(job, rows[i].org, x, y, a, b);
    }
  }

  // ------------------------------------------------------------------ generating

  const MAX_DAYS := 366

  // What a period must be to be invoiced: forwards, not too long, and over.
  predicate Billable(start: Instant, end: Instant, now: Instant) {
    Micros(start) < Micros(end) <= Micros(now) && Micros(end) - Micros(start) <= MAX_DAYS * DAY
  }

  datatype Generation = BadPeriod | NoContent | Nothing | Refused | Billed(id: Id)

  // `content`: the period's lines, or None when working them out fails.
  function Generate(rows: seq<Invoice>, org: string, start: Instant, end: Instant, now: Instant,
                    content: Option<seq<LineItems.Line>>, skipEmpty: bool): (seq<Invoice>, Generation) {
    if !Billable(start, end, now) then (rows, BadPeriod)
    else if content.None? then (rows, NoContent)
    else if skipEmpty && content.value == [] then (rows, Nothing)
    else
      var (after, c) := Create(rows, org, start, end, content.value);
      (after, if c.Overlapping? then Refused else Billed(c.id))
  }

  method GenerateInvoice(repo: InvoiceRepository, org: string, start: Instant, end: Instant, now: Instant,
                         content: Option<seq<LineItems.Line>>, skipEmpty: bool) returns (g: Generation)
    modifies repo
    ensures (repo.rows, g) == Generate(old(repo.rows), org, start, end, now, content, skipEmpty)
  {
    if Micros(end) <= Micros(start) || Micros(end) - Micros(start) > MAX_DAYS * DAY || Micros(end) > Micros(now) {
      return BadPeriod;
    }
    if content.None? {
      return NoContent;
    }
    if skipEmpty && content.value == [] {
      return Nothing;
    }
    var c := repo.CreateInvoice(org, start, end, content.value);
    if c.Overlapping? {
      return Refused;
    }
    return Billed(c.id);
  }

  // ------------------------------------------------------------------ settling

  // What the payment provider does with a charge.
  datatype Reply =
    | Accepted(provider: string, chargeId: Option<string>)
    | Declined(provider: string, error: Option<string>)
    | Raises

  // The provider in use: none can be had, one that only issues, or one that charges.
  datatype Setup = NotConfigured | ByHand(name: string) | Gateway(reply: Reply)

  datatype Attempt = Attempt(id: Id, accepted: bool, answered: bool)

  // The invoices, and every charge asked of a provider so far.
  datatype Ledger = Ledger(rows: seq<Invoice>, attempts: seq<Attempt>)

  function Update(l: Ledger, id: Id, r: Invoice): Ledger
    requires id < |l.rows|
  {
    l.(rows := l.rows[id := r])
  }

  // Settles a draft; the flag is false when the call raises.
  function Finalize(l: Ledger, id: Id, setup: Setup, now: int): (Ledger, bool) {
    if id >= |l.rows| then (l, false)
    else
      var r := l.rows[id];
      if r.status != Draft then (l, true)
      else if r.amount <= 0 then (Update(l, id, Marked(r, Paid, Some("none"), None, None, now)), true)
      else match setup
        case NotConfigured => (l, false)
        case ByHand(name) => (Update(l, id, Marked(r, Open, Some(name), None, None, now)), true)
        case Gateway(reply) =>
          var asked := l.(attempts := l.attempts + [Attempt(id, reply.Accepted?, !reply.Raises?)]);
          match reply
          case Accepted(provider, chargeId) => (Update(asked, id, Marked(r, Paid, Some(provider), chargeId, None, now)), true)
          case Declined(provider, error) => (Update(asked, id, Marked(r, Failed, Some(provider), None, error, now)), true)
          case Raises => (asked, false)
  }

  predicate IsSpace(c: char) {
    var n := c as int;
    || 9 <= n <= 13 || 28 <= n <= 32 || 0x2000 <= n <= 0x200A
    || n in {0x85, 0xA0, 0x1680, 0x2028, 0x2029, 0x202F, 0x205F, 0x3000}
  }

  function Strip(s: string): string
    decreases |s|
  {
    if s == "" then s
    else if IsSpace(s[0]) then Strip(s[1..])
    else if IsSpace(s[|s| - 1]) then Strip(s[..|s| - 1])
    else s
  }

  function Truncate(s: string): string { if |s| > 200 then s[..200] else s }

  // Staff record a payment made elsewhere; false when it is refused.
  function ManualPayment(l: Ledger, id: Id, reference: string, now: int): (Ledger, bool) {
    if id >= |l.rows| || l.rows[id].status !in {Open, Failed} || Strip(reference) == "" then (l, false)
    else (Update(l, id, Marked(l.rows[id], Paid, Some("manual"), Some(Truncate(Strip(reference))), None, now)), true)
  }

  // The provider keeps the record of what it was asked.
  class PaymentProvider {
    var attempts: seq<Attempt>

    constructor ()
      ensures attempts == []
    {
      attempts := [];
    }

    method Charge(id: Id, reply: Reply) returns (r: Reply)
      modifies this
      ensures r == reply && attempts == old(attempts) + [Attempt(id, reply.Accepted?, !reply.Raises?)]
    {
      attempts := attempts + [Attempt(id, reply.Accepted?, !reply.Raises?)];
      r := reply;
    }
  }

  method FinalizeInvoice(repo: InvoiceRepository, provider: PaymentProvider, id: Id, setup: Setup, now: int)
    returns (ok: bool)
    modifies repo, provider
    ensures (Ledger(repo.rows, provider.attempts), ok)
         == Finalize(Ledger(old(repo.rows), old(provider.attempts)), id, setup, now)
  {
    if id >= |repo.rows| {
      return false;
    }
    if repo.rows[id].status != Draft {
      return true;
    }
    if repo.rows[id].amount <= 0 {
      repo.MarkStatus(id, Paid, Some("none"), None, None, now);
      return true;
    }
    match setup {
      case NotConfigured =>
        return false;
      case ByHand(name) =>
        repo.MarkStatus(id, Open, Some(name), None, None, now);
        return true;
      case Gateway(reply) =>
        var result := provider.Charge(id, reply);
        match result {
          case Accepted(name, chargeId) =>
            repo.MarkStatus(id, Paid, Some(name), chargeId, None, now);
            return true;
          case Declined(name, error) =>
            repo.MarkStatus(id, Failed, Some(name), None, error, now);
            return true;
          case Raises =>
            return false;
        }
    }
  }

  method RecordManualPayment(repo: InvoiceRepository, id: Id, reference: string, now: int) returns (ok: bool)
    modifies repo
    ensures forall attempts ::
      (Ledger(repo.rows, attempts), ok) == ManualPayment(Ledger(old(repo.rows), attempts), id, reference, now)
  {
    if id >= |repo.rows| || repo.rows[id].status !in {Open, Failed} {
      return false;
    }
    var clean := Strip(reference);
    if clean == "" {
      return false;
    }
    repo.MarkStatus(id, Paid, Some("manual"), Some(if |clean| > 200 then clean[..200] else clean), None, now);
    return true;
  }
}
