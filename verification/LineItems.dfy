// What a period costs: lines for the usage, one rounding of the whole, the plan's included usage and its monthly fee.
// Money is in cents; quantities, prices and unrounded amounts are reals.
module LineItems {
  import opened Options

  datatype Usage = Usage(jobs: nat, compute: real, ownCompute: real, inputTokens: nat, outputTokens: nat,
                         verifications: nat, decisions: nat, receipts: nat)

  datatype Pricing = Pricing(gpuSecond: real, ownGpuSecond: Option<real>, inputToken: real, outputToken: real,
                             verification: real, decision: real, receipt: real, perJob: real)

  datatype Line = Line(description: string, quantity: real, unit: string, unitPrice: real, amount: int, exact: real)

  // ------------------------------------------------------------------ rounding

  // Whole cents, halves away from zero.
  function Cents(x: real): int { if x >= 0.0 then (x + 0.5).Floor else -((-x + 0.5).Floor) }

  // Cents is a nearest integer; of two it takes the one away from zero.
  lemma CentsIsNearest(x: real)
    ensures -0.5 <= Cents(x) as real - x <= 0.5
    ensures x >= 0.0 ==> Cents(x) >= 0 && Cents(x) as real - x > -0.5
    ensures Cents(-x) == -Cents(x)
    ensures x == x.Floor as real ==> Cents(x) == x.Floor
  {
  }

  // Hundredths, halves to even.
  function Hundredths(x: real): real {
    var t := x * 100.0;
    var f := t.Floor;
    (if t - f as real < 0.5 || (t - f as real == 0.5 && f % 2 == 0) then f else f + 1) as real / 100.0
  }

  lemma HundredthsIsNearest(x: real)
    ensures -1.0 <= 200.0 * (Hundredths(x) - x) <= 1.0
    ensures x >= 0.0 ==> Hundredths(x) >= 0.0
  {
  }

  // ------------------------------------------------------------------ lines

  function MakeLine(description: string, quantity: real, unit: string, unitPrice: real): Line {
    Line(description, quantity, unit, unitPrice, Cents(quantity * unitPrice), quantity * unitPrice)
  }

  function Min(a: real, b: real): real { if b < a then b else a }

  function Max(a: real, b: real): real { if b > a then b else a }

  // Seconds on the customer's own workers, held between nothing and all of it.
  function OwnPart(u: Usage): real { Min(Max(u.ownCompute, 0.0), u.compute) }

  predicate SplitByPlace(u: Usage, p: Pricing) {
    u.compute > 0.0 && OwnPart(u) > 0.0 && p.ownGpuSecond.Some? && p.ownGpuSecond.value != p.gpuSecond
  }

  function ComputeLines(u: Usage, p: Pricing): seq<Line> {
    if SplitByPlace(u, p) then
      (if u.compute - OwnPart(u) > 0.0
       then [MakeLine("Compute (shared pool)", Hundredths(u.compute - OwnPart(u)), "gpu_second", p.gpuSecond)] else [])
      + [MakeLine("Compute (your own workers)", Hundredths(OwnPart(u)), "gpu_second", p.ownGpuSecond.value)]
    else if u.compute > 0.0 then [MakeLine("Compute (measured job runtime)", Hundredths(u.compute), "gpu_second", p.gpuSecond)]
    else []
  }

  function CountLine(description: string, count: nat, unit: string, price: real): seq<Line> {
    if count > 0 then [MakeLine(description, count as real, unit, price)] else []
  }

  function LineItems(u: Usage, p: Pricing): seq<Line> {
    ComputeLines(u, p)
    + CountLine("LLM input tokens", u.inputTokens, "token", p.inputToken)
    + CountLine("LLM output tokens", u.outputTokens, "token", p.outputToken)
    + CountLine("Verification (replicated-execution checks run)", u.verifications, "verification", p.verification)
    + CountLine("Assurance decisions (policy evaluations run)", u.decisions, "decision", p.decision)
    + CountLine("Receipts issued (signed proof of execution)", u.receipts, "receipt", p.receipt)
    + (if p.perJob > 0.0 then CountLine("Per-job platform fee", u.jobs, "job", p.perJob) else [])
  }

  method BuildComputeLines(usage: Usage, pricing: Pricing) returns (items: seq<Line>)
    ensures items == ComputeLines(usage, pricing)
  {
    hide Hundredths, MakeLine;
    items := [];
    var compute := usage.compute;
    var own := Min(Max(usage.ownCompute, 0.0), compute);
    var ownRate := pricing.ownGpuSecond;
    if compute > 0.0 && own > 0.0 && ownRate.Some? && ownRate.value != pricing.gpuSecond {
      if compute - own > 0.0 {
        items := items + [MakeLine("Compute (shared pool)", Hundredths(compute - own), "gpu_second", pricing.gpuSecond)];
      }
      items := items + [MakeLine("Compute (your own workers)", Hundredths(own), "gpu_second", ownRate.value)];
    } else if compute > 0.0 {
      items := items + [MakeLine("Compute (measured job runtime)", Hundredths(compute), "gpu_second", pricing.gpuSecond)];
    }
  }

  method BuildLineItems(usage: Usage, pricing: Pricing) returns (items: seq<Line>)
    ensures items == LineItems(usage, pricing)
  {
    hide CountLine, ComputeLines;
    items := BuildComputeLines(usage, pricing);
    items := AddCount(items, "LLM input tokens", usage.inputTokens, "token", pricing.inputToken);
    items := AddCount(items, "LLM output tokens", usage.outputTokens, "token", pricing.outputToken);
    items := AddCount(items, "Verification (replicated-execution checks run)", usage.verifications,
                      "verification", pricing.verification);
    items := AddCount(items, "Assurance decisions (policy evaluations run)", usage.decisions, "decision", pricing.decision);
    items := AddCount(items, "Receipts issued (signed proof of execution)", usage.receipts, "receipt", pricing.receipt);
    if pricing.perJob > 0.0 {
      items := AddCount(items, "Per-job platform fee", usage.jobs, "job", pricing.perJob);
    }
  }

  // One more line, when there is something to count.
  method AddCount(items: seq<Line>, description: string, count: nat, unit: string, price: real) returns (more: seq<Line>)
    ensures more == items + CountLine(description, count, unit, price)
  {
    more := items;
    if count > 0 {
      more := more + [MakeLine(description, count as real, unit, price)];
    }
  }

  function Total(items: seq<Line>): int {
    if items == [] then 0 else Total(items[..|items| - 1]) + items[|items| - 1].amount
  }

  function ExactTotal(items: seq<Line>): real {
    if items == [] then 0.0 else ExactTotal(items[..|items| - 1]) + items[|items| - 1].exact
  }

  lemma {:induction false} TotalsAdd(a: seq<Line>, b: seq<Line>)
    ensures Total(a + b) == Total(a) + Total(b)
    ensures ExactTotal(a + b) == ExactTotal(a) + ExactTotal(b)
  {
    if b == [] {
      assert a + b == a;
    } else {
      assert (a + b)[..|a + b| - 1] == a + b[..|b| - 1];
      TotalsAdd(a, b[..|b| - 1]);
    }
  }

  lemma TotalsOfOne(x: Line)
    ensures Total([x]) == x.amount && ExactTotal([x]) == x.exact
  {
    assert [x][..0] == [];
  }

  predicate Priced(p: Pricing) {
    && p.gpuSecond >= 0.0 && (p.ownGpuSecond.Some? ==> p.ownGpuSecond.value >= 0.0) && p.inputToken >= 0.0
    && p.outputToken >= 0.0 && p.verification >= 0.0 && p.decision >= 0.0 && p.receipt >= 0.0
  }

  predicate NoCredit(items: seq<Line>) {
    forall i :: 0 <= i < |items| ==> items[i].exact >= 0.0 && items[i].amount == Cents(items[i].exact)
  }

  lemma LineCosts(description: string, quantity: real, unit: string, price: real)
    requires price >= 0.0 && quantity >= 0.0
    ensures NoCredit([MakeLine(description, quantity, unit, price)])
  {
    assert quantity * price >= 0.0;
  }

  lemma CountLineCosts(description: string, count: nat, unit: string, price: real)
    requires price >= 0.0
    ensures NoCredit(CountLine(description, count, unit, price))
  {
    if count > 0 { LineCosts(description, count as real, unit, price); }
  }

  lemma ComputeCosts(u: Usage, p: Pricing)
    requires Priced(p)
    ensures NoCredit(ComputeLines(u, p))
  {
    hide Cents, MakeLine, Hundredths;
    var own := OwnPart(u);
    HundredthsIsNearest(own);
    HundredthsIsNearest(u.compute);
    HundredthsIsNearest(u.compute - own);
    if u.compute > 0.0 {
      LineCosts("Compute (measured job runtime)", Hundredths(u.compute), "gpu_second", p.gpuSecond);
      if SplitByPlace(u, p) {
        LineCosts("Compute (your own workers)", Hundredths(own), "gpu_second", p.ownGpuSecond.value);
        LineCosts("Compute (shared pool)", Hundredths(u.compute - own), "gpu_second", p.gpuSecond);
      }
    }
  }

  lemma NoCreditTogether(a: seq<Line>, b: seq<Line>)
    requires NoCredit(a) && NoCredit(b)
    ensures NoCredit(a + b)
  {
    hide Cents;
  }

  // With prices that are not negative no usage line is a credit.
  lemma UsageNeverCredits(u: Usage, p: Pricing)
    requires Priced(p)
    ensures NoCredit(LineItems(u, p))
  {
    hide CountLine, ComputeLines, NoCredit;
    ComputeCosts(u, p);
    var inputs := CountLine("LLM input tokens", u.inputTokens, "token", p.inputToken);
    var outputs := CountLine("LLM output tokens", u.outputTokens, "token", p.outputToken);
    var checks := CountLine("Verification (replicated-execution checks run)", u.verifications, "verification", p.verification);
    var decisions := CountLine("Assurance decisions (policy evaluations run)", u.decisions, "decision", p.decision);
    var receipts := CountLine("Receipts issued (signed proof of execution)", u.receipts, "receipt", p.receipt);
    var jobs := if p.perJob > 0.0 then CountLine("Per-job platform fee", u.jobs, "job", p.perJob) else [];
    assert LineItems(u, p) == ComputeLines(u, p) + inputs + outputs + checks + decisions + receipts + jobs;
    CountLineCosts("LLM input tokens", u.inputTokens, "token", p.inputToken);
    CountLineCosts("LLM output tokens", u.outputTokens, "token", p.outputToken);
    CountLineCosts("Verification (replicated-execution checks run)", u.verifications, "verification", p.verification);
    CountLineCosts("Assurance decisions (policy evaluations run)", u.decisions, "decision", p.decision);
    CountLineCosts("Receipts issued (signed proof of execution)", u.receipts, "receipt", p.receipt);
    if p.perJob > 0.0 { CountLineCosts("Per-job platform fee", u.jobs, "job", p.perJob); }
    hide *;
    NoCreditTogether(ComputeLines(u, p), inputs);
    NoCreditTogether(ComputeLines(u, p) + inputs, outputs);
    NoCreditTogether(ComputeLines(u, p) + inputs + outputs, checks);
    NoCreditTogether(ComputeLines(u, p) + inputs + outputs + checks, decisions);
    NoCreditTogether(ComputeLines(u, p) + inputs + outputs + checks + decisions, receipts);
    if p.perJob > 0.0 {
      NoCreditTogether(ComputeLines(u, p) + inputs + outputs + checks + decisions + receipts, jobs);
    } else {
      assert LineItems(u, p) == ComputeLines(u, p) + inputs + outputs + checks + decisions + receipts;
    }
  }

  // There is a line exactly when something billable was used.
  lemma EmptyMeansUnused(u: Usage, p: Pricing)
    ensures LineItems(u, p) == [] <==>
      && u.compute <= 0.0 && u.inputTokens == 0 && u.outputTokens == 0 && u.verifications == 0 && u.decisions == 0
      && u.receipts == 0 && (u.jobs == 0 || p.perJob <= 0.0)
  {
  }

  // What the measured seconds cost before any rounding: each at the rate of the place it ran.
  function ComputeCost(u: Usage, p: Pricing): real {
    var ownRate := if p.ownGpuSecond.Some? then p.ownGpuSecond.value else p.gpuSecond;
    if u.compute <= 0.0 then 0.0 else CostAt(u.compute - OwnPart(u), p.gpuSecond) + CostAt(OwnPart(u), ownRate)
  }

  // The compute lines charge each second once, at its own rate, up to half a hundredth of a second per line.
  lemma ComputeChargedByPlace(u: Usage, p: Pricing)
    requires Priced(p)
    ensures var slack := p.gpuSecond + if SplitByPlace(u, p) then p.ownGpuSecond.value else 0.0;
      -slack <= 200.0 * (ExactTotal(ComputeLines(u, p)) - ComputeCost(u, p)) <= slack
  {
    hide Hundredths, Cents, MakeLine, ExactTotal;
    if SplitByPlace(u, p) {
      SplitCharged(u, p);
    } else if u.compute > 0.0 {
      var line := OneLine("Compute (measured job runtime)", u.compute, p.gpuSecond);
      SameRate(u.compute, OwnPart(u), p.gpuSecond);
    } else {
      assert ExactTotal([]) == 0.0 by { TotalsAdd([], []); }
    }
  }

  lemma SplitCharged(u: Usage, p: Pricing)
    requires Priced(p) && SplitByPlace(u, p)
    ensures var slack := p.gpuSecond + p.ownGpuSecond.value;
      -slack <= 200.0 * (ExactTotal(ComputeLines(u, p)) - ComputeCost(u, p)) <= slack
  {
    hide Hundredths, Cents, MakeLine, ExactTotal;
    var own, shared := OwnPart(u), u.compute - OwnPart(u);
    var ownLine := OneLine("Compute (your own workers)", own, p.ownGpuSecond.value);
    var cost, atShared, atOwn := ComputeCost(u, p), CostAt(shared, p.gpuSecond), CostAt(own, p.ownGpuSecond.value);
    assert cost == atShared + atOwn;
    if shared > 0.0 {
      var sharedLine := OneLine("Compute (shared pool)", shared, p.gpuSecond);
      assert ComputeLines(u, p) == [sharedLine] + [ownLine];
      TotalsAdd([sharedLine], [ownLine]);
      hide *;
    } else {
      assert ComputeLines(u, p) == [ownLine] && atShared == 0.0 by { assert shared == 0.0; }
      hide *;
    }
  }

  function CostAt(seconds: real, rate: real): real { seconds * rate }

  lemma OneLine(description: string, seconds: real, rate: real) returns (line: Line)
    requires rate >= 0.0
    ensures line == MakeLine(description, Hundredths(seconds), "gpu_second", rate)
    ensures -rate <= 200.0 * (ExactTotal([line]) - CostAt(seconds, rate)) <= rate
  {
    line := MakeLine(description, Hundredths(seconds), "gpu_second", rate);
    assert line.exact == CostAt(Hundredths(seconds), rate);
    hide *;
    HundredthsIsNearest(seconds);
    Scaled(Hundredths(seconds), seconds, rate);
    TotalsOfOne(line);
  }

  lemma Scaled(a: real, b: real, rate: real)
    requires -1.0 <= 200.0 * (a - b) <= 1.0 && rate >= 0.0
    ensures -rate <= 200.0 * (CostAt(a, rate) - CostAt(b, rate)) <= rate
  {
    var d := a - b;
    Distributes(b, d, rate);
    NotBelow(1.0 + 200.0 * d, rate);
    NotBelow(1.0 - 200.0 * d, rate);
    assert (1.0 + 200.0 * d) * rate == rate + 200.0 * (d * rate);
    assert (1.0 - 200.0 * d) * rate == rate - 200.0 * (d * rate);
  }

  lemma Distributes(x: real, y: real, rate: real)
    ensures (x + y) * rate == x * rate + y * rate
  {
  }

  lemma NotBelow(x: real, rate: real)
    requires x >= 0.0 && rate >= 0.0
    ensures x * rate >= 0.0
  {
  }

  lemma SameRate(all: real, own: real, rate: real)
    ensures CostAt(all - own, rate) + CostAt(own, rate) == CostAt(all, rate)
  {
  }

  lemma CountCharged(description: string, count: nat, unit: string, price: real)
    ensures ExactTotal(CountLine(description, count, unit, price)) == CostAt(count as real, price)
  {
    if count > 0 { TotalsOfOne(MakeLine(description, count as real, unit, price)); }
  }

  // What a count at a price comes to; a job fee that is not positive is not charged.
  function CountedCost(u: Usage, p: Pricing): real {
    CostAt(u.inputTokens as real, p.inputToken) + CostAt(u.outputTokens as real, p.outputToken)
    + CostAt(u.verifications as real, p.verification) + CostAt(u.decisions as real, p.decision)
    + CostAt(u.receipts as real, p.receipt) + (if p.perJob > 0.0 then CostAt(u.jobs as real, p.perJob) else 0.0)
  }

  // The lines together charge everything used at its own price, and nothing else.
  lemma EverythingCharged(u: Usage, p: Pricing)
    ensures ExactTotal(LineItems(u, p)) == ExactTotal(ComputeLines(u, p)) + CountedCost(u, p)
  {
    hide ExactTotal, ComputeLines, CountLine, CostAt;
    var compute := ComputeLines(u, p);
    var inputs := CountLine("LLM input tokens", u.inputTokens, "token", p.inputToken);
    var outputs := CountLine("LLM output tokens", u.outputTokens, "token", p.outputToken);
    var checks := CountLine("Verification (replicated-execution checks run)", u.verifications, "verification", p.verification);
    var decisions := CountLine("Assurance decisions (policy evaluations run)", u.decisions, "decision", p.decision);
    var receipts := CountLine("Receipts issued (signed proof of execution)", u.receipts, "receipt", p.receipt);
    var jobs := if p.perJob > 0.0 then CountLine("Per-job platform fee", u.jobs, "job", p.perJob) else [];
    assert LineItems(u, p) == compute + inputs + outputs + checks + decisions + receipts + jobs;
    CountCharged("LLM input tokens", u.inputTokens, "token", p.inputToken);
    CountCharged("LLM output tokens", u.outputTokens, "token", p.outputToken);
    CountCharged("Verification (replicated-execution checks run)", u.verifications, "verification", p.verification);
    CountCharged("Assurance decisions (policy evaluations run)", u.decisions, "decision", p.decision);
    CountCharged("Receipts issued (signed proof of execution)", u.receipts, "receipt", p.receipt);
    if p.perJob > 0.0 { CountCharged("Per-job platform fee", u.jobs, "job", p.perJob); }
    hide LineItems;
    TotalsAdd(compute, inputs);
    TotalsAdd(compute + inputs, outputs);
    TotalsAdd(compute + inputs + outputs, checks);
    TotalsAdd(compute + inputs + outputs + checks, decisions);
    TotalsAdd(compute + inputs + outputs + checks + decisions, receipts);
    TotalsAdd(compute + inputs + outputs + checks + decisions + receipts, jobs);
    NothingCosts();
  }

  lemma NothingCosts()
    ensures ExactTotal([]) == 0.0
  {
  }

  // ------------------------------------------------------------------ the whole rounded once

  function WithRoundingAdjustment(items: seq<Line>): seq<Line> {
    if items == [] then items
    else
      var diff := Cents(ExactTotal(items)) - Total(items);
      if diff == 0 then items
      else items + [Line("Rounding adjustment", 1.0, "adjustment", 0.0, diff, diff as real)]
  }

  function Abs(n: int): nat { if n < 0 then -n else n }

  // The lines add up to the exact cost rounded once, and the usage lines stay as they are.
  lemma RoundedOnce(items: seq<Line>)
    ensures Total(WithRoundingAdjustment(items)) == Cents(ExactTotal(items))
    ensures items <= WithRoundingAdjustment(items)
  {
    var diff := Cents(ExactTotal(items)) - Total(items);
    var extra := Line("Rounding adjustment", 1.0, "adjustment", 0.0, diff, diff as real);
    TotalsAdd(items, [extra]);
    TotalsOfOne(extra);
    CentsIsNearest(ExactTotal(items));
    hide Cents;
  }

  // The adjustment is small: for n lines at most half of n cents.
  lemma AdjustmentIsSmall(items: seq<Line>)
    requires NoCredit(items)
    ensures 2 * Abs(Cents(ExactTotal(items)) - Total(items)) <= |items|
  {
    LinesRoundClosely(items);
    CentsIsNearest(ExactTotal(items));
    if items != [] {
      HalfBound(Cents(ExactTotal(items)), Total(items), ExactTotal(items), |items|);
    }
    hide Cents;
  }

  lemma HalfBound(rounded: int, lines: int, x: real, n: nat)
    requires -0.5 < rounded as real - x <= 0.5
    requires -(n as real) / 2.0 < lines as real - x <= n as real / 2.0
    ensures 2 * Abs(rounded - lines) <= n
  {
    var twice := 2 * (rounded - lines);
    assert twice as real == 2.0 * ((rounded as real - x) - (lines as real - x));
    assert -(n as real) - 1.0 < twice as real < n as real + 1.0;
    assert (0 - n) - 1 < twice < n + 1;
  }

  lemma {:induction false} LinesRoundClosely(items: seq<Line>)
    requires NoCredit(items)
    ensures ExactTotal(items) >= 0.0
    ensures var n := |items| as real;
      -n / 2.0 <= Total(items) as real - ExactTotal(items) <= n / 2.0
      && (items != [] ==> -n / 2.0 < Total(items) as real - ExactTotal(items))
  {
    if items != [] {
      LinesRoundClosely(items[..|items| - 1]);
      CentsIsNearest(items[|items| - 1].exact);
    }
  }

  function HalfCents(n: nat): seq<Line> {
    if n == 0 then [] else HalfCents(n - 1) + [HalfCent()]
  }

  function HalfCent(): Line { MakeLine("LLM input tokens", 1.0, "token", 0.5) }

  // The bound is met: n half-cent lines round to n cents but cost half of that.
  lemma BoundIsTight(n: nat)
    requires n % 2 == 0
    ensures NoCredit(HalfCents(n)) && |HalfCents(n)| == n
    ensures 2 * Abs(Cents(ExactTotal(HalfCents(n))) - Total(HalfCents(n))) == n
  {
    HalfCentsTotal(n);
    hide HalfCents, NoCredit, Total, ExactTotal, HalfCent;
    CentsIsNearest(ExactTotal(HalfCents(n)));
    hide Cents;
  }

  lemma {:induction false} HalfCentsTotal(n: nat)
    ensures NoCredit(HalfCents(n)) && |HalfCents(n)| == n
    ensures Total(HalfCents(n)) == n && ExactTotal(HalfCents(n)) * 2.0 == n as real
  {
    if n > 0 {
      var line := HalfCent();
      HalfCentsTotal(n - 1);
      hide Cents, NoCredit, HalfCent;
      HalfCentIs();
      TotalsAdd(HalfCents(n - 1), [line]);
      TotalsOfOne(line);
      NoCreditTogether(HalfCents(n - 1), [line]);
    }
  }

  lemma HalfCentIs()
    ensures HalfCent().amount == 1 && HalfCent().exact == 0.5 && NoCredit([HalfCent()])
  {
  }

  // ------------------------------------------------------------------ the plan

  function WithIncludedUsage(items: seq<Line>, included: int): seq<Line> {
    var credit := if included < Total(items) then included else Total(items);
    if credit <= 0 then items
    else items + [Line("Included usage", 1.0, "credit", 0.0, -credit, -credit as real)]
  }

  function WithPlanFee(items: seq<Line>, fee: int, name: string): seq<Line> {
    if fee <= 0 then items
    else [Line(name, 1.0, "month", fee as real, fee, fee as real)] + items
  }

  datatype Terms = Terms(included: int, fee: int, name: string)

  // The lines of an invoice, or of a preview of one.
  function PeriodLines(u: Usage, p: Pricing, t: Terms): seq<Line> {
    WithPlanFee(WithIncludedUsage(WithRoundingAdjustment(LineItems(u, p)), t.included), t.fee, t.name)
  }

  function AtLeastZero(n: int): int { if n < 0 then 0 else n }

  // What is to be paid: the usage, rounded once, less the included usage but not below zero, plus the fee in full.
  // A negative allowance or fee counts as none.
  lemma NetBill(u: Usage, p: Pricing, t: Terms)
    requires Priced(p)
    ensures Total(PeriodLines(u, p, t)) ==
      AtLeastZero(Cents(ExactTotal(LineItems(u, p))) - AtLeastZero(t.included)) + AtLeastZero(t.fee)
  {
    var items := LineItems(u, p);
    UsageNeverCredits(u, p);
    LinesRoundClosely(items);
    CentsIsNearest(ExactTotal(items));
    RoundedOnce(items);
    BillTotal(WithRoundingAdjustment(items), t);
  }

  // For lines of any sign.
  lemma BillTotal(items: seq<Line>, t: Terms)
    ensures var u := Total(items); var least := if t.included < u then t.included else u;
      Total(WithPlanFee(WithIncludedUsage(items, t.included), t.fee, t.name)) == u - AtLeastZero(least) + AtLeastZero(t.fee)
  {
    var usage := WithIncludedUsage(items, t.included);
    var least := if t.included < Total(items) then t.included else Total(items);
    var line := Line("Included usage", 1.0, "credit", 0.0, -least, -least as real);
    TotalsAdd(items, [line]);
    TotalsOfOne(line);
    var fee := Line(t.name, 1.0, "month", t.fee as real, t.fee, t.fee as real);
    TotalsAdd([fee], usage);
    TotalsOfOne(fee);
  }

  // A line is made for the period exactly when something was used or a fee is due.
  lemma NothingToBillIff(u: Usage, p: Pricing, t: Terms)
    ensures PeriodLines(u, p, t) == [] <==> LineItems(u, p) == [] && t.fee <= 0
  {
    RoundedOnce(LineItems(u, p));
  }
}
