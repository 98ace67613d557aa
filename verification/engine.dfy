/** The v2 payment engine: converts the purchase to sterling, builds the
    candidate list, solves the allocation programme, and does the
    end-of-month accounting for each card used. */
module Engine {
  import opened Common
  import opened Cards
  import opened Capacity
  import opened Benefit
  import opened Candidates
  import opened LinearProgram
  import opened Selection

  /** Allocations are rounded to pennies and dropped when the rounded amount
      is under a penny, that is when the exact amount is under half a penny. */
  const MinEntry: real := 0.005

  /** One line of the funding plan. */
  datatype Entry = Entry(
    cardId: string,
    cardName: string,
    tier: int,
    amountGbp: real,
    cashback: real,
    rewardPoints: int,
    rewardType: string,
    interestLost: real,
    fxCost: real,
    netBenefit: real,
    pendingReserved: real,
    badge: string)

  datatype Decision = PassThrough | CreditOptimised | FallbackInternational | Split

  /** Totals of the plan's effect on cash at the end of the month. */
  datatype Impact = Impact(totalCashback: real, totalInterestLost: real, totalFxCost: real, netBenefit: real)

  datatype Plan = Plan(
    amountOriginal: real,
    currency: string,
    amountGbp: real,
    category: string,
    decision: Decision,
    allocation: seq<Entry>,
    impact: Impact,
    weightedSavingsAnnual: real,
    weightedSavingsMonthly: real,
    remainingMonthlyInterest: real,
    candidates: seq<Candidate>,
    solution: seq<real>)

  datatype EngineError = NoFundingSource | SolverInfeasible

  datatype Outcome = Planned(plan: Plan) | Failed(error: EngineError) {
    /** The allocation reported to the caller; a failure reports none. */
    function Allocation(): seq<Entry> {
      if Planned? then plan.allocation else []
    }
  }

  /** Python's int() on a float: truncation toward zero. */
  function Truncate(v: real): (n: int)
    ensures v >= 0.0 ==> n >= 0 && n as real <= v < n as real + 1.0
    ensures v < 0.0 ==> n <= 0 && n as real - 1.0 < v <= n as real
  {
    if v >= 0.0 then v.Floor else -((-v).Floor)
  }

  /** Sterling value of the purchase; an unknown currency counts at par. */
  function AmountGbp(txn: Transaction, fxToGbp: map<string, real>): (a: real)
    ensures txn.currency.GetOr(DefaultCurrency) in fxToGbp ==>
              a == txn.amount * fxToGbp[txn.currency.GetOr(DefaultCurrency)]
    ensures txn.currency.GetOr(DefaultCurrency) !in fxToGbp ==> a == txn.amount
  {
    var currency := txn.currency.GetOr(DefaultCurrency);
    txn.amount * (if currency in fxToGbp then fxToGbp[currency] else 1.0)
  }

  /** The sterling rates the engine ships with. */
  const FxToGbp: map<string, real> :=
    map["GBP" := 1.0, "USD" := 0.7912, "EUR" := 0.8521, "INR" := 0.00951, "AUD" := 0.5080]

  /** With the shipped table, a sterling purchase (or one with no currency)
      is its own sterling value, and so is one in a currency the table lacks. */
  lemma SterlingAtPar(txn: Transaction)
    requires txn.currency.GetOr(DefaultCurrency) == "GBP" || txn.currency.GetOr(DefaultCurrency) !in FxToGbp
    ensures AmountGbp(txn, FxToGbp) == txn.amount
  {
  }

  /** Conversion is one rate per currency: the sterling value of two
      purchases in the same currency is the sum of their sterling values,
      and it keeps their order when the rate is not negative. */
  lemma AmountGbpLinear(txn: Transaction, fxToGbp: map<string, real>, a: real, b: real)
    ensures AmountGbp(txn.(amount := a + b), fxToGbp)
         == AmountGbp(txn.(amount := a), fxToGbp) + AmountGbp(txn.(amount := b), fxToGbp)
    ensures (forall c :: c in fxToGbp ==> fxToGbp[c] >= 0.0) && a <= b ==>
              AmountGbp(txn.(amount := a), fxToGbp) <= AmountGbp(txn.(amount := b), fxToGbp)
  {
    var currency := txn.currency.GetOr(DefaultCurrency);
    var rate := if currency in fxToGbp then fxToGbp[currency] else 1.0;
    var x, y, z := AmountGbp(txn.(amount := a), fxToGbp), AmountGbp(txn.(amount := b), fxToGbp),
                   AmountGbp(txn.(amount := a + b), fxToGbp);
    ScaledBy(txn, fxToGbp, a, rate);
    ScaledBy(txn, fxToGbp, b, rate);
    ScaledBy(txn, fxToGbp, a + b, rate);
    ScaleAdds(a, b, rate, x, y, z);
    if (forall c :: c in fxToGbp ==> fxToGbp[c] >= 0.0) && a <= b {
      ScaleKeepsOrder(a, b, rate, x, y);
    }
  }

  /** The sterling value of `v` in the purchase's currency is `v` times its rate. */
  lemma ScaledBy(txn: Transaction, fxToGbp: map<string, real>, v: real, rate: real)
    requires rate == var c := txn.currency.GetOr(DefaultCurrency); if c in fxToGbp then fxToGbp[c] else 1.0
    ensures AmountGbp(txn.(amount := v), fxToGbp) == v * rate
  {
  }

  lemma ScaleAdds(a: real, b: real, rate: real, x: real, y: real, z: real)
    requires x == a * rate && y == b * rate && z == (a + b) * rate
    ensures z == x + y
  {
  }

  lemma ScaleKeepsOrder(a: real, b: real, rate: real, x: real, y: real)
    requires a <= b && rate >= 0.0 && x == a * rate && y == b * rate
    ensures x <= y
  {
    var d := b - a;
    assert d * rate >= 0.0;
    assert b * rate == a * rate + d * rate;
  }

  /** The accounting for `amt` pounds routed through a candidate.  A credit
      card earns its category cashback (and points, when it has a points
      table) and costs nothing now; a debit account loses a month of savings
      interest; an international card pays its spread and flat fee. */
  function MakeEntry(c: Candidate, amt: real, category: string): (e: Entry)
    ensures e.cardId == c.slot.id && e.tier == Tier(c.slot) && e.amountGbp == amt
    ensures e.netBenefit == amt * c.rate && e.pendingReserved == c.slot.pendingDebits
    ensures e.tier == 1 ==> e.interestLost == 0.0 && e.fxCost == 0.0
    ensures e.tier == 1 ==> e.cashback == amt * CategoryRate(c.slot.kind.cashbackRates, category)
    ensures e.tier == 2 ==> e.cashback == 0.0 && e.fxCost == 0.0
    ensures e.tier == 2 ==> e.interestLost == amt * c.slot.kind.savingsRateMonthly
    ensures e.tier == 3 ==> e.cashback == 0.0 && e.interestLost == 0.0
    ensures e.tier == 3 ==> e.fxCost == amt * c.slot.kind.fxSpreadRate + c.slot.kind.transferFeeFlat
    ensures e.tier != 1 ==> e.rewardPoints == 0 && e.rewardType == DefaultRewardType
    ensures e.cardName == c.slot.name && e.badge == (if c.slot.kind.CreditSlot? then c.slot.kind.badge else "")
    ensures c.slot.kind.CreditSlot? ==>
              var points := c.slot.kind.pointsPerPound;
              && e.rewardPoints == (if |points| > 0 then Truncate(amt * CategoryRate(points, category)) else 0)
              && e.rewardType == (if |points| > 0 then c.slot.kind.rewardType else DefaultRewardType)
  {
    var s := c.slot;
    match s.kind
    case CreditSlot(_, _, rates, _, _, points, rewardType, badge) =>
      var hasPoints := |points| > 0;
      Entry(s.id, s.name, 1, amt, amt * CategoryRate(rates, category),
            if hasPoints then Truncate(amt * CategoryRate(points, category)) else 0,
            if hasPoints then rewardType else DefaultRewardType,
            0.0, 0.0, amt * c.rate, s.pendingDebits, badge)
    case DebitSlot(_, monthly, _) =>
      Entry(s.id, s.name, 2, amt, 0.0, 0, DefaultRewardType, amt * monthly, 0.0, amt * c.rate,
            s.pendingDebits, "")
    case IntlSlot(spread, flat) =>
      Entry(s.id, s.name, 3, amt, 0.0, 0, DefaultRewardType, 0.0, amt * spread + flat, amt * c.rate,
            s.pendingDebits, "")
  }

  /** The rate the solver used and the accounting agree: a debit entry's
      benefit is minus its lost interest; an international entry that carries
      the whole purchase (at least one pound) has benefit minus its FX cost;
      a card paid in full is worth at least its cashback. */
  lemma EntryAgreesWithRate(s: Slot, amt: real, ctx: Context)
    requires amt >= 0.0
    ensures var e := MakeEntry(Rated(s, ctx), amt, ctx.category);
            && (e.tier == 2 ==> e.netBenefit == -e.interestLost)
            && (e.tier == 3 && amt == ctx.spend && amt >= 1.0 ==> e.netBenefit == -e.fxCost)
            && ((e.tier == 1 && ctx.paysInFull && ctx.primarySavingsMonthly >= 0.0 && s.kind.graceDays >= 0.0)
                  ==> e.netBenefit >= e.cashback)
  {
    var c := Rated(s, ctx);
    var e := MakeEntry(c, amt, ctx.category);
    if e.tier == 1 && ctx.paysInFull && ctx.primarySavingsMonthly >= 0.0 && s.kind.graceDays >= 0.0 {
      var cb := CategoryRate(s.kind.cashbackRates, ctx.category);
      var g := ctx.primarySavingsMonthly * (s.kind.graceDays / 30.0);
      assert c.rate == cb + g && g >= 0.0;
      assert amt * c.rate == amt * cb + amt * g;
      assert amt * g >= 0.0;
    }
    if e.tier == 3 && amt == ctx.spend && amt >= 1.0 {
      assert Max(ctx.spend, 1.0) == amt;
    }
  }

  /** Well-formed plan lines: a known tier, and no cashback on debit lines. */
  predicate WellFormed(entries: seq<Entry>) {
    forall i :: 0 <= i < |entries| ==>
      1 <= entries[i].tier <= 3 && (entries[i].tier == 2 ==> entries[i].cashback == 0.0)
  }

  function AmountsOf(entries: seq<Entry>): (r: seq<real>)
    ensures |r| == |entries|
    ensures forall i :: 0 <= i < |r| ==> r[i] == entries[i].amountGbp
  {
    if |entries| == 0 then [] else [entries[0].amountGbp] + AmountsOf(entries[1..])
  }

  /** Marks the slot amounts that survive rounding to pennies. */
  function Surviving(x: seq<real>): (m: seq<bool>)
    ensures |m| == |x| && forall i :: 0 <= i < |x| ==> m[i] == (x[i] >= MinEntry)
  {
    seq(|x|, i requires 0 <= i < |x| => x[i] >= MinEntry)
  }

  /** One plan line for each slot given at least half a penny, in slot order. */
  function BuildEntries(cands: seq<Candidate>, x: seq<real>, category: string): (r: seq<Entry>)
    requires |x| == |cands|
    ensures LinesFor(cands, x, category, r)
  {
    if |x| == 0 then []
    else
      var rest := BuildEntries(cands[1..], x[1..], category);
      LinesStep(cands, x, category, rest);
      if x[0] >= MinEntry then [MakeEntry(cands[0], x[0], category)] + rest else rest
  }

  /** The plan lines are well formed, each carries at least half a penny, and
      they are exactly the lines of the slots given at least half a penny. */
  lemma LinesMembership(cands: seq<Candidate>, x: seq<real>, category: string)
    requires |x| == |cands|
    ensures var r := BuildEntries(cands, x, category);
            && |r| <= |cands| && WellFormed(r)
            && (forall e :: e in r ==> e.amountGbp >= MinEntry)
            && (forall i :: 0 <= i < |x| && x[i] >= MinEntry ==> MakeEntry(cands[i], x[i], category) in r)
            && (forall e :: e in r ==>
                  exists i :: 0 <= i < |x| && x[i] >= MinEntry && e == MakeEntry(cands[i], x[i], category))
  {
    var r, ks := BuildEntries(cands, x, category), Positions(Surviving(x));
    forall i | 0 <= i < |x| && x[i] >= MinEntry
      ensures MakeEntry(cands[i], x[i], category) in r
    {
      var j :| 0 <= j < |ks| && ks[j] == i;
      assert r[j] == MakeEntry(cands[i], x[i], category);
    }
    forall e | e in r
      ensures exists i :: 0 <= i < |x| && x[i] >= MinEntry && e == MakeEntry(cands[i], x[i], category)
    {
      var j :| 0 <= j < |r| && r[j] == e;
      assert e == MakeEntry(cands[ks[j]], x[ks[j]], category);
    }
  }

  /** `r` holds, in order, the line for each slot given at least half a penny. */
  predicate LinesFor(cands: seq<Candidate>, x: seq<real>, category: string, r: seq<Entry>)
    requires |x| == |cands|
  {
    LinesAt(cands, x, Surviving(x), category, r)
  }

  /** `r` holds, in order, the line for each marked slot. */
  predicate LinesAt(cands: seq<Candidate>, x: seq<real>, marks: seq<bool>, category: string, r: seq<Entry>)
    requires |x| == |cands| == |marks|
  {
    var ks := Positions(marks);
    |r| == |ks| && forall j :: 0 <= j < |r| ==> r[j] == MakeEntry(cands[ks[j]], x[ks[j]], category)
  }

  lemma LinesStep(cands: seq<Candidate>, x: seq<real>, category: string, rest: seq<Entry>)
    requires |x| == |cands| > 0 && LinesFor(cands[1..], x[1..], category, rest)
    ensures LinesFor(cands, x, category,
                     if x[0] >= MinEntry then [MakeEntry(cands[0], x[0], category)] + rest else rest)
  {
    assert Surviving(x)[1..] == Surviving(x[1..]);
    LinesPick(cands, x, Surviving(x), category, rest);
  }

  lemma LinesPick(cands: seq<Candidate>, x: seq<real>, marks: seq<bool>, category: string, rest: seq<Entry>)
    requires |x| == |cands| == |marks| > 0 && LinesAt(cands[1..], x[1..], marks[1..], category, rest)
    ensures LinesAt(cands, x, marks, category,
                    if marks[0] then [MakeEntry(cands[0], x[0], category)] + rest else rest)
  {
    var ks, tail := Positions(marks), Positions(marks[1..]);
    var n := if marks[0] then 1 else 0;
    var head := if marks[0] then [MakeEntry(cands[0], x[0], category)] else [];
    var shifted := Successors(tail);
    var r := head + rest;
    assert ks == (if marks[0] then [0] else []) + shifted;
    assert |head| == n && |ks| == n + |tail|;
    forall j | n <= j < |r|
      ensures r[j] == MakeEntry(cands[ks[j]], x[ks[j]], category)
    {
      var k := tail[j - n];
      assert r[j] == rest[j - n];
      assert ks[j] == shifted[j - n] == k + 1;
      assert cands[1..][k] == cands[k + 1] && x[1..][k] == x[k + 1];
    }
    assert r == (if marks[0] then [MakeEntry(cands[0], x[0], category)] + rest else rest);
  }

  /** Dropping the slots below half a penny loses less than half a penny
      each: the lines account for the allocation up to that shortfall. */
  lemma {:induction false} Shortfall(cands: seq<Candidate>, x: seq<real>, category: string)
    requires |x| == |cands|
    requires forall i :: 0 <= i < |x| ==> x[i] >= 0.0
    ensures var r := BuildEntries(cands, x, category);
            0.0 <= Sum(x) - Sum(AmountsOf(r)) <= MinEntry * (|x| - |r|) as real
  {
    if |x| > 0 {
      var r, rest := BuildEntries(cands, x, category), BuildEntries(cands[1..], x[1..], category);
      Shortfall(cands[1..], x[1..], category);
      if x[0] >= MinEntry {
        assert AmountsOf(r) == [x[0]] + AmountsOf(rest);
      }
    }
  }

  function Cashbacks(entries: seq<Entry>): seq<real> {
    if |entries| == 0 then [] else [entries[0].cashback] + Cashbacks(entries[1..])
  }

  function InterestsLost(entries: seq<Entry>): seq<real> {
    if |entries| == 0 then [] else [entries[0].interestLost] + InterestsLost(entries[1..])
  }

  function FxCosts(entries: seq<Entry>): seq<real> {
    if |entries| == 0 then [] else [entries[0].fxCost] + FxCosts(entries[1..])
  }

  /** Each line's own effect on end-of-month cash. */
  function LineNets(entries: seq<Entry>): seq<real> {
    if |entries| == 0 then []
    else [entries[0].cashback - entries[0].interestLost - entries[0].fxCost] + LineNets(entries[1..])
  }

  /** Cashback earned less savings interest lost less FX paid. */
  function Totals(entries: seq<Entry>): (t: Impact)
    ensures t.netBenefit == t.totalCashback - t.totalInterestLost - t.totalFxCost
    ensures t.netBenefit == Sum(LineNets(entries))
  {
    NetIsSumOfLines(entries);
    var cb, il, fx := Sum(Cashbacks(entries)), Sum(InterestsLost(entries)), Sum(FxCosts(entries));
    Impact(cb, il, fx, cb - il - fx)
  }

  lemma {:induction false} NetIsSumOfLines(entries: seq<Entry>)
    ensures Sum(Cashbacks(entries)) - Sum(InterestsLost(entries)) - Sum(FxCosts(entries))
         == Sum(LineNets(entries))
  {
    if |entries| > 0 {
      NetIsSumOfLines(entries[1..]);
    }
  }

  predicate UsesInternational(entries: seq<Entry>) {
    exists i :: 0 <= i < |entries| && entries[i].tier == 3
  }

  /** The decision label, decided in this order: one debit line with no
      cashback, one credit line, any international line, anything else.  On
      well-formed lines the labels partition the plans: a single debit line
      is a pass-through, a single credit line is credit-optimised, any plan
      touching an international card is a fallback, and the rest (several
      lines, or none) are splits. */
  function Classify(entries: seq<Entry>): (d: Decision)
    ensures WellFormed(entries) ==>
              && (d == PassThrough <==> |entries| == 1 && entries[0].tier == 2)
              && (d == CreditOptimised <==> |entries| == 1 && entries[0].tier == 1)
              && (d == FallbackInternational <==> UsesInternational(entries))
              && (d == Split <==> !UsesInternational(entries) && |entries| != 1)
  {
    if |entries| == 1 && entries[0].tier == 2 && entries[0].cashback == 0.0 then PassThrough
    else if |entries| == 1 && entries[0].tier == 1 then CreditOptimised
    else if UsesInternational(entries) then FallbackInternational
    else Split
  }

  function Caps(cands: seq<Candidate>): (caps: seq<real>)
    ensures |caps| == |cands|
    ensures forall i :: 0 <= i < |cands| ==> caps[i] == cands[i].slot.capacity
  {
    seq(|cands|, i requires 0 <= i < |cands| => cands[i].slot.capacity)
  }

  function Rates(cands: seq<Candidate>): (rates: seq<real>)
    ensures |rates| == |cands|
    ensures forall i :: 0 <= i < |cands| ==> rates[i] == cands[i].rate
  {
    seq(|cands|, i requires 0 <= i < |cands| => cands[i].rate)
  }

  lemma CapsNonNegative(cands: seq<Candidate>)
    requires forall c :: c in cands ==> c.slot.capacity > MinCapacity
    ensures NonNegative(Caps(cands))
  {
    assert forall i :: 0 <= i < |cands| ==> cands[i] in cands;
  }

  /** The plan lines of a feasible allocation fall short of the purchase
      only by the slots dropped for carrying less than half a penny. */
  lemma PlanCoversAmount(cands: seq<Candidate>, x: seq<real>, amount: real, category: string)
    requires Feasible(Caps(cands), amount, x)
    ensures 0.0 <= amount - Sum(AmountsOf(BuildEntries(cands, x, category))) <= MinEntry * |cands| as real
  {
    var r := BuildEntries(cands, x, category);
    Shortfall(cands, x, category);
    assert MinEntry * (|x| - |r|) as real <= MinEntry * |cands| as real;
  }

  /** A later debit account with the same id replaces this one in the
      per-account interest profile, which is keyed by account id. */
  predicate Shadowed(accounts: seq<DebitAccount>, i: int)
    requires 0 <= i < |accounts|
  {
    exists j :: i < j < |accounts| && accounts[j].id == accounts[i].id
  }

  /** The monthly savings interest the per-account profile adds up: each
      account earns a twelfth of its annual rate on its balance, and of
      several accounts sharing an id only the last one is counted. */
  function ProfileInterest(accounts: seq<DebitAccount>): real {
    if |accounts| == 0 then 0.0
    else
      (if Shadowed(accounts, 0) then 0.0 else accounts[0].balance * accounts[0].savingsRateAnnual / 12.0)
      + ProfileInterest(accounts[1..])
  }

  /** With distinct account ids the profile counts every account once: its
      total is a twelfth of the balance-weighted sum of annual rates. */
  lemma {:induction false} ProfileOfDistinct(accounts: seq<DebitAccount>)
    requires forall i, j :: 0 <= i < j < |accounts| ==> accounts[i].id != accounts[j].id
    ensures ProfileInterest(accounts) == WeightedSum(accounts) / 12.0
  {
    if |accounts| > 0 {
      ProfileOfDistinct(accounts[1..]);
      assert !Shadowed(accounts, 0);
    }
  }

  /** Of two accounts with the same id, the profile keeps the second. */
  lemma ProfileLastWins(a: DebitAccount, b: DebitAccount)
    requires a.id == b.id
    ensures ProfileInterest([a, b]) == b.balance * b.savingsRateAnnual / 12.0
  {
    assert [a, b][1] == b;
    assert Shadowed([a, b], 0);
    assert [a, b][1..] == [b];
    assert [b][1..] == [];
    assert ProfileInterest([b]) == b.balance * b.savingsRateAnnual / 12.0 + ProfileInterest([]);
  }

  /** The inputs each candidate's rate is computed from. */
  function ContextFor(txn: Transaction, user: User, fxToGbp: map<string, real>,
                      today: int, daysInMonth: int): Context
  {
    Context(txn.category.GetOr(DefaultCategory),
            user.prefs.alwaysPayInFull.GetOr(true),
            PrimarySavingsMonthly(user.debitAccounts),
            AmountGbp(txn, fxToGbp),
            today, daysInMonth)
  }

  function CandidatesFor(txn: Transaction, user: User, fxToGbp: map<string, real>,
                         today: int, daysInMonth: int): seq<Candidate>
  {
    BuildCandidates(user, ContextFor(txn, user, fxToGbp, today, daysInMonth))
  }

  /** Optimises one payment.  It fails with NoFundingSource when no source
      has capacity, and with SolverInfeasible exactly when no allocation of
      the sterling amount within the capacities exists; otherwise the plan's
      solution is an optimal allocation, the plan lines account for it, and
      the decision label is derived from the lines. */
  function OptimizePayment(txn: Transaction, user: User, fxToGbp: map<string, real>,
                           today: int, daysInMonth: int): (r: Outcome)
    ensures var cands := CandidatesFor(txn, user, fxToGbp, today, daysInMonth);
            && (r == Failed(NoFundingSource) <==> |cands| == 0)
            && (r == Failed(SolverInfeasible) <==>
                  |cands| > 0 && !exists x :: Feasible(Caps(cands), AmountGbp(txn, fxToGbp), x))
            && (r.Planned? ==>
                  && r.plan.candidates == cands
                  && r.plan.amountGbp == AmountGbp(txn, fxToGbp)
                  && Optimal(Caps(cands), Rates(cands), r.plan.amountGbp, r.plan.solution)
                  && r.plan.allocation == BuildEntries(cands, r.plan.solution, r.plan.category)
                  && 0.0 <= r.plan.amountGbp - Sum(AmountsOf(r.plan.allocation))
                         <= MinEntry * |cands| as real
                  && r.plan.decision == Classify(r.plan.allocation)
                  && r.plan.impact == Totals(r.plan.allocation)
                  && r.plan.amountOriginal == txn.amount
                  && r.plan.currency == txn.currency.GetOr(DefaultCurrency)
                  && r.plan.category == txn.category.GetOr(DefaultCategory)
                  && r.plan.weightedSavingsAnnual == WeightedSavingsAnnual(user.debitAccounts)
                  && r.plan.weightedSavingsMonthly == r.plan.weightedSavingsAnnual / 12.0
                  && r.plan.remainingMonthlyInterest
                       == ProfileInterest(user.debitAccounts) - r.plan.impact.totalInterestLost)
  {
    var ctx := ContextFor(txn, user, fxToGbp, today, daysInMonth);
    var amountGbp := AmountGbp(txn, fxToGbp);
    var cands := BuildCandidates(user, ctx);
    if |cands| == 0 then Failed(NoFundingSource)
    else
      var caps, rates := Caps(cands), Rates(cands);
      CapsNonNegative(cands);
      FeasibleIffCovered(caps, amountGbp);
      if !(0.0 <= amountGbp <= Sum(caps)) then Failed(SolverInfeasible)
      else
        var x := Solve(caps, rates, amountGbp);
        PlanCoversAmount(cands, x, amountGbp, ctx.category);
        var entries := BuildEntries(cands, x, ctx.category);
        var impact := Totals(entries);
        var weighted := WeightedSavingsAnnual(user.debitAccounts);
        Planned(Plan(txn.amount, txn.currency.GetOr(DefaultCurrency), amountGbp, ctx.category,
                     Classify(entries), entries, impact, weighted, weighted / 12.0,
                     ProfileInterest(user.debitAccounts) - impact.totalInterestLost, cands, x))
  }
}
