/** The earlier card optimiser: every card kind is kept sorted by id, each
    card offers the lesser of its monthly limit and its balance, and a
    linear programme picks the amounts under a mode chosen from the
    spending sector. */
module LegacyOptimizer {
  import opened Common
  import opened LinearProgram

  datatype Sector = Travel | Hotel | Grocery | Shopping | General | Fuel

  datatype DebitCard = DebitCard(id: string, name: string, monthlySpendLimit: real,
                                 currentBalance: real, annualInterestRate: real)

  datatype CreditCard = CreditCard(id: string, name: string, monthlySpendLimit: real,
                                   currentBalance: real, cashbackRates: map<Sector, real>)

  /** An overseas card whose limit and balance are in local currency;
      `gbpConversion` local units make one pound. */
  datatype IntlCard = IntlCard(id: string, name: string, monthlySpendLimit: real,
                               currentBalance: real, markupRate: real, gbpConversion: real)

  datatype CardType = Credit | Debit | International

  /** The flat per-card record the programme is built from. */
  datatype PreparedCard = PreparedCard(id: string, name: string, cardType: CardType,
                                       available: real, rate: real, interestRate: real)

  datatype Mode = Balanced | InterestOnly

  datatype Request = Request(amount: real, category: Sector)

  datatype Allocation = Allocation(cardId: string, cardName: string, amountUtilised: real,
                                   interestSaved: real, cashbackPoints: real,
                                   cashbackSector: Option<Sector>)

  datatype Explanation = StrictLinearModel | InsufficientLiquidity | OptimizationFailed

  datatype Response = Response(allocations: seq<Allocation>, explanation: Explanation, totalAmount: real) {
    /** Only a solved programme reports success. */
    function Status(): string {
      if explanation == StrictLinearModel then "success" else "insufficient_funds"
    }
  }

  /** Converting an overseas card's amount divides by its conversion rate,
      which fails when that rate is zero. */
  datatype LegacyError = ZeroConversion

  /** Which way the objective is optimised. */
  datatype Sense = Minimise | Maximise

  /** The objective-sense code the optimiser passes to its modelling
      library, whose convention is 1 for minimise and -1 for maximise. */
  const SenseCode: int := 1

  function SenseOf(code: int): Sense {
    if code == 1 then Minimise else Maximise
  }

  // ----- Ordering by identifier -----

  /** Code-point lexicographic order on strings; a prefix sorts first. */
  predicate LexLe(a: string, b: string) {
    |a| == 0 || (|b| > 0 && (a[0] < b[0] || (a[0] == b[0] && LexLe(a[1..], b[1..]))))
  }

  lemma {:induction false} LexTotal(a: string, b: string)
    ensures LexLe(a, b) || LexLe(b, a)
  {
    if |a| > 0 && |b| > 0 && a[0] == b[0] {
      LexTotal(a[1..], b[1..]);
    }
  }

  lemma {:induction false} LexAntisymmetric(a: string, b: string)
    requires LexLe(a, b) && LexLe(b, a)
    ensures a == b
  {
    if |a| > 0 && |b| > 0 {
      LexAntisymmetric(a[1..], b[1..]);
      assert a == [a[0]] + a[1..] && b == [b[0]] + b[1..];
    }
  }

  lemma {:induction false} LexReflexive(a: string)
    ensures LexLe(a, a)
  {
    if |a| > 0 {
      LexReflexive(a[1..]);
    }
  }

  lemma {:induction false} LexTransitive(a: string, b: string, c: string)
    requires LexLe(a, b) && LexLe(b, c)
    ensures LexLe(a, c)
  {
    if |a| > 0 && |b| > 0 && |c| > 0 && a[0] == b[0] && b[0] == c[0] {
      LexTransitive(a[1..], b[1..], c[1..]);
    }
  }

  predicate SortedBy<T>(s: seq<T>, key: T -> string) {
    forall i :: 0 < i < |s| ==> LexLe(key(s[i - 1]), key(s[i]))
  }

  /** Places x before the first element whose key is not below its own. */
  function InsertBy<T(==)>(x: T, s: seq<T>, key: T -> string): (r: seq<T>)
    requires SortedBy(s, key)
    ensures multiset(r) == multiset(s) + multiset{x}
    ensures SortedBy(r, key)
    ensures |r| > 0 && (r[0] == x || (|s| > 0 && r[0] == s[0]))
  {
    if |s| == 0 || LexLe(key(x), key(s[0])) then [x] + s
    else
      LexTotal(key(x), key(s[0]));
      SortedTail(s, key);
      var rest := InsertBy(x, s[1..], key);
      SortedCons(s[0], rest, key);
      assert s == [s[0]] + s[1..];
      [s[0]] + rest
  }

  lemma SortedCons<T>(y: T, t: seq<T>, key: T -> string)
    requires SortedBy(t, key)
    requires |t| > 0 ==> LexLe(key(y), key(t[0]))
    ensures SortedBy([y] + t, key)
  {
    forall i | 0 < i < |t| + 1
      ensures LexLe(key(([y] + t)[i - 1]), key(([y] + t)[i]))
    {
      if i > 1 {
        assert ([y] + t)[i - 1] == t[i - 2] && ([y] + t)[i] == t[i - 1];
      }
    }
  }

  /** Insertion sort by key; elements with equal keys keep their input order. */
  function SortBy<T(==)>(s: seq<T>, key: T -> string): (r: seq<T>)
    ensures multiset(r) == multiset(s)
    ensures SortedBy(r, key)
  {
    if |s| == 0 then []
    else
      assert s == [s[0]] + s[1..];
      InsertBy(s[0], SortBy(s[1..], key), key)
  }

  /** No two different elements share a key. */
  ghost predicate KeyDetermines<T>(s: seq<T>, key: T -> string) {
    forall x, y :: x in s && y in s && key(x) == key(y) ==> x == y
  }

  lemma {:induction false} FirstIsLeast<T>(s: seq<T>, key: T -> string)
    requires SortedBy(s, key) && |s| > 0
    ensures forall i :: 0 <= i < |s| ==> LexLe(key(s[0]), key(s[i]))
  {
    LexReflexive(key(s[0]));
    if |s| > 1 {
      FirstIsLeast(s[1..], key);
      forall i | 1 <= i < |s|
        ensures LexLe(key(s[0]), key(s[i]))
      {
        assert LexLe(key(s[1..][0]), key(s[1..][i - 1]));
        LexTransitive(key(s[0]), key(s[1]), key(s[i]));
      }
    }
  }

  /** Two key-ordered arrangements of the same distinct-keyed elements
      start with the same element. */
  lemma SortedHeadsAgree<T>(a: seq<T>, b: seq<T>, key: T -> string)
    requires multiset(a) == multiset(b) && |a| > 0
    requires SortedBy(a, key) && SortedBy(b, key)
    requires KeyDetermines(a, key)
    ensures |b| > 0 && a[0] == b[0]
  {
    assert |b| == |multiset(b)| == |a|;
    assert a[0] in multiset(b) && b[0] in multiset(a);
    var ia :| 0 <= ia < |a| && a[ia] == b[0];
    var ib :| 0 <= ib < |b| && b[ib] == a[0];
    FirstIsLeast(a, key);
    FirstIsLeast(b, key);
    LexAntisymmetric(key(a[0]), key(b[0]));
  }

  lemma SortedTail<T>(s: seq<T>, key: T -> string)
    requires SortedBy(s, key) && |s| > 0
    ensures SortedBy(s[1..], key)
  {
    forall i | 0 < i < |s| - 1
      ensures LexLe(key(s[1..][i - 1]), key(s[1..][i]))
    {
      assert s[1..][i - 1] == s[i] && s[1..][i] == s[i + 1];
    }
  }

  lemma KeyDeterminesTail<T>(s: seq<T>, key: T -> string)
    requires KeyDetermines(s, key) && |s| > 0
    ensures KeyDetermines(s[1..], key)
  {
    forall x, y | x in s[1..] && y in s[1..] && key(x) == key(y)
      ensures x == y
    {
      assert x in s && y in s;
    }
  }

  /** A key-ordered arrangement of distinct-keyed elements is unique. */
  lemma {:induction false} SortedIsUnique<T>(a: seq<T>, b: seq<T>, key: T -> string)
    requires multiset(a) == multiset(b)
    requires SortedBy(a, key) && SortedBy(b, key)
    requires KeyDetermines(a, key)
    ensures a == b
  {
    if |a| == 0 {
      assert |multiset(b)| == 0;
    } else {
      SortedHeadsAgree(a, b, key);
      assert a == [a[0]] + a[1..] && b == [b[0]] + b[1..];
      assert multiset(a[1..]) == multiset(a) - multiset{a[0]};
      assert multiset(b[1..]) == multiset(b) - multiset{b[0]};
      KeyDeterminesTail(a, key);
      SortedTail(a, key);
      SortedTail(b, key);
      SortedIsUnique(a[1..], b[1..], key);
    }
  }

  /** When identifiers are distinct, the stored order of the cards depends
      only on which cards were given, not on the order they were given in. */
  lemma SortIgnoresInputOrder<T>(s1: seq<T>, s2: seq<T>, key: T -> string)
    requires multiset(s1) == multiset(s2)
    requires KeyDetermines(s1, key)
    ensures SortBy(s1, key) == SortBy(s2, key)
  {
    var r1, r2 := SortBy(s1, key), SortBy(s2, key);
    forall x, y | x in r1 && y in r1 && key(x) == key(y)
      ensures x == y
    {
      assert x in multiset(r1) && y in multiset(r1);
      assert x in s1 && y in s1;
    }
    SortedIsUnique(r1, r2, key);
  }

  // ----- The optimiser -----

  /** The optimiser's stored cards, each kind sorted by id. */
  datatype Optimizer = Optimizer(debitCards: seq<DebitCard>, creditCards: seq<CreditCard>,
                                 intlCards: seq<IntlCard>)

  function DebitId(c: DebitCard): string { c.id }
  function CreditId(c: CreditCard): string { c.id }
  function IntlId(c: IntlCard): string { c.id }

  function NewOptimizer(debits: seq<DebitCard>, credits: seq<CreditCard>, intls: seq<IntlCard>): (o: Optimizer)
    ensures multiset(o.debitCards) == multiset(debits) && SortedBy(o.debitCards, DebitId)
    ensures multiset(o.creditCards) == multiset(credits) && SortedBy(o.creditCards, CreditId)
    ensures multiset(o.intlCards) == multiset(intls) && SortedBy(o.intlCards, IntlId)
  {
    Optimizer(SortBy(debits, DebitId), SortBy(credits, CreditId), SortBy(intls, IntlId))
  }

  /** The reference savings rate: the best debit rate, or zero without debit cards. */
  function BestDebitRate(debits: seq<DebitCard>): (r: real)
    ensures |debits| == 0 ==> r == 0.0
    ensures forall i :: 0 <= i < |debits| ==> debits[i].annualInterestRate <= r
    ensures |debits| > 0 ==> exists i :: 0 <= i < |debits| && debits[i].annualInterestRate == r
  {
    if |debits| == 0 then 0.0
    else if |debits| == 1 then debits[0].annualInterestRate
    else
      var rest := BestDebitRate(debits[1..]);
      assert forall i :: 1 <= i < |debits| ==> debits[i] == debits[1..][i - 1];
      Max(debits[0].annualInterestRate, rest)
  }

  /** A credit card offers the lesser of its monthly limit and its balance,
      earns its sector cashback (zero when the sector is not listed), and
      keeps the best debit rate earning. */
  function PrepareCredit(c: CreditCard, category: Sector, bestDebitRate: real): (p: PreparedCard)
    ensures p.id == c.id && p.name == c.name && p.cardType == Credit
    ensures p.available <= c.monthlySpendLimit && p.available <= c.currentBalance
    ensures p.available == c.monthlySpendLimit || p.available == c.currentBalance
    ensures p.rate == (if category in c.cashbackRates then c.cashbackRates[category] else 0.0)
    ensures p.interestRate == bestDebitRate
  {
    PreparedCard(c.id, c.name, Credit, Min(c.monthlySpendLimit, c.currentBalance),
                 if category in c.cashbackRates then c.cashbackRates[category] else 0.0, bestDebitRate)
  }

  function PrepareDebit(c: DebitCard): (p: PreparedCard)
    ensures p.id == c.id && p.name == c.name && p.cardType == Debit
    ensures p.available <= c.monthlySpendLimit && p.available <= c.currentBalance
    ensures p.available == c.monthlySpendLimit || p.available == c.currentBalance
    ensures p.rate == 0.0 && p.interestRate == c.annualInterestRate
  {
    PreparedCard(c.id, c.name, Debit, Min(c.monthlySpendLimit, c.currentBalance), 0.0, c.annualInterestRate)
  }

  /** An overseas card offers the lesser of its limit and balance, converted to pounds. */
  function PrepareIntl(c: IntlCard): (p: PreparedCard)
    requires c.gbpConversion != 0.0
    ensures p.id == c.id && p.name == c.name && p.cardType == International
    ensures p.available * c.gbpConversion <= c.monthlySpendLimit
    ensures p.available * c.gbpConversion <= c.currentBalance
    ensures p.available * c.gbpConversion == Min(c.monthlySpendLimit, c.currentBalance)
    ensures p.rate == 0.0 && p.interestRate == c.markupRate
  {
    PreparedCard(c.id, c.name, International, Min(c.monthlySpendLimit, c.currentBalance) / c.gbpConversion,
                 0.0, c.markupRate)
  }

  predicate HasZeroConversion(intls: seq<IntlCard>) {
    exists i :: 0 <= i < |intls| && intls[i].gbpConversion == 0.0
  }

  /** The flat card list: credit cards, then debit cards, then overseas
      cards, each in stored order.  It fails when an overseas card has a
      zero conversion rate. */
  function PrepareCards(o: Optimizer, category: Sector): (r: Result<seq<PreparedCard>, LegacyError>)
    ensures r.Failure? <==> HasZeroConversion(o.intlCards)
    ensures r.Success? ==>
              var nc, nd := |o.creditCards|, |o.debitCards|;
              && |r.value| == nc + nd + |o.intlCards|
              && (forall i :: 0 <= i < nc ==>
                    r.value[i] == PrepareCredit(o.creditCards[i], category, BestDebitRate(o.debitCards)))
              && (forall i :: 0 <= i < nd ==> r.value[nc + i] == PrepareDebit(o.debitCards[i]))
              && (forall i :: 0 <= i < |o.intlCards| ==>
                    o.intlCards[i].gbpConversion != 0.0 && r.value[nc + nd + i] == PrepareIntl(o.intlCards[i]))
  {
    if HasZeroConversion(o.intlCards) then Failure(ZeroConversion)
    else
      var credit := PrepareCredits(o.creditCards, category, BestDebitRate(o.debitCards));
      var debit := PrepareDebits(o.debitCards);
      var intl := PrepareIntls(o.intlCards);
      assert forall i :: 0 <= i < |credit| ==> (credit + debit + intl)[i] == credit[i];
      assert forall i :: 0 <= i < |debit| ==> (credit + debit + intl)[|credit| + i] == debit[i];
      assert forall i :: 0 <= i < |intl| ==> (credit + debit + intl)[|credit| + |debit| + i] == intl[i];
      Success(credit + debit + intl)
  }

  function PrepareCredits(cards: seq<CreditCard>, category: Sector, best: real): (r: seq<PreparedCard>)
    ensures |r| == |cards|
    ensures forall i :: 0 <= i < |cards| ==> r[i] == PrepareCredit(cards[i], category, best)
  {
    seq(|cards|, i requires 0 <= i < |cards| => PrepareCredit(cards[i], category, best))
  }

  function PrepareDebits(cards: seq<DebitCard>): (r: seq<PreparedCard>)
    ensures |r| == |cards|
    ensures forall i :: 0 <= i < |cards| ==> r[i] == PrepareDebit(cards[i])
  {
    seq(|cards|, i requires 0 <= i < |cards| => PrepareDebit(cards[i]))
  }

  function PrepareIntls(cards: seq<IntlCard>): (r: seq<PreparedCard>)
    requires !HasZeroConversion(cards)
    ensures |r| == |cards|
    ensures forall i :: 0 <= i < |cards| ==> cards[i].gbpConversion != 0.0 && r[i] == PrepareIntl(cards[i])
  {
    seq(|cards|, i requires 0 <= i < |cards| => PrepareIntl(cards[i]))
  }

  /** The balanced mode counts cashback; it applies to the high-reward sectors. */
  function ModeFor(category: Sector): (m: Mode)
    ensures m == Balanced <==> category in {Hotel, Travel, Fuel, Shopping}
  {
    match category
    case Hotel => Balanced
    case Travel => Balanced
    case Fuel => Balanced
    case Shopping => Balanced
    case _ => InterestOnly
  }

  /** Monthly interest effect per pound: spending a debit card loses its own
      rate, spending a credit card keeps the best debit rate earning, and an
      overseas card carries its markup times a thousand as a penalty. */
  function InterestCoeff(p: PreparedCard): real {
    match p.cardType
    case Debit => -(p.interestRate / 12.0)
    case Credit => p.interestRate / 12.0
    case International => -((p.interestRate * 1000.0) / 12.0)
  }

  /** The interest term of one card for the amount `x` put on it. */
  function InterestTerm(p: PreparedCard, x: real): (t: real)
    ensures t == x * InterestCoeff(p)
  {
    match p.cardType
    case Debit => -(x * p.interestRate / 12.0)
    case Credit => x * p.interestRate / 12.0
    case International => -(x * (p.interestRate * 1000.0) / 12.0)
  }

  function CashbackTerm(p: PreparedCard, x: real): real {
    x * p.rate
  }

  /** The objective: interest terms, plus cashback terms in balanced mode. */
  function Objective(cards: seq<PreparedCard>, x: seq<real>, mode: Mode): real
    requires |x| == |cards|
  {
    if |x| == 0 then 0.0
    else
      InterestTerm(cards[0], x[0]) + (if mode == Balanced then CashbackTerm(cards[0], x[0]) else 0.0)
      + Objective(cards[1..], x[1..], mode)
  }

  function Coeff(p: PreparedCard, mode: Mode): real {
    InterestCoeff(p) + (if mode == Balanced then p.rate else 0.0)
  }

  function Coeffs(cards: seq<PreparedCard>, mode: Mode): (c: seq<real>)
    ensures |c| == |cards|
  {
    if |cards| == 0 then [] else [Coeff(cards[0], mode)] + Coeffs(cards[1..], mode)
  }

  function InterestCoeffs(cards: seq<PreparedCard>): (c: seq<real>)
    ensures |c| == |cards|
  {
    if |cards| == 0 then [] else [InterestCoeff(cards[0])] + InterestCoeffs(cards[1..])
  }

  /** The objective is linear in the amounts, with one coefficient per card. */
  lemma {:induction false} ObjectiveIsLinear(cards: seq<PreparedCard>, x: seq<real>, mode: Mode)
    requires |x| == |cards|
    ensures Objective(cards, x, mode) == Dot(Coeffs(cards, mode), x)
  {
    if |x| > 0 {
      ObjectiveIsLinear(cards[1..], x[1..], mode);
      var k := Coeff(cards[0], mode);
      assert InterestTerm(cards[0], x[0]) + (if mode == Balanced then CashbackTerm(cards[0], x[0]) else 0.0)
          == k * x[0];
    }
  }

  lemma {:induction false} InterestOnlyCoeffs(cards: seq<PreparedCard>)
    ensures Coeffs(cards, InterestOnly) == InterestCoeffs(cards)
  {
    if |cards| > 0 {
      InterestOnlyCoeffs(cards[1..]);
    }
  }

  function Negate(c: seq<real>): (n: seq<real>)
    ensures |n| == |c|
  {
    if |c| == 0 then [] else [-c[0]] + Negate(c[1..])
  }

  lemma {:induction false} DotNegate(c: seq<real>, x: seq<real>)
    requires |c| == |x|
    ensures Dot(Negate(c), x) == -Dot(c, x)
  {
    if |x| > 0 {
      DotNegate(c[1..], x[1..]);
    }
  }

  /** Every feasible allocation's objective is no better than x's in the given sense. */
  ghost predicate Best(caps: seq<real>, coeffs: seq<real>, amount: real, x: seq<real>, sense: Sense)
    requires |coeffs| == |caps|
  {
    && Feasible(caps, amount, x)
    && forall y :: Feasible(caps, amount, y) ==>
         if sense == Maximise then Dot(coeffs, y) <= Dot(coeffs, x) else Dot(coeffs, x) <= Dot(coeffs, y)
  }

  /** Solving with negated coefficients minimises. */
  lemma NegatedOptimumIsMinimum(caps: seq<real>, coeffs: seq<real>, amount: real, x: seq<real>)
    requires |coeffs| == |caps|
    requires Optimal(caps, Negate(coeffs), amount, x)
    ensures Best(caps, coeffs, amount, x, Minimise)
  {
    forall y | Feasible(caps, amount, y)
      ensures Dot(coeffs, x) <= Dot(coeffs, y)
    {
      DotNegate(coeffs, x);
      DotNegate(coeffs, y);
    }
  }

  /** The report line for a card given a positive amount. */
  function Allocate(p: PreparedCard, x: real, category: Sector): (a: Allocation)
    ensures a.cardId == p.id && a.amountUtilised == x
    ensures a.interestSaved == x * InterestCoeff(p) && a.cashbackPoints == x * p.rate
    ensures a.cashbackSector.Some? <==> p.cardType == Credit
    ensures a.cashbackSector.Some? ==> a.cashbackSector.value == category
  {
    Allocation(p.id, p.name, x, InterestTerm(p, x), CashbackTerm(p, x),
               if p.cardType == Credit then Some(category) else None)
  }

  function UsedAmounts(allocs: seq<Allocation>): seq<real> {
    if |allocs| == 0 then [] else [allocs[0].amountUtilised] + UsedAmounts(allocs[1..])
  }

  function SavedAmounts(allocs: seq<Allocation>): seq<real> {
    if |allocs| == 0 then [] else [allocs[0].interestSaved] + SavedAmounts(allocs[1..])
  }

  /** One line per card given a positive amount, in card order. */
  function Allocations(cards: seq<PreparedCard>, x: seq<real>, category: Sector): seq<Allocation>
    requires |x| == |cards|
  {
    if |x| == 0 then []
    else
      var rest := Allocations(cards[1..], x[1..], category);
      if x[0] > 0.0 then [Allocate(cards[0], x[0], category)] + rest else rest
  }

  /** Every card given a positive amount gets its line, and every line is
      such a card's. */
  lemma {:induction false} AllocationsListPositiveCards(cards: seq<PreparedCard>, x: seq<real>, category: Sector)
    requires |x| == |cards|
    ensures var r := Allocations(cards, x, category);
            && (forall a :: a in r ==> a.amountUtilised > 0.0)
            && (forall i :: 0 <= i < |x| && x[i] > 0.0 ==> Allocate(cards[i], x[i], category) in r)
            && (forall a :: a in r ==>
                  exists i :: 0 <= i < |x| && x[i] > 0.0 && a == Allocate(cards[i], x[i], category))
  {
    if |x| > 0 {
      AllocationsListPositiveCards(cards[1..], x[1..], category);
      assert forall i :: 0 < i < |x| ==> x[1..][i - 1] == x[i] && cards[1..][i - 1] == cards[i];
    }
  }

  /** With non-negative amounts, skipping the cards given nothing loses no
      money. */
  lemma {:induction false} AllocationsCoverAmount(cards: seq<PreparedCard>, x: seq<real>, category: Sector)
    requires |x| == |cards|
    requires forall i :: 0 <= i < |x| ==> x[i] >= 0.0
    ensures Sum(UsedAmounts(Allocations(cards, x, category))) == Sum(x)
  {
    if |x| > 0 {
      var rest := Allocations(cards[1..], x[1..], category);
      AllocationsCoverAmount(cards[1..], x[1..], category);
      if x[0] > 0.0 {
        var a := Allocate(cards[0], x[0], category);
        assert ([a] + rest)[1..] == rest;
        assert UsedAmounts([a] + rest) == [x[0]] + UsedAmounts(rest);
      }
    }
  }

  /** The reported interest adds up to the interest part of the objective. */
  lemma {:induction false} AllocationsReportInterest(cards: seq<PreparedCard>, x: seq<real>, category: Sector)
    requires |x| == |cards|
    requires forall i :: 0 <= i < |x| ==> x[i] >= 0.0
    ensures Sum(SavedAmounts(Allocations(cards, x, category))) == Dot(InterestCoeffs(cards), x)
  {
    if |x| > 0 {
      var rest := Allocations(cards[1..], x[1..], category);
      AllocationsReportInterest(cards[1..], x[1..], category);
      var k := InterestCoeff(cards[0]);
      assert Dot(InterestCoeffs(cards), x) == k * x[0] + Dot(InterestCoeffs(cards[1..]), x[1..]) by {
        assert InterestCoeffs(cards)[1..] == InterestCoeffs(cards[1..]);
      }
      if x[0] > 0.0 {
        var a := Allocate(cards[0], x[0], category);
        assert Allocations(cards, x, category) == [a] + rest;
        assert ([a] + rest)[1..] == rest;
        assert SavedAmounts([a] + rest) == [a.interestSaved] + SavedAmounts(rest);
        assert a.interestSaved == k * x[0];
      } else {
        assert Allocations(cards, x, category) == rest;
        assert k * x[0] == 0.0;
      }
    }
  }

  /** Availability of each prepared card, in order. */
  function Availables(cards: seq<PreparedCard>): (caps: seq<real>)
    ensures |caps| == |cards| && forall i :: 0 <= i < |cards| ==> caps[i] == cards[i].available
  {
    seq(|cards|, i requires 0 <= i < |cards| => cards[i].available)
  }

  /** A feasible allocation exists only when no card offers a negative
      amount and the amount is between zero and the total on offer. */
  lemma FeasibleOnlyIfCovered(caps: seq<real>, amount: real)
    ensures (exists x :: Feasible(caps, amount, x)) ==> NonNegative(caps) && 0.0 <= amount <= Sum(caps)
  {
    if exists x :: Feasible(caps, amount, x) {
      var x :| Feasible(caps, amount, x);
      SumWithinBounds(caps, x);
    }
  }

  /** The solved programme: an allocation best in the given sense, reported
      line by line. */
  function Solved(cards: seq<PreparedCard>, req: Request, sense: Sense): (r: Response)
    requires NonNegative(Availables(cards)) && 0.0 <= req.amount <= Sum(Availables(cards))
    ensures r.explanation == StrictLinearModel && r.totalAmount == req.amount
    ensures Sum(UsedAmounts(r.allocations)) == req.amount
    ensures exists x :: Best(Availables(cards), Coeffs(cards, ModeFor(req.category)), req.amount, x, sense)
                        && r.allocations == Allocations(cards, x, req.category)
  {
    var caps := Availables(cards);
    var coeffs := Coeffs(cards, ModeFor(req.category));
    var x := if sense == Maximise then Solve(caps, coeffs, req.amount)
             else Solve(caps, Negate(coeffs), req.amount);
    assert Best(caps, coeffs, req.amount, x, sense) by {
      if sense == Minimise {
        NegatedOptimumIsMinimum(caps, coeffs, req.amount, x);
      }
    }
    AllocationsCoverAmount(cards, x, req.category);
    Response(Allocations(cards, x, req.category), StrictLinearModel, req.amount)
  }

  /** One optimisation in the given objective sense.  It fails exactly when
      an overseas card has a zero conversion rate; it reports insufficient
      liquidity exactly when the cards together offer less than the amount;
      it reports a failed optimisation exactly when the programme is
      otherwise infeasible; and a solved programme's lines come from an
      allocation that is best in the given sense. */
  function Run(o: Optimizer, req: Request, sense: Sense): (r: Result<Response, LegacyError>)
    ensures r.Failure? <==> HasZeroConversion(o.intlCards)
    ensures r.Success? ==>
              var cards := PrepareCards(o, req.category).value;
              var caps := Availables(cards);
              var coeffs := Coeffs(cards, ModeFor(req.category));
              && r.value.totalAmount == req.amount
              && (r.value.explanation == InsufficientLiquidity <==> Sum(caps) < req.amount)
              && (r.value.explanation == OptimizationFailed <==>
                    Sum(caps) >= req.amount && !exists x :: Feasible(caps, req.amount, x))
              && (r.value.explanation != StrictLinearModel ==> r.value.allocations == [])
              && (r.value.explanation == StrictLinearModel ==>
                    && Sum(UsedAmounts(r.value.allocations)) == req.amount
                    && exists x :: Best(caps, coeffs, req.amount, x, sense)
                                   && r.value.allocations == Allocations(cards, x, req.category))
  {
    match PrepareCards(o, req.category)
    case Failure(e) => Failure(e)
    case Success(cards) =>
      var caps := Availables(cards);
      FeasibleOnlyIfCovered(caps, req.amount);
      if Sum(caps) < req.amount then
        Success(Response([], InsufficientLiquidity, req.amount))
      else if !NonNegative(caps) || req.amount < 0.0 then
        Success(Response([], OptimizationFailed, req.amount))
      else
        FeasibleIffCovered(caps, req.amount);
        Success(Solved(cards, req, sense))
  }

  /** The optimiser as written: the sense code it passes means minimise, so
      a solved programme's lines come from an allocation that makes the
      objective as small as possible. */
  function OptimizeAsWritten(o: Optimizer, req: Request): (r: Result<Response, LegacyError>)
    ensures r.Success? <==> PrepareCards(o, req.category).Success?
    ensures r.Success? && r.value.explanation == StrictLinearModel ==>
              var cards := PrepareCards(o, req.category).value;
              exists x :: && Best(Availables(cards), Coeffs(cards, ModeFor(req.category)), req.amount, x, Minimise)
                          && r.value.allocations == Allocations(cards, x, req.category)
  {
    Run(o, req, SenseOf(SenseCode))
  }

  /** The optimiser as its own description intends: a solved programme's
      lines come from an allocation that makes the objective (interest
      saved, plus cashback in balanced mode) as large as possible, and they
      add up to the whole amount. */
  function Optimize(o: Optimizer, req: Request): (r: Result<Response, LegacyError>)
    ensures r.Success? <==> PrepareCards(o, req.category).Success?
    ensures r.Success? && r.value.explanation == StrictLinearModel ==>
              var cards := PrepareCards(o, req.category).value;
              && Sum(UsedAmounts(r.value.allocations)) == req.amount
              && exists x :: && Best(Availables(cards), Coeffs(cards, ModeFor(req.category)), req.amount, x, Maximise)
                             && r.value.allocations == Allocations(cards, x, req.category)
  {
    Run(o, req, Maximise)
  }

  // ----- The objective-sense discrepancy -----

  /** One credit card and one debit account, each able to cover 100 pounds;
      the debit account earns 5% a year. */
  function Example(): Optimizer {
    Optimizer([DebitCard("dc", "Debit", 100.0, 100.0, 0.05)],
              [CreditCard("cc", "Credit", 100.0, 100.0, map[])],
              [])
  }

  lemma ExampleCards()
    ensures PrepareCards(Example(), General).Success?
    ensures var cards := PrepareCards(Example(), General).value;
            && Availables(cards) == [100.0, 100.0]
            && InterestCoeffs(cards) == [0.05 / 12.0, -(0.05 / 12.0)]
            && Coeffs(cards, InterestOnly) == InterestCoeffs(cards)
  {
    var o := Example();
    assert !HasZeroConversion(o.intlCards);
    var cards := PrepareCards(o, General).value;
    assert BestDebitRate(o.debitCards) == 0.05;
    var c0, c1 := cards[0], cards[1];
    assert c0 == PrepareCredit(o.creditCards[0], General, 0.05);
    assert c1 == PrepareDebit(o.debitCards[0]);
    assert cards == [c0, c1] && cards[1..] == [c1] && [c1][1..] == [];
    assert InterestCoeffs([c1]) == [InterestCoeff(c1)];
    assert InterestCoeffs(cards) == [InterestCoeff(c0), InterestCoeff(c1)];
    assert Availables(cards) == [100.0, 100.0];
    InterestOnlyCoeffs(cards);
  }

  lemma DotOfPair(a: real, b: real, x: real, y: real)
    ensures Dot([a, b], [x, y]) == a * x + b * y
  {
    assert [a, b][1..] == [b] && [x, y][1..] == [y];
    assert [b][1..] == [] && [y][1..] == [];
    assert Dot([b], [y]) == b * y + Dot([], []);
  }

  lemma SumOfPair(a: real, b: real)
    ensures Sum([a, b]) == a + b
  {
    assert [a, b][1..] == [b] && [b][1..] == [];
    assert Sum([b]) == b + Sum([]);
  }

  /** For a 50-pound general purchase the optimiser as written takes the
      money from the interest-earning debit account: the interest it reports
      saved is negative, at most minus a month of 5% on 50 pounds. */
  lemma AsWrittenLosesInterest()
    ensures var w := OptimizeAsWritten(Example(), Request(50.0, General));
            && w.Success? && w.value.explanation == StrictLinearModel
            && Sum(SavedAmounts(w.value.allocations)) <= -(50.0 * 0.05 / 12.0)
  {
    var o, req := Example(), Request(50.0, General);
    ExampleCards();
    var cards := PrepareCards(o, General).value;
    var caps, coeffs := Availables(cards), Coeffs(cards, InterestOnly);
    assert ModeFor(General) == InterestOnly;
    var onDebit := [0.0, 50.0];
    SumOfPair(0.0, 50.0);
    SumOfPair(100.0, 100.0);
    assert Feasible(caps, 50.0, onDebit);
    DotOfPair(0.05 / 12.0, -(0.05 / 12.0), 0.0, 50.0);
    var w := OptimizeAsWritten(o, req);
    assert w.value.explanation == StrictLinearModel;
    var x :| Best(caps, coeffs, 50.0, x, Minimise) && w.value.allocations == Allocations(cards, x, General);
    AllocationsReportInterest(cards, x, General);
    assert Dot(coeffs, x) <= Dot(coeffs, onDebit);
  }

  /** For the same purchase the intended optimiser puts the money on the
      credit card and reports at least a month of 5% on 50 pounds saved. */
  lemma IntendedKeepsInterest()
    ensures var c := Optimize(Example(), Request(50.0, General));
            && c.Success? && c.value.explanation == StrictLinearModel
            && Sum(SavedAmounts(c.value.allocations)) >= 50.0 * 0.05 / 12.0
  {
    var o, req := Example(), Request(50.0, General);
    ExampleCards();
    var cards := PrepareCards(o, General).value;
    var caps, coeffs := Availables(cards), Coeffs(cards, InterestOnly);
    assert ModeFor(General) == InterestOnly;
    var onCredit := [50.0, 0.0];
    SumOfPair(50.0, 0.0);
    SumOfPair(100.0, 100.0);
    assert Feasible(caps, 50.0, onCredit);
    DotOfPair(0.05 / 12.0, -(0.05 / 12.0), 50.0, 0.0);
    var c := Optimize(o, req);
    assert c == Run(o, req, Maximise);
    assert c.value.explanation == StrictLinearModel;
    var x :| Best(caps, coeffs, 50.0, x, Maximise) && c.value.allocations == Allocations(cards, x, General);
    AllocationsReportInterest(cards, x, General);
    assert Dot(coeffs, x) >= Dot(coeffs, onCredit);
  }
}
