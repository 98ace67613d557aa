/** Net benefit, per pound, of routing spend through a slot, measured as its
    effect on the user's cash at the end of the month. */
module Benefit {
  import opened Common
  import opened Cards
  import opened Capacity

  /** The rate a per-category table gives: the category's own entry, else
      the "other" entry, else zero. */
  function CategoryRate(rates: map<string, real>, category: string): (r: real)
    ensures category in rates ==> r == rates[category]
    ensures category !in rates && "other" in rates ==> r == rates["other"]
    ensures category !in rates && "other" !in rates ==> r == 0.0
  {
    if category in rates then rates[category]
    else if "other" in rates then rates["other"]
    else 0.0
  }

  /** Signed benefit per pound:
      a credit card paid in full earns its cashback plus the savings interest
      the untouched debit money keeps earning over the grace period; a credit
      card that carries a balance earns cashback less a month of APR; a debit
      account loses a month of its own savings interest; an international
      card pays its FX spread and its flat fee spread over the spend
      (at least one pound, so the fee is never divided by zero). */
  function NetBenefitRate(slot: Slot, category: string, primarySavingsMonthly: real,
                          paysInFull: bool, spend: real): (r: real)
    ensures slot.kind.CreditSlot? && paysInFull ==>
              r - CategoryRate(slot.kind.cashbackRates, category)
                == primarySavingsMonthly * (slot.kind.graceDays / 30.0)
    ensures slot.kind.CreditSlot? && !paysInFull ==>
              r + slot.kind.aprAnnual / 12.0 == CategoryRate(slot.kind.cashbackRates, category)
    ensures slot.kind.DebitSlot? ==> r == -slot.kind.savingsRateMonthly
    ensures slot.kind.IntlSlot? ==>
              r * Max(spend, 1.0) == -(slot.kind.fxSpreadRate * Max(spend, 1.0) + slot.kind.transferFeeFlat)
  {
    match slot.kind
    case CreditSlot(_, _, rates, grace, apr, _, _, _) =>
      var cashback := CategoryRate(rates, category);
      if paysInFull then cashback + primarySavingsMonthly * (grace / 30.0)
      else cashback - apr / 12.0
    case DebitSlot(_, monthly, _) => -monthly
    case IntlSlot(spread, flat) => -(spread + flat / Max(spend, 1.0))
  }

  /** With non-negative rates, fees and grace period, a card paid in full
      never ranks below a debit account or an international card. */
  lemma CreditPaidInFullRanksFirst(credit: Slot, other: Slot, category: string,
                                   primarySavingsMonthly: real, spend: real)
    requires credit.kind.CreditSlot? && !other.kind.CreditSlot?
    requires forall c :: c in credit.kind.cashbackRates ==> credit.kind.cashbackRates[c] >= 0.0
    requires credit.kind.graceDays >= 0.0 && primarySavingsMonthly >= 0.0
    requires other.kind.DebitSlot? ==> other.kind.savingsRateMonthly >= 0.0
    requires other.kind.IntlSlot? ==> other.kind.fxSpreadRate >= 0.0 && other.kind.transferFeeFlat >= 0.0
    ensures NetBenefitRate(other, category, primarySavingsMonthly, true, spend)
         <= NetBenefitRate(credit, category, primarySavingsMonthly, true, spend)
  {
    var c := NetBenefitRate(credit, category, primarySavingsMonthly, true, spend);
    assert CategoryRate(credit.kind.cashbackRates, category) >= 0.0;
    assert primarySavingsMonthly * (credit.kind.graceDays / 30.0) >= 0.0;
    if other.kind.IntlSlot? {
      var o := NetBenefitRate(other, category, primarySavingsMonthly, true, spend);
      var m := Max(spend, 1.0);
      assert o * m <= 0.0;
      assert o <= 0.0;
    }
  }

  function TotalBalance(accounts: seq<DebitAccount>): real {
    if |accounts| == 0 then 0.0 else accounts[0].balance + TotalBalance(accounts[1..])
  }

  function WeightedSum(accounts: seq<DebitAccount>): real {
    if |accounts| == 0 then 0.0
    else accounts[0].balance * accounts[0].savingsRateAnnual + WeightedSum(accounts[1..])
  }

  /** Balance-weighted annual savings rate over all debit accounts; zero when
      the accounts hold nothing in total. */
  function WeightedSavingsAnnual(accounts: seq<DebitAccount>): real {
    var total := TotalBalance(accounts);
    if total > 0.0 then WeightedSum(accounts) / total else 0.0
  }

  /** The monthly rate credited to a card paid in full. */
  function PrimarySavingsMonthly(accounts: seq<DebitAccount>): real {
    WeightedSavingsAnnual(accounts) / 12.0
  }

  lemma {:induction false} WeightedSumBounds(accounts: seq<DebitAccount>, lo: real, hi: real)
    requires forall i :: 0 <= i < |accounts| ==> accounts[i].balance >= 0.0
    requires forall i :: 0 <= i < |accounts| ==> lo <= accounts[i].savingsRateAnnual <= hi
    ensures lo * TotalBalance(accounts) <= WeightedSum(accounts) <= hi * TotalBalance(accounts)
  {
    if |accounts| > 0 {
      WeightedSumBounds(accounts[1..], lo, hi);
      BoundStep(accounts[0].balance, accounts[0].savingsRateAnnual, lo, hi,
                TotalBalance(accounts[1..]), WeightedSum(accounts[1..]),
                TotalBalance(accounts), WeightedSum(accounts));
    }
  }

  /** Adding one account to a balance-weighted sum keeps its bounds. */
  lemma BoundStep(b: real, r: real, lo: real, hi: real, restB: real, restW: real, total: real, weighted: real)
    requires b >= 0.0 && lo <= r <= hi
    requires lo * restB <= restW <= hi * restB
    requires total == b + restB && weighted == b * r + restW
    ensures lo * total <= weighted <= hi * total
  {
    ProductBetween(b, r, lo, hi);
    assert lo * total == lo * b + lo * restB;
    assert hi * total == hi * b + hi * restB;
  }

  lemma ProductBetween(b: real, r: real, lo: real, hi: real)
    requires b >= 0.0 && lo <= r <= hi
    ensures lo * b <= b * r <= hi * b
  {
    assert b * (r - lo) >= 0.0;
    assert b * (hi - r) >= 0.0;
  }

  /** With non-negative balances the blended rate lies between the lowest and
      the highest account rate, and it is zero when there is no money. */
  lemma WeightedRateBetween(accounts: seq<DebitAccount>, lo: real, hi: real)
    requires forall i :: 0 <= i < |accounts| ==> accounts[i].balance >= 0.0
    requires forall i :: 0 <= i < |accounts| ==> lo <= accounts[i].savingsRateAnnual <= hi
    ensures TotalBalance(accounts) > 0.0 ==> lo <= WeightedSavingsAnnual(accounts) <= hi
    ensures TotalBalance(accounts) <= 0.0 ==> WeightedSavingsAnnual(accounts) == 0.0
  {
    var total := TotalBalance(accounts);
    if total > 0.0 {
      WeightedSumBounds(accounts, lo, hi);
      QuotientBetween(WeightedSum(accounts), total, lo, hi);
    }
  }

  /** Dividing by a positive total keeps bounds that hold per unit. */
  lemma QuotientBetween(n: real, t: real, lo: real, hi: real)
    requires t > 0.0 && lo * t <= n <= hi * t
    ensures lo <= n / t <= hi
  {
    var w := n / t;
    assert w * t == n;
    NonNegativeFactor(w - lo, t);
    NonNegativeFactor(hi - w, t);
  }

  lemma NonNegativeFactor(a: real, t: real)
    requires t > 0.0 && a * t >= 0.0
    ensures a >= 0.0
  {
  }
}
