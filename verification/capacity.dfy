/** Funding slots: one per card or account, carrying the amount that can be
    spent from it safely today after the auto-debits of the current cycle
    have been set aside. */
module Capacity {
  import opened Common
  import opened Cards
  import opened AutoDebits

  /** What the engine keeps about each kind of source. */
  datatype SlotKind =
    | CreditSlot(limit: real, balance: real, cashbackRates: map<string, real>, graceDays: real,
                 aprAnnual: real, pointsPerPound: map<string, real>, rewardType: string, badge: string)
    | DebitSlot(balance: real, savingsRateMonthly: real, isPrimary: bool)
    | IntlSlot(fxSpreadRate: real, transferFeeFlat: real)

  datatype Slot = Slot(id: string, name: string, capacity: real, pendingDebits: real, kind: SlotKind)

  /** Tier 1 credit, tier 2 debit, tier 3 international backup. */
  function Tier(s: Slot): (t: int)
    ensures 1 <= t <= 3
  {
    match s.kind
    case CreditSlot(_, _, _, _, _, _, _, _) => 1
    case DebitSlot(_, _, _) => 2
    case IntlSlot(_, _) => 3
  }

  /** Safe spend from a debit account: the balance left once this month's
      remaining auto-debits are reserved, and never below zero. */
  function DebitCapacity(acc: DebitAccount, today: int, daysInMonth: int): (s: Slot)
    ensures s.id == acc.id && s.name == acc.name
    ensures s.kind == DebitSlot(acc.balance, acc.savingsRateAnnual / 12.0, acc.isPrimary)
    ensures s.pendingDebits == PendingInCycle(acc.autoDebits, today, None, daysInMonth)
    ensures 1 <= today <= daysInMonth ==>
              s.pendingDebits == Sum(Due(acc.autoDebits, DayRange(today, daysInMonth)))
    ensures s.capacity >= 0.0 && s.capacity >= acc.balance - s.pendingDebits
    ensures s.capacity == 0.0 || s.capacity == acc.balance - s.pendingDebits
    ensures s.pendingDebits >= 0.0 ==> s.capacity <= Max(acc.balance, 0.0)
  {
    var pending := PendingInCycle(acc.autoDebits, today, None, daysInMonth);
    Slot(acc.id, acc.name, Max(0.0, acc.balance - pending), pending,
         DebitSlot(acc.balance, acc.savingsRateAnnual / 12.0, acc.isPrimary))
  }

  /** The utilisation ceiling in force, 30% unless the user set one. */
  function MaxUtilization(prefs: Preferences): real {
    prefs.maxCreditUtilization.GetOr(DefaultMaxUtilization)
  }

  /** Safe spend on a credit card: what keeps the balance plus the reserved
      auto-debits within both the credit limit and the utilisation ceiling. */
  function CreditCapacity(card: CreditCard, prefs: Preferences, today: int, daysInMonth: int): (s: Slot)
    ensures s.id == card.id && s.name == card.name && s.kind.CreditSlot?
    ensures s.kind.limit == card.creditLimit && s.kind.balance == card.currentBalance
    ensures s.kind.graceDays == card.graceDays.GetOr(DefaultGraceDays)
    ensures s.kind.cashbackRates == card.cashbackRates && s.kind.pointsPerPound == card.pointsPerPound
    ensures s.kind.aprAnnual == card.aprAnnual && s.kind.badge == card.badge
    ensures s.kind.rewardType == card.rewardType.GetOr(DefaultRewardType)
    ensures s.pendingDebits == PendingInCycle(card.autoDebits, today, card.statementCloseDay, daysInMonth)
    ensures s.capacity >= 0.0
    ensures s.capacity > 0.0 ==>
              && card.currentBalance + s.pendingDebits + s.capacity <= card.creditLimit
              && card.currentBalance + s.pendingDebits + s.capacity <= MaxUtilization(prefs) * card.creditLimit
    ensures s.capacity > 0.0 ==>
              || card.currentBalance + s.pendingDebits + s.capacity == card.creditLimit
              || card.currentBalance + s.pendingDebits + s.capacity == MaxUtilization(prefs) * card.creditLimit
    ensures s.capacity == 0.0 ==>
              || card.currentBalance + s.pendingDebits >= card.creditLimit
              || card.currentBalance + s.pendingDebits >= MaxUtilization(prefs) * card.creditLimit
  {
    var maxUtil := MaxUtilization(prefs);
    var pending := PendingInCycle(card.autoDebits, today, card.statementCloseDay, daysInMonth);
    var rawAvailable := card.creditLimit - card.currentBalance - pending;
    var utilHeadroom := maxUtil * card.creditLimit - (card.currentBalance + pending);
    Slot(card.id, card.name, Max(0.0, Min(rawAvailable, utilHeadroom)), pending,
         CreditSlot(card.creditLimit, card.currentBalance, card.cashbackRates,
                    card.graceDays.GetOr(DefaultGraceDays), card.aprAnnual, card.pointsPerPound,
                    card.rewardType.GetOr(DefaultRewardType), card.badge))
  }

  /** With a ceiling of at most 100% on a non-negative limit, the utilisation
      ceiling is always the binding one. */
  lemma UtilizationCeilingBinds(card: CreditCard, prefs: Preferences, today: int, daysInMonth: int)
    requires 0.0 <= MaxUtilization(prefs) <= 1.0 && card.creditLimit >= 0.0
    ensures CreditCapacity(card, prefs, today, daysInMonth).capacity
         == Max(0.0, MaxUtilization(prefs) * card.creditLimit - card.currentBalance
                     - PendingInCycle(card.autoDebits, today, card.statementCloseDay, daysInMonth))
  {
    assert MaxUtilization(prefs) * card.creditLimit <= card.creditLimit;
  }

  /** A backup international card offers its approximate sterling balance,
      never less than zero; it has no auto-debits. */
  function IntlCapacity(card: IntlCard): (s: Slot)
    ensures s.id == card.id && s.name == card.name && s.pendingDebits == 0.0
    ensures s.kind == IntlSlot(card.fxSpreadRate.GetOr(DefaultFxSpread), card.transferFeeFlat)
    ensures s.capacity >= 0.0 && s.capacity >= card.balanceGbpApprox.GetOr(0.0)
    ensures s.capacity == 0.0 || s.capacity == card.balanceGbpApprox.GetOr(0.0)
  {
    Slot(card.id, card.name, Max(0.0, card.balanceGbpApprox.GetOr(0.0)), 0.0,
         IntlSlot(card.fxSpreadRate.GetOr(DefaultFxSpread), card.transferFeeFlat))
  }
}
