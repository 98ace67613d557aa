/** The user record the v2 engine and the ledger work on: debit accounts,
    credit cards and backup international cards with their scheduled
    auto-debits.  A field the source reads with a non-trivial default is an
    `Option`; a field whose default is empty (no auto-debits, no points
    table, no badge, not primary, no flat fee) is a plain value. */
module Cards {
  import opened Common

  /** A direct debit that fires on a fixed day of every month. */
  datatype AutoDebit = AutoDebit(name: string, amount: real, dayOfMonth: int)

  /** A current or savings account (tier 2). */
  datatype DebitAccount = DebitAccount(
    id: string,
    name: string,
    balance: real,
    savingsRateAnnual: real,
    isPrimary: bool,
    autoDebits: seq<AutoDebit>)

  /** A credit card (tier 1). */
  datatype CreditCard = CreditCard(
    id: string,
    name: string,
    creditLimit: real,
    currentBalance: real,
    cashbackRates: map<string, real>,
    graceDays: Option<real>,             // 30 when absent
    aprAnnual: real,
    pointsPerPound: map<string, real>,
    rewardType: Option<string>,          // "cashback" when absent
    badge: string,
    statementCloseDay: Option<int>,      // end of month when absent or 0
    autoDebits: seq<AutoDebit>)

  /** A backup card held in a foreign bank (tier 3). */
  datatype IntlCard = IntlCard(
    id: string,
    name: string,
    balanceLocal: Option<real>,          // 0 when absent
    balanceGbpApprox: Option<real>,      // 0 when absent
    fxSpreadRate: Option<real>,          // 0.025 when absent
    transferFeeFlat: real)

  /** The user's optimisation preferences. */
  datatype Preferences = Preferences(
    maxCreditUtilization: Option<real>,  // 0.30 when absent
    alwaysPayInFull: Option<bool>)       // true when absent

  datatype User = User(
    id: string,
    name: string,
    prefs: Preferences,
    debitAccounts: seq<DebitAccount>,
    creditCards: seq<CreditCard>,
    intlCards: seq<IntlCard>)

  /** One purchase; amount is in `currency` ("GBP" when absent). */
  datatype Transaction = Transaction(
    amount: real,
    currency: Option<string>,
    category: Option<string>)           // "other" when absent

  const DefaultGraceDays: real := 30.0
  const DefaultFxSpread: real := 0.025
  const DefaultMaxUtilization: real := 0.30
  const DefaultRewardType: string := "cashback"
  const DefaultCurrency: string := "GBP"
  const DefaultCategory: string := "other"
}
