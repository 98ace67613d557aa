/** Committing a funding plan to the stored balances: credit cards are
    charged, debit accounts and international cards are drawn down, and a
    change record is kept for each balance touched. */
module Ledger {
  import opened Common
  import opened Cards
  import opened Engine
  import opened Selection

  datatype AccountKind = CreditKind | DebitKind | IntlKind

  /** One balance movement, as reported back to the caller. */
  datatype Change = Change(cardId: string, cardName: string, kind: AccountKind, field: string,
                           before: real, after: real, delta: real)

  /** A user's accounts after some plan lines, with the changes made so far. */
  /** An account as a change record should show it: its name, the balance
      field written, and the balance before the change. */
  datatype Standing = Standing(name: string, field: string, balance: real)

  datatype Posting = Posting(user: User, changes: seq<Change>)

  datatype CommitError = UserNotFound(userId: string)

  datatype DebitView = DebitView(id: string, name: string, balance: real)
  datatype CreditView = CreditView(id: string, name: string, currentBalance: real,
                                   creditLimit: real, availableCredit: real)
  datatype IntlView = IntlView(id: string, name: string, balanceGbpApprox: real)

  /** The balances shown to the user after a commit. */
  datatype Snapshot = Snapshot(debitAccounts: seq<DebitView>, creditCards: seq<CreditView>,
                               intlCards: seq<IntlView>)

  datatype Receipt = Receipt(changes: seq<Change>, snapshot: Snapshot, db: seq<User>)

  /** The position of the first occurrence of `id`, if any. */
  function FirstIndex(ids: seq<string>, id: string): (k: Option<nat>)
    ensures k.Some? ==> k.value < |ids| && ids[k.value] == id
    ensures k.Some? ==> forall j :: 0 <= j < k.value ==> ids[j] != id
    ensures k.None? <==> id !in ids
  {
    if |ids| == 0 then None
    else if ids[0] == id then Some(0)
    else
      match FirstIndex(ids[1..], id)
      case None => None
      case Some(k) => Some(k + 1)
  }

  /** The identifiers of the users, and below of each kind of account, in
      order; the four projections differ only in their element type. */
  function UserIds(db: seq<User>): (ids: seq<string>)
    ensures |ids| == |db| && forall i :: 0 <= i < |db| ==> ids[i] == db[i].id
  {
    seq(|db|, i requires 0 <= i < |db| => db[i].id)
  }

  function CreditIds(cards: seq<CreditCard>): (ids: seq<string>)
    ensures |ids| == |cards| && forall i :: 0 <= i < |cards| ==> ids[i] == cards[i].id
  {
    seq(|cards|, i requires 0 <= i < |cards| => cards[i].id)
  }

  function DebitIds(accounts: seq<DebitAccount>): (ids: seq<string>)
    ensures |ids| == |accounts| && forall i :: 0 <= i < |accounts| ==> ids[i] == accounts[i].id
  {
    seq(|accounts|, i requires 0 <= i < |accounts| => accounts[i].id)
  }

  function IntlIds(cards: seq<IntlCard>): (ids: seq<string>)
    ensures |ids| == |cards| && forall i :: 0 <= i < |cards| ==> ids[i] == cards[i].id
  {
    seq(|cards|, i requires 0 <= i < |cards| => cards[i].id)
  }

  function CreditBalances(cards: seq<CreditCard>): (b: seq<real>)
    ensures |b| == |cards| && forall i :: 0 <= i < |cards| ==> b[i] == cards[i].currentBalance
  {
    seq(|cards|, i requires 0 <= i < |cards| => cards[i].currentBalance)
  }

  function DebitBalances(accounts: seq<DebitAccount>): (b: seq<real>)
    ensures |b| == |accounts| && forall i :: 0 <= i < |accounts| ==> b[i] == accounts[i].balance
  {
    seq(|accounts|, i requires 0 <= i < |accounts| => accounts[i].balance)
  }

  /** Local balances of the international cards; an absent balance reads as zero. */
  function IntlBalances(cards: seq<IntlCard>): (b: seq<real>)
    ensures |b| == |cards| && forall i :: 0 <= i < |cards| ==> b[i] == cards[i].balanceLocal.GetOr(0.0)
  {
    seq(|cards|, i requires 0 <= i < |cards| => cards[i].balanceLocal.GetOr(0.0))
  }

  /** Money owed on all credit cards. */
  function CreditOwed(u: User): real {
    Sum(CreditBalances(u.creditCards))
  }

  /** Money held in all debit accounts. */
  function DebitHeld(u: User): real {
    Sum(DebitBalances(u.debitAccounts))
  }

  /** Money held, in local currency, on all international cards. */
  function IntlHeld(u: User): real {
    Sum(IntlBalances(u.intlCards))
  }

  /** The accounts a user has, by kind and in order, as identifiers. */
  predicate SameAccounts(a: User, b: User) {
    && a.id == b.id
    && CreditIds(a.creditCards) == CreditIds(b.creditCards)
    && DebitIds(a.debitAccounts) == DebitIds(b.debitAccounts)
    && IntlIds(a.intlCards) == IntlIds(b.intlCards)
  }

  /** Whether a plan line names an account the user has, in its own tier. */
  predicate Matches(u: User, e: Entry) {
    || (e.tier == 1 && e.cardId in CreditIds(u.creditCards))
    || (e.tier == 2 && e.cardId in DebitIds(u.debitAccounts))
    || (e.tier == 3 && e.cardId in IntlIds(u.intlCards))
  }

  /** A change record is internally consistent. */
  predicate Consistent(c: Change) {
    c.after == c.before + c.delta
  }

  /** The kind of account a plan line's tier names. */
  function KindOf(tier: int): AccountKind {
    if tier == 1 then CreditKind else if tier == 2 then DebitKind else IntlKind
  }

  /** What a plan line moves its balance by: up for a credit card, down otherwise. */
  function SignedAmount(e: Entry): real {
    if e.tier == 1 then e.amountGbp else -e.amountGbp
  }

  /** `c` records the plan line `e`: its card, its kind of account, its
      signed amount as the delta, and after = before + delta. */
  predicate Records(c: Change, e: Entry) {
    && c.cardId == e.cardId && c.kind == KindOf(e.tier) && c.delta == SignedAmount(e)
    && Consistent(c)
  }

  /** `c` is the record of the line `e` made once the lines `prior` have
      been applied to `u`: it names the first account of the line's tier
      with the line's id, the balance field of that kind of account, and
      that account's balance at that point (its balance in `u` moved by
      the earlier lines naming it) as `before`. */
  predicate RecordedAfter(u: User, prior: seq<Entry>, e: Entry, c: Change) {
    match StandingOf(u, prior, e)
    case None => true
    case Some(s) => c.cardName == s.name && c.field == s.field && c.before == s.balance
  }

  /** The account the line `e` posts to, as it stands once the lines `prior`
      have been applied to `u`; none when the user has no such account. */
  function StandingOf(u: User, prior: seq<Entry>, e: Entry): Option<Standing> {
    if e.tier == 1 then CreditStanding(u.creditCards, prior, e.cardId)
    else if e.tier == 2 then DebitStanding(u.debitAccounts, prior, e.cardId)
    else if e.tier == 3 then IntlStanding(u.intlCards, prior, e.cardId)
    else None
  }

  function CreditStanding(cards: seq<CreditCard>, prior: seq<Entry>, id: string): Option<Standing> {
    match FirstIndex(CreditIds(cards), id)
    case None => None
    case Some(k) =>
      Some(Standing(cards[k].name, "current_balance", cards[k].currentBalance + Sum(LineAmounts(prior, 1, id))))
  }

  function DebitStanding(accounts: seq<DebitAccount>, prior: seq<Entry>, id: string): Option<Standing> {
    match FirstIndex(DebitIds(accounts), id)
    case None => None
    case Some(k) =>
      Some(Standing(accounts[k].name, "balance", accounts[k].balance - Sum(LineAmounts(prior, 2, id))))
  }

  /** An absent local balance reads as zero. */
  function IntlStanding(cards: seq<IntlCard>, prior: seq<Entry>, id: string): Option<Standing> {
    match FirstIndex(IntlIds(cards), id)
    case None => None
    case Some(k) =>
      Some(Standing(cards[k].name, "balance_local", cards[k].balanceLocal.GetOr(0.0) - Sum(LineAmounts(prior, 3, id))))
  }

  /** Position i holds the first account with its identifier. */
  predicate FirstOf(ids: seq<string>, i: int)
    requires 0 <= i < |ids|
  {
    forall j :: 0 <= j < i ==> ids[j] != ids[i]
  }

  /** Only one position is the first with a given identifier. */
  /** The position that holds the first occurrence of its id is the one
      `FirstIndex` finds. */
  lemma FirstIndexOf(ids: seq<string>, j: nat)
    requires j < |ids| && FirstOf(ids, j)
    ensures FirstIndex(ids, ids[j]) == Some(j)
  {
    assert ids[j] in ids;
  }

  lemma FirstUnique(ids: seq<string>, k: nat)
    requires k < |ids| && FirstOf(ids, k)
    ensures forall j :: 0 <= j < |ids| && ids[j] == ids[k] && FirstOf(ids, j) ==> j == k
  {
  }

  /** The amounts of the plan lines of tier `tier` that name `id`, in plan order. */
  function LineAmounts(entries: seq<Entry>, tier: int, id: string): seq<real> {
    if |entries| == 0 then []
    else
      (if entries[0].tier == tier && entries[0].cardId == id then [entries[0].amountGbp] else [])
      + LineAmounts(entries[1..], tier, id)
  }

  /** What the plan lines of a tier move the account at position i by: the
      total of the lines naming it when it is the first account with its
      identifier, and nothing when an earlier account has the same one. */
  function Owed(ids: seq<string>, i: int, entries: seq<Entry>, tier: int): real
    requires 0 <= i < |ids|
  {
    if FirstOf(ids, i) then Sum(LineAmounts(entries, tier, ids[i])) else 0.0
  }

  /** Each credit card differs from before only in its balance, which rises by its lines. */
  predicate CreditPosted(a: seq<CreditCard>, b: seq<CreditCard>, entries: seq<Entry>) {
    && |b| == |a|
    && forall i :: 0 <= i < |a| ==>
         b[i] == a[i].(currentBalance := a[i].currentBalance + Owed(CreditIds(a), i, entries, 1))
  }

  /** Each debit account differs from before only in its balance, which falls by its lines. */
  predicate DebitPosted(a: seq<DebitAccount>, b: seq<DebitAccount>, entries: seq<Entry>) {
    && |b| == |a|
    && forall i :: 0 <= i < |a| ==>
         b[i] == a[i].(balance := a[i].balance - Owed(DebitIds(a), i, entries, 2))
  }

  /** An international card that some line draws on gets a local balance
      lowered by its lines (absent reads as zero), copied into the
      approximate sterling balance; every other card is as before. */
  predicate IntlPosted(a: seq<IntlCard>, b: seq<IntlCard>, entries: seq<Entry>) {
    && |b| == |a|
    && forall i :: 0 <= i < |a| ==>
         b[i] == if FirstOf(IntlIds(a), i) then DrawnBy(a[i], LineAmounts(entries, 3, a[i].id)) else a[i]
  }

  /** An international card after lines of the given amounts draw on it. */
  function DrawnBy(c: IntlCard, amounts: seq<real>): IntlCard {
    if |amounts| == 0 then c
    else
      var v := Some(c.balanceLocal.GetOr(0.0) - Sum(amounts));
      c.(balanceLocal := v, balanceGbpApprox := v)
  }

  /** `b` is `a` after the plan lines: the user's own fields are kept, and
      every account changes only in its balance, by the lines naming it. */
  predicate Posted(a: User, b: User, entries: seq<Entry>) {
    && b == a.(creditCards := b.creditCards, debitAccounts := b.debitAccounts, intlCards := b.intlCards)
    && CreditPosted(a.creditCards, b.creditCards, entries)
    && DebitPosted(a.debitAccounts, b.debitAccounts, entries)
    && IntlPosted(a.intlCards, b.intlCards, entries)
  }

  lemma OneLine(e: Entry, tier: int, id: string)
    ensures LineAmounts([e], tier, id) == (if e.tier == tier && e.cardId == id then [e.amountGbp] else [])
    ensures Sum(LineAmounts([e], tier, id)) == (if e.tier == tier && e.cardId == id then e.amountGbp else 0.0)
  {
    assert [e][1..] == [];
  }

  lemma LinesCons(e: Entry, rest: seq<Entry>, tier: int, id: string)
    ensures LineAmounts([e] + rest, tier, id) == LineAmounts([e], tier, id) + LineAmounts(rest, tier, id)
    ensures Sum(LineAmounts([e] + rest, tier, id)) == Sum(LineAmounts([e], tier, id)) + Sum(LineAmounts(rest, tier, id))
  {
    assert ([e] + rest)[1..] == rest;
    OneLine(e, tier, id);
    SumAppend(LineAmounts([e], tier, id), LineAmounts(rest, tier, id));
  }

  /** No plan lines, no change. */
  lemma PostedNothing(u: User)
    ensures Posted(u, u, [])
  {
  }

  /** A credit line posts its amount to the first credit card it names. */
  lemma ChargePosts(u: User, e: Entry)
    requires e.tier == 1
    ensures Posted(u, ChargeCredit(u, e.cardId, e.amountGbp).user, [e])
  {
    var v := ChargeCredit(u, e.cardId, e.amountGbp).user;
    forall i | 0 <= i < |u.creditCards|
      ensures v.creditCards[i] == u.creditCards[i].(currentBalance := u.creditCards[i].currentBalance
                                                     + Owed(CreditIds(u.creditCards), i, [e], 1))
    {
      OneLine(e, 1, u.creditCards[i].id);
    }
    Untouched(u, e);
  }

  /** A debit line draws its amount from the first debit account it names. */
  lemma DrawDebitPosts(u: User, e: Entry)
    requires e.tier == 2
    ensures Posted(u, DrawDebit(u, e.cardId, e.amountGbp).user, [e])
  {
    var v := DrawDebit(u, e.cardId, e.amountGbp).user;
    forall i | 0 <= i < |u.debitAccounts|
      ensures v.debitAccounts[i] == u.debitAccounts[i].(balance := u.debitAccounts[i].balance
                                                         - Owed(DebitIds(u.debitAccounts), i, [e], 2))
    {
      OneLine(e, 2, u.debitAccounts[i].id);
    }
    Untouched(u, e);
  }

  /** An international line draws its amount from the first such card it names. */
  lemma DrawIntlPosts(u: User, e: Entry)
    requires e.tier == 3
    ensures Posted(u, DrawIntl(u, e.cardId, e.amountGbp).user, [e])
  {
    var v := DrawIntl(u, e.cardId, e.amountGbp).user;
    forall i | 0 <= i < |u.intlCards|
      ensures v.intlCards[i] == if FirstOf(IntlIds(u.intlCards), i)
                                then DrawnBy(u.intlCards[i], LineAmounts([e], 3, u.intlCards[i].id))
                                else u.intlCards[i]
    {
      IntlPostsAt(u, e, DrawIntl(u, e.cardId, e.amountGbp), i);
    }
    Untouched(u, e);
  }

  lemma IntlPostsAt(u: User, e: Entry, r: Posting, i: nat)
    requires e.tier == 3 && i < |u.intlCards| && IntlDrawn(u, e.cardId, e.amountGbp, r)
    ensures i < |r.user.intlCards|
    ensures r.user.intlCards[i] == if FirstOf(IntlIds(u.intlCards), i)
                                   then DrawnBy(u.intlCards[i], LineAmounts([e], 3, u.intlCards[i].id))
                                   else u.intlCards[i]
  {
    var cards, id := u.intlCards, e.cardId;
    assert |IntlIds(r.user.intlCards)| == |IntlIds(cards)|;
    OneLine(e, 3, cards[i].id);
    if cards[i].id != id {
      assert r.user.intlCards[i] == cards[i];
    } else {
      var k := FirstIndex(IntlIds(cards), id).value;
      IntlExact(u, id, e.amountGbp, r, k);
      if FirstOf(IntlIds(cards), i) {
        assert i == k;
      } else {
        assert i != k;
      }
    }
  }

  /** The first international card with the id is replaced by its drawn form. */
  lemma IntlExact(u: User, id: string, amount: real, r: Posting, k: nat)
    requires k < |u.intlCards| && IntlIds(u.intlCards)[k] == id
    requires forall j :: 0 <= j < k ==> IntlIds(u.intlCards)[j] != id
    requires IntlDrawsFirstOnly(u, id, amount, r)
    ensures r.user.intlCards == u.intlCards[k := DrawnBy(u.intlCards[k], [amount])]
  {
    assert FirstOf(IntlIds(u.intlCards), k) && u.intlCards[k].id == id;
    assert [amount][1..] == [];
    assert Sum([amount]) == amount;
  }

  /** The kinds of account a line's tier does not name are posted nothing. */
  lemma Untouched(u: User, e: Entry)
    ensures e.tier != 1 ==> CreditPosted(u.creditCards, u.creditCards, [e])
    ensures e.tier != 2 ==> DebitPosted(u.debitAccounts, u.debitAccounts, [e])
    ensures e.tier != 3 ==> IntlPosted(u.intlCards, u.intlCards, [e])
  {
    forall i | 0 <= i < |u.creditCards| ensures e.tier != 1 ==> Owed(CreditIds(u.creditCards), i, [e], 1) == 0.0 {
      OneLine(e, 1, u.creditCards[i].id);
    }
    forall i | 0 <= i < |u.debitAccounts| ensures e.tier != 2 ==> Owed(DebitIds(u.debitAccounts), i, [e], 2) == 0.0 {
      OneLine(e, 2, u.debitAccounts[i].id);
    }
    forall i | 0 <= i < |u.intlCards| ensures e.tier != 3 ==> LineAmounts([e], 3, u.intlCards[i].id) == [] {
      OneLine(e, 3, u.intlCards[i].id);
    }
  }

  lemma CreditCompose(a: seq<CreditCard>, b: seq<CreditCard>, c: seq<CreditCard>, e: Entry, rest: seq<Entry>)
    requires CreditPosted(a, b, [e]) && CreditPosted(b, c, rest)
    ensures CreditPosted(a, c, [e] + rest)
  {
    assert CreditIds(b) == CreditIds(a);
    forall i | 0 <= i < |a|
      ensures c[i] == a[i].(currentBalance := a[i].currentBalance + Owed(CreditIds(a), i, [e] + rest, 1))
    {
      LinesCons(e, rest, 1, a[i].id);
    }
  }

  lemma DebitCompose(a: seq<DebitAccount>, b: seq<DebitAccount>, c: seq<DebitAccount>, e: Entry, rest: seq<Entry>)
    requires DebitPosted(a, b, [e]) && DebitPosted(b, c, rest)
    ensures DebitPosted(a, c, [e] + rest)
  {
    assert DebitIds(b) == DebitIds(a);
    forall i | 0 <= i < |a|
      ensures c[i] == a[i].(balance := a[i].balance - Owed(DebitIds(a), i, [e] + rest, 2))
    {
      LinesCons(e, rest, 2, a[i].id);
    }
  }

  lemma IntlCompose(a: seq<IntlCard>, b: seq<IntlCard>, c: seq<IntlCard>, e: Entry, rest: seq<Entry>)
    requires IntlPosted(a, b, [e]) && IntlPosted(b, c, rest)
    ensures IntlPosted(a, c, [e] + rest)
  {
    assert IntlIds(b) == IntlIds(a);
    forall i | 0 <= i < |a|
      ensures c[i] == if FirstOf(IntlIds(a), i) then DrawnBy(a[i], LineAmounts([e] + rest, 3, a[i].id)) else a[i]
    {
      LinesCons(e, rest, 3, a[i].id);
    }
  }

  /** Posting one line and then the rest is posting them all. */
  lemma PostedCompose(u: User, w: User, v: User, e: Entry, rest: seq<Entry>)
    requires Posted(u, w, [e]) && Posted(w, v, rest)
    ensures Posted(u, v, [e] + rest)
  {
    CreditCompose(u.creditCards, w.creditCards, v.creditCards, e, rest);
    DebitCompose(u.debitAccounts, w.debitAccounts, v.debitAccounts, e, rest);
    IntlCompose(u.intlCards, w.intlCards, v.intlCards, e, rest);
  }

  /** Setting one card's balance keeps the ids and moves the total by the difference. */
  lemma CreditUpdate(cards: seq<CreditCard>, k: nat, v: real)
    requires k < |cards|
    ensures var updated := cards[k := cards[k].(currentBalance := v)];
            && CreditIds(updated) == CreditIds(cards)
            && Sum(CreditBalances(updated)) == Sum(CreditBalances(cards)) - cards[k].currentBalance + v
  {
    var updated := cards[k := cards[k].(currentBalance := v)];
    assert CreditBalances(updated) == CreditBalances(cards)[k := v];
    SumUpdate(CreditBalances(cards), k, v);
    assert CreditIds(updated) == CreditIds(cards);
  }

  lemma DebitUpdate(accounts: seq<DebitAccount>, k: nat, v: real)
    requires k < |accounts|
    ensures var updated := accounts[k := accounts[k].(balance := v)];
            && DebitIds(updated) == DebitIds(accounts)
            && Sum(DebitBalances(updated)) == Sum(DebitBalances(accounts)) - accounts[k].balance + v
  {
    var updated := accounts[k := accounts[k].(balance := v)];
    assert DebitBalances(updated) == DebitBalances(accounts)[k := v];
    SumUpdate(DebitBalances(accounts), k, v);
    assert DebitIds(updated) == DebitIds(accounts);
  }

  lemma IntlUpdate(cards: seq<IntlCard>, k: nat, v: real)
    requires k < |cards|
    ensures var updated := cards[k := cards[k].(balanceLocal := Some(v), balanceGbpApprox := Some(v))];
            && IntlIds(updated) == IntlIds(cards)
            && Sum(IntlBalances(updated)) == Sum(IntlBalances(cards)) - cards[k].balanceLocal.GetOr(0.0) + v
  {
    var updated := cards[k := cards[k].(balanceLocal := Some(v), balanceGbpApprox := Some(v))];
    assert IntlBalances(updated) == IntlBalances(cards)[k := v];
    SumUpdate(IntlBalances(cards), k, v);
    assert IntlIds(updated) == IntlIds(cards);
  }

  /** The posting that charges `amount` to the credit card at position k. */
  function ChargeAt(u: User, k: nat, amount: real): (r: Posting)
    requires k < |u.creditCards|
    ensures var c := u.creditCards[k];
            && r.user == u.(creditCards := u.creditCards[k := c.(currentBalance := c.currentBalance + amount)])
            && r.changes == [Change(c.id, c.name, CreditKind, "current_balance", c.currentBalance,
                                    c.currentBalance + amount, amount)]
    ensures SameAccounts(r.user, u)
    ensures CreditOwed(r.user) == CreditOwed(u) + amount
  {
    var c := u.creditCards[k];
    CreditUpdate(u.creditCards, k, c.currentBalance + amount);
    Posting(u.(creditCards := u.creditCards[k := c.(currentBalance := c.currentBalance + amount)]),
            [Change(c.id, c.name, CreditKind, "current_balance", c.currentBalance, c.currentBalance + amount, amount)])
  }

  /** The posting that draws `amount` from the debit account at position k. */
  function DrawDebitAt(u: User, k: nat, amount: real): (r: Posting)
    requires k < |u.debitAccounts|
    ensures var a := u.debitAccounts[k];
            && r.user == u.(debitAccounts := u.debitAccounts[k := a.(balance := a.balance - amount)])
            && r.changes == [Change(a.id, a.name, DebitKind, "balance", a.balance, a.balance - amount, -amount)]
    ensures SameAccounts(r.user, u)
    ensures DebitHeld(r.user) == DebitHeld(u) - amount
  {
    var a := u.debitAccounts[k];
    DebitUpdate(u.debitAccounts, k, a.balance - amount);
    Posting(u.(debitAccounts := u.debitAccounts[k := a.(balance := a.balance - amount)]),
            [Change(a.id, a.name, DebitKind, "balance", a.balance, a.balance - amount, -amount)])
  }

  /** The posting that draws `amount` from the international card at position k. */
  function DrawIntlAt(u: User, k: nat, amount: real): (r: Posting)
    requires k < |u.intlCards|
    ensures var c := u.intlCards[k];
            var after := c.balanceLocal.GetOr(0.0) - amount;
            && r.user == u.(intlCards := u.intlCards[k := c.(balanceLocal := Some(after), balanceGbpApprox := Some(after))])
            && r.changes == [Change(c.id, c.name, IntlKind, "balance_local", c.balanceLocal.GetOr(0.0), after, -amount)]
    ensures SameAccounts(r.user, u)
    ensures IntlHeld(r.user) == IntlHeld(u) - amount
  {
    var c := u.intlCards[k];
    var after := c.balanceLocal.GetOr(0.0) - amount;
    IntlUpdate(u.intlCards, k, after);
    Posting(u.(intlCards := u.intlCards[k := c.(balanceLocal := Some(after), balanceGbpApprox := Some(after))]),
            [Change(c.id, c.name, IntlKind, "balance_local", c.balanceLocal.GetOr(0.0), after, -amount)])
  }

  /** What charging `amount` to the credit card `id` does: nothing when the
      user has no such card; otherwise the first card with that id, and only
      its balance, rises by the amount, with one change record from its old
      balance to its new one; the other kinds of account are untouched. */
  predicate Charged(u: User, id: string, amount: real, r: Posting) {
    && SameAccounts(r.user, u) && r.user.debitAccounts == u.debitAccounts && r.user.intlCards == u.intlCards
    && |r.changes| <= 1 && (|r.changes| == 1 <==> id in CreditIds(u.creditCards))
    && (|r.changes| == 0 ==> r.user == u)
    && (forall c :: c in r.changes ==> Consistent(c) && c.kind == CreditKind && c.delta == amount && c.cardId == id)
    && CreditOwed(r.user) == CreditOwed(u) + (if |r.changes| == 1 then amount else 0.0)
    && ChargesFirstOnly(u, id, amount, r)
  }

  /** Only the first account with the id changes, and exactly as stated. */
  predicate ChargesFirstOnly(u: User, id: string, amount: real, r: Posting) {
    ChargesKeepOthers(u, id, r) && ChargesExactly(u, id, amount, r)
  }

  /** The credit cards with other ids are kept. */
  predicate ChargesKeepOthers(u: User, id: string, r: Posting) {
    forall j :: 0 <= j < |u.creditCards| && u.creditCards[j].id != id ==>
      |r.user.creditCards| == |u.creditCards| && r.user.creditCards[j] == u.creditCards[j]
  }

  /** The first credit card with the id changes exactly as stated. */
  predicate ChargesExactly(u: User, id: string, amount: real, r: Posting) {
    (forall k :: 0 <= k < |u.creditCards| && u.creditCards[k].id == id && FirstOf(CreditIds(u.creditCards), k) ==>
          var c := u.creditCards[k];
          && r.user == u.(creditCards := u.creditCards[k := c.(currentBalance := c.currentBalance + amount)])
          && r.changes == [Change(id, c.name, CreditKind, "current_balance", c.currentBalance,
                                  c.currentBalance + amount, amount)])
  }

  /** What drawing `amount` from the debit account `id` does, in the same shape. */
  predicate Drawn(u: User, id: string, amount: real, r: Posting) {
    && SameAccounts(r.user, u) && r.user.creditCards == u.creditCards && r.user.intlCards == u.intlCards
    && |r.changes| <= 1 && (|r.changes| == 1 <==> id in DebitIds(u.debitAccounts))
    && (|r.changes| == 0 ==> r.user == u)
    && (forall c :: c in r.changes ==> Consistent(c) && c.kind == DebitKind && c.delta == -amount && c.cardId == id)
    && DebitHeld(r.user) == DebitHeld(u) - (if |r.changes| == 1 then amount else 0.0)
    && DrawsFirstOnly(u, id, amount, r)
  }

  /** Only the first account with the id changes, and exactly as stated. */
  predicate DrawsFirstOnly(u: User, id: string, amount: real, r: Posting) {
    DrawsKeepOthers(u, id, r) && DrawsExactly(u, id, amount, r)
  }

  /** The debit accounts with other ids are kept. */
  predicate DrawsKeepOthers(u: User, id: string, r: Posting) {
    forall j :: 0 <= j < |u.debitAccounts| && u.debitAccounts[j].id != id ==>
      |r.user.debitAccounts| == |u.debitAccounts| && r.user.debitAccounts[j] == u.debitAccounts[j]
  }

  /** The first debit account with the id changes exactly as stated. */
  predicate DrawsExactly(u: User, id: string, amount: real, r: Posting) {
    (forall k :: 0 <= k < |u.debitAccounts| && u.debitAccounts[k].id == id && FirstOf(DebitIds(u.debitAccounts), k) ==>
          var a := u.debitAccounts[k];
          && r.user == u.(debitAccounts := u.debitAccounts[k := a.(balance := a.balance - amount)])
          && r.changes == [Change(id, a.name, DebitKind, "balance", a.balance, a.balance - amount, -amount)])
  }

  /** What drawing `amount` from the international card `id` does: as for a
      debit account, on the local balance (absent reads as zero), with the new
      local balance copied into the approximate sterling balance. */
  predicate IntlDrawn(u: User, id: string, amount: real, r: Posting) {
    && SameAccounts(r.user, u) && r.user.creditCards == u.creditCards && r.user.debitAccounts == u.debitAccounts
    && |r.changes| <= 1 && (|r.changes| == 1 <==> id in IntlIds(u.intlCards))
    && (|r.changes| == 0 ==> r.user == u)
    && (forall c :: c in r.changes ==> Consistent(c) && c.kind == IntlKind && c.delta == -amount && c.cardId == id)
    && IntlHeld(r.user) == IntlHeld(u) - (if |r.changes| == 1 then amount else 0.0)
    && IntlDrawsFirstOnly(u, id, amount, r)
  }

  /** Only the first account with the id changes, and exactly as stated. */
  predicate IntlDrawsFirstOnly(u: User, id: string, amount: real, r: Posting) {
    IntlDrawsKeepOthers(u, id, r) && IntlDrawsExactly(u, id, amount, r)
  }

  /** The international cards with other ids are kept. */
  predicate IntlDrawsKeepOthers(u: User, id: string, r: Posting) {
    forall j :: 0 <= j < |u.intlCards| && u.intlCards[j].id != id ==>
      |r.user.intlCards| == |u.intlCards| && r.user.intlCards[j] == u.intlCards[j]
  }

  /** The first international card with the id changes exactly as stated. */
  predicate IntlDrawsExactly(u: User, id: string, amount: real, r: Posting) {
    (forall k :: 0 <= k < |u.intlCards| && u.intlCards[k].id == id && FirstOf(IntlIds(u.intlCards), k) ==>
          var c := u.intlCards[k];
          var after := c.balanceLocal.GetOr(0.0) - amount;
          && r.user == u.(intlCards := u.intlCards[k := c.(balanceLocal := Some(after), balanceGbpApprox := Some(after))])
          && r.changes == [Change(id, c.name, IntlKind, "balance_local", c.balanceLocal.GetOr(0.0), after, -amount)])
  }

  lemma ChargedFirst(u: User, id: string, amount: real, k: nat)
    requires k < |u.creditCards| && u.creditCards[k].id == id && FirstOf(CreditIds(u.creditCards), k)
    ensures Charged(u, id, amount, ChargeAt(u, k, amount))
  {
    var r := ChargeAt(u, k, amount);
    assert CreditIds(u.creditCards)[k] == id;
    assert |r.changes| == 1 && Consistent(r.changes[0]);
    ChargesFirstAt(u, id, amount, k);
  }

  lemma ChargesFirstAt(u: User, id: string, amount: real, k: nat)
    requires k < |u.creditCards| && u.creditCards[k].id == id && FirstOf(CreditIds(u.creditCards), k)
    ensures ChargesFirstOnly(u, id, amount, ChargeAt(u, k, amount))
  {
    ChargesKeepOthersAt(u, id, amount, k);
    ChargesExactlyAt(u, id, amount, k);
  }

  lemma ChargesKeepOthersAt(u: User, id: string, amount: real, k: nat)
    requires k < |u.creditCards| && u.creditCards[k].id == id
    ensures ChargesKeepOthers(u, id, ChargeAt(u, k, amount))
  {
    var r, cards := ChargeAt(u, k, amount), u.creditCards;
    forall j | 0 <= j < |cards| && cards[j].id != id
      ensures |r.user.creditCards| == |cards| && r.user.creditCards[j] == cards[j]
    {
    }
  }

  lemma ChargesExactlyAt(u: User, id: string, amount: real, k: nat)
    requires k < |u.creditCards| && u.creditCards[k].id == id && FirstOf(CreditIds(u.creditCards), k)
    ensures ChargesExactly(u, id, amount, ChargeAt(u, k, amount))
  {
    var r, cards := ChargeAt(u, k, amount), u.creditCards;
    FirstUnique(CreditIds(cards), k);
    forall j | 0 <= j < |cards| && cards[j].id == id && FirstOf(CreditIds(cards), j)
      ensures r.user == u.(creditCards := cards[j := cards[j].(currentBalance := cards[j].currentBalance + amount)])
      ensures r.changes == [Change(id, cards[j].name, CreditKind, "current_balance", cards[j].currentBalance,
                                   cards[j].currentBalance + amount, amount)]
    {
      assert j == k;
    }
  }

  lemma DrawnFirst(u: User, id: string, amount: real, k: nat)
    requires k < |u.debitAccounts| && u.debitAccounts[k].id == id && FirstOf(DebitIds(u.debitAccounts), k)
    ensures Drawn(u, id, amount, DrawDebitAt(u, k, amount))
  {
    var r := DrawDebitAt(u, k, amount);
    assert DebitIds(u.debitAccounts)[k] == id;
    assert |r.changes| == 1 && Consistent(r.changes[0]);
    DrawsFirstAt(u, id, amount, k);
  }

  lemma DrawsFirstAt(u: User, id: string, amount: real, k: nat)
    requires k < |u.debitAccounts| && u.debitAccounts[k].id == id && FirstOf(DebitIds(u.debitAccounts), k)
    ensures DrawsFirstOnly(u, id, amount, DrawDebitAt(u, k, amount))
  {
    DrawsKeepOthersAt(u, id, amount, k);
    DrawsExactlyAt(u, id, amount, k);
  }

  lemma DrawsKeepOthersAt(u: User, id: string, amount: real, k: nat)
    requires k < |u.debitAccounts| && u.debitAccounts[k].id == id
    ensures DrawsKeepOthers(u, id, DrawDebitAt(u, k, amount))
  {
    var r, accounts := DrawDebitAt(u, k, amount), u.debitAccounts;
    forall j | 0 <= j < |accounts| && accounts[j].id != id
      ensures |r.user.debitAccounts| == |accounts| && r.user.debitAccounts[j] == accounts[j]
    {
    }
  }

  lemma DrawsExactlyAt(u: User, id: string, amount: real, k: nat)
    requires k < |u.debitAccounts| && u.debitAccounts[k].id == id && FirstOf(DebitIds(u.debitAccounts), k)
    ensures DrawsExactly(u, id, amount, DrawDebitAt(u, k, amount))
  {
    var r, accounts := DrawDebitAt(u, k, amount), u.debitAccounts;
    FirstUnique(DebitIds(accounts), k);
    forall j | 0 <= j < |accounts| && accounts[j].id == id && FirstOf(DebitIds(accounts), j)
      ensures r.user == u.(debitAccounts := accounts[j := accounts[j].(balance := accounts[j].balance - amount)])
      ensures r.changes == [Change(id, accounts[j].name, DebitKind, "balance", accounts[j].balance,
                                   accounts[j].balance - amount, -amount)]
    {
      assert j == k;
    }
  }

  lemma IntlDrawnFirst(u: User, id: string, amount: real, k: nat)
    requires k < |u.intlCards| && u.intlCards[k].id == id && FirstOf(IntlIds(u.intlCards), k)
    ensures IntlDrawn(u, id, amount, DrawIntlAt(u, k, amount))
  {
    var r := DrawIntlAt(u, k, amount);
    assert IntlIds(u.intlCards)[k] == id;
    assert |r.changes| == 1 && Consistent(r.changes[0]);
    IntlDrawsFirstAt(u, id, amount, k);
  }

  lemma IntlDrawsFirstAt(u: User, id: string, amount: real, k: nat)
    requires k < |u.intlCards| && u.intlCards[k].id == id && FirstOf(IntlIds(u.intlCards), k)
    ensures IntlDrawsFirstOnly(u, id, amount, DrawIntlAt(u, k, amount))
  {
    IntlDrawsKeepOthersAt(u, id, amount, k);
    IntlDrawsExactlyAt(u, id, amount, k);
  }

  lemma IntlDrawsKeepOthersAt(u: User, id: string, amount: real, k: nat)
    requires k < |u.intlCards| && u.intlCards[k].id == id
    ensures IntlDrawsKeepOthers(u, id, DrawIntlAt(u, k, amount))
  {
    var r, cards := DrawIntlAt(u, k, amount), u.intlCards;
    forall j | 0 <= j < |cards| && cards[j].id != id
      ensures |r.user.intlCards| == |cards| && r.user.intlCards[j] == cards[j]
    {
    }
  }

  lemma IntlDrawsExactlyAt(u: User, id: string, amount: real, k: nat)
    requires k < |u.intlCards| && u.intlCards[k].id == id && FirstOf(IntlIds(u.intlCards), k)
    ensures IntlDrawsExactly(u, id, amount, DrawIntlAt(u, k, amount))
  {
    var r, cards := DrawIntlAt(u, k, amount), u.intlCards;
    FirstUnique(IntlIds(cards), k);
    forall j | 0 <= j < |cards| && cards[j].id == id && FirstOf(IntlIds(cards), j)
      ensures var after := cards[j].balanceLocal.GetOr(0.0) - amount;
              && r.user == u.(intlCards := cards[j := cards[j].(balanceLocal := Some(after), balanceGbpApprox := Some(after))])
              && r.changes == [Change(id, cards[j].name, IntlKind, "balance_local", cards[j].balanceLocal.GetOr(0.0),
                                      after, -amount)]
    {
      assert j == k;
    }
  }

  /** Adds `amount` to the balance of the first credit card with that id. */
  function ChargeCredit(u: User, id: string, amount: real): (r: Posting)
    ensures Charged(u, id, amount, r)
  {
    match FirstIndex(CreditIds(u.creditCards), id)
    case None => Posting(u, [])
    case Some(k) => ChargedFirst(u, id, amount, k); ChargeAt(u, k, amount)
  }

  /** Takes `amount` from the balance of the first debit account with that id. */
  function DrawDebit(u: User, id: string, amount: real): (r: Posting)
    ensures Drawn(u, id, amount, r)
  {
    match FirstIndex(DebitIds(u.debitAccounts), id)
    case None => Posting(u, [])
    case Some(k) => DrawnFirst(u, id, amount, k); DrawDebitAt(u, k, amount)
  }

  /** Takes `amount` from the local balance of the first international card
      with that id (an absent balance counts as zero) and copies the new
      local balance into the approximate sterling balance. */
  function DrawIntl(u: User, id: string, amount: real): (r: Posting)
    ensures IntlDrawn(u, id, amount, r)
  {
    match FirstIndex(IntlIds(u.intlCards), id)
    case None => Posting(u, [])
    case Some(k) => IntlDrawnFirst(u, id, amount, k); DrawIntlAt(u, k, amount)
  }

  /** The record of a charge names the card and its balance before. */
  lemma ChargeOpens(u: User, e: Entry)
    requires e.tier == 1
    ensures forall c :: c in ChargeCredit(u, e.cardId, e.amountGbp).changes ==> RecordedAfter(u, [], e, c)
  {
    var ids := CreditIds(u.creditCards);
    match FirstIndex(ids, e.cardId)
    case None =>
    case Some(k) =>
      assert FirstOf(ids, k);
      assert Sum(LineAmounts([], 1, e.cardId)) == 0.0;
  }

  lemma DrawOpens(u: User, e: Entry)
    requires e.tier == 2
    ensures forall c :: c in DrawDebit(u, e.cardId, e.amountGbp).changes ==> RecordedAfter(u, [], e, c)
  {
    var ids := DebitIds(u.debitAccounts);
    match FirstIndex(ids, e.cardId)
    case None =>
    case Some(k) =>
      assert FirstOf(ids, k);
      assert Sum(LineAmounts([], 2, e.cardId)) == 0.0;
  }

  lemma IntlDrawOpens(u: User, e: Entry)
    requires e.tier == 3
    ensures forall c :: c in DrawIntl(u, e.cardId, e.amountGbp).changes ==> RecordedAfter(u, [], e, c)
  {
    var ids := IntlIds(u.intlCards);
    match FirstIndex(ids, e.cardId)
    case None =>
    case Some(k) =>
      assert FirstOf(ids, k);
      assert Sum(LineAmounts([], 3, e.cardId)) == 0.0;
  }

  /** Applies one plan line by its tier; a line of any other tier, or naming
      no account of its tier, changes nothing. */
  function ApplyItem(u: User, e: Entry): (r: Posting)
    ensures SameAccounts(r.user, u)
    ensures |r.changes| == (if Matches(u, e) then 1 else 0)
    ensures !Matches(u, e) ==> r.user == u
    ensures forall c :: c in r.changes ==> Records(c, e) && RecordedAfter(u, [], e, c)
    ensures CreditOwed(r.user) == CreditOwed(u) + (if e.tier == 1 && Matches(u, e) then e.amountGbp else 0.0)
    ensures DebitHeld(r.user) == DebitHeld(u) - (if e.tier == 2 && Matches(u, e) then e.amountGbp else 0.0)
    ensures IntlHeld(r.user) == IntlHeld(u) - (if e.tier == 3 && Matches(u, e) then e.amountGbp else 0.0)
    ensures Posted(u, r.user, [e])
  {
    Untouched(u, e);
    if e.tier == 1 then ChargePosts(u, e); ChargeOpens(u, e); ChargeCredit(u, e.cardId, e.amountGbp)
    else if e.tier == 2 then DrawDebitPosts(u, e); DrawOpens(u, e); DrawDebit(u, e.cardId, e.amountGbp)
    else if e.tier == 3 then DrawIntlPosts(u, e); IntlDrawOpens(u, e); DrawIntl(u, e.cardId, e.amountGbp)
    else Posting(u, [])
  }

  /** The amounts of the plan lines of tier `tier` that name an account the
      user has. */
  function MatchedAmounts(u: User, entries: seq<Entry>, tier: int): seq<real> {
    if |entries| == 0 then []
    else
      (if entries[0].tier == tier && Matches(u, entries[0]) then [entries[0].amountGbp] else [])
      + MatchedAmounts(u, entries[1..], tier)
  }

  function MatchedCount(u: User, entries: seq<Entry>): nat {
    if |entries| == 0 then 0
    else (if Matches(u, entries[0]) then 1 else 0) + MatchedCount(u, entries[1..])
  }

  /** Matching depends only on the user's account identifiers. */
  lemma {:induction false} MatchingFollowsAccounts(a: User, b: User, entries: seq<Entry>)
    requires SameAccounts(a, b)
    ensures forall t :: MatchedAmounts(a, entries, t) == MatchedAmounts(b, entries, t)
    ensures MatchedCount(a, entries) == MatchedCount(b, entries)
  {
    if |entries| > 0 {
      MatchingFollowsAccounts(a, b, entries[1..]);
    }
  }

  /** Marks the plan lines that name an account the user has. */
  function MatchMarks(u: User, entries: seq<Entry>): (m: seq<bool>)
    ensures |m| == |entries| && forall i :: 0 <= i < |entries| ==> m[i] == Matches(u, entries[i])
  {
    seq(|entries|, i requires 0 <= i < |entries| => Matches(u, entries[i]))
  }

  /** The change records are, in order, one record for each plan line that
      names an account the user has. */
  predicate RecordsLines(u: User, entries: seq<Entry>, changes: seq<Change>) {
    RecordsAt(entries, MatchMarks(u, entries), changes)
  }

  /** The change records are, in order, one record for each marked line. */
  predicate RecordsAt(entries: seq<Entry>, marks: seq<bool>, changes: seq<Change>)
    requires |marks| == |entries|
  {
    var ks := Positions(marks);
    |changes| == |ks| && forall j :: 0 <= j < |changes| ==> ks[j] < |entries| && Records(changes[j], entries[ks[j]])
  }

  /** Applies the plan lines in order. */
  function ApplyAll(u: User, entries: seq<Entry>): (r: Posting)
    ensures SameAccounts(r.user, u)
    ensures forall c :: c in r.changes ==> Consistent(c)
    ensures RecordsLines(u, entries, r.changes)
    ensures RecordsOpenings(u, entries, r.changes)
    ensures Posted(u, r.user, entries)
    decreases |entries|
  {
    if |entries| == 0 then PostedNothing(u); Posting(u, [])
    else
      var first := ApplyItem(u, entries[0]);
      var rest := ApplyAll(first.user, entries[1..]);
      PostedCompose(u, first.user, rest.user, entries[0], entries[1..]);
      RecordsCompose(u, first.user, entries, first.changes, rest.changes);
      OpeningsCompose(u, first.user, entries, first.changes, rest.changes);
      assert entries == [entries[0]] + entries[1..];
      Posting(rest.user, first.changes + rest.changes)
  }

  /** The record of the first line followed by the records of the rest, made
      against a user with the same accounts, records all the lines. */
  lemma RecordsCompose(u: User, v: User, entries: seq<Entry>, head: seq<Change>, rest: seq<Change>)
    requires |entries| > 0 && SameAccounts(v, u)
    requires |head| == (if Matches(u, entries[0]) then 1 else 0)
    requires forall c :: c in head ==> Records(c, entries[0])
    requires RecordsLines(v, entries[1..], rest)
    ensures RecordsLines(u, entries, head + rest)
  {
    assert MatchMarks(v, entries[1..]) == MatchMarks(u, entries)[1..];
    RecordsStep(entries, MatchMarks(u, entries), head, rest);
  }

  lemma RecordsStep(entries: seq<Entry>, marks: seq<bool>, head: seq<Change>, rest: seq<Change>)
    requires |marks| == |entries| > 0
    requires |head| == (if marks[0] then 1 else 0) && forall c :: c in head ==> Records(c, entries[0])
    requires RecordsAt(entries[1..], marks[1..], rest)
    ensures RecordsAt(entries, marks, head + rest)
  {
    var ks, tail := Positions(marks), Positions(marks[1..]);
    var n := |head|;
    var shifted := Successors(tail);
    var r := head + rest;
    assert ks == (if marks[0] then [0] else []) + shifted;
    if n == 1 {
      assert r[0] in head && ks[0] == 0;
    }
    forall j | n <= j < |r|
      ensures ks[j] < |entries| && Records(r[j], entries[ks[j]])
    {
      var k := tail[j - n];
      assert r[j] == rest[j - n];
      assert ks[j] == shifted[j - n] == k + 1;
      assert entries[1..][k] == entries[k + 1];
    }
  }

  /** Each change record names the account its line names, by that account's
      name and balance field, and records as `before` the account's balance
      once the earlier lines have been applied. */
  predicate RecordsOpenings(u: User, entries: seq<Entry>, changes: seq<Change>) {
    OpenedFrom(u, [], entries, changes)
  }

  /** Walking the lines in order after the lines `prior`: each line that names
      an account of `u` takes the next record, which shows that account as it
      stands once `prior` and the lines before it have been applied. */
  predicate OpenedFrom(u: User, prior: seq<Entry>, entries: seq<Entry>, changes: seq<Change>)
    decreases |entries|
  {
    if |entries| == 0 then true
    else
      var n := if Matches(u, entries[0]) then 1 else 0;
      && n <= |changes|
      && (n == 1 ==> RecordedAfter(u, prior, entries[0], changes[0]))
      && OpenedFrom(u, prior + [entries[0]], entries[1..], changes[n..])
  }

  /** Posting a line and then the lines `prior` leaves an account where
      posting all of them at once would. */
  lemma CreditShift(a: seq<CreditCard>, b: seq<CreditCard>, e0: Entry, prior: seq<Entry>, id: string)
    requires CreditPosted(a, b, [e0])
    ensures CreditStanding(a, [e0] + prior, id) == CreditStanding(b, prior, id)
  {
    CreditIdsKept(a, b, [e0]);
    match FirstIndex(CreditIds(a), id)
    case None =>
    case Some(k) =>
      assert FirstOf(CreditIds(a), k);
      var first := Sum(LineAmounts([e0], 1, id));
      assert b[k].name == a[k].name && b[k].currentBalance == a[k].currentBalance + first;
      LinesCons(e0, prior, 1, id);
      assert CreditStanding(b, prior, id) == Some(Standing(b[k].name, "current_balance", b[k].currentBalance + Sum(LineAmounts(prior, 1, id))));
      assert CreditStanding(a, [e0] + prior, id)
          == Some(Standing(a[k].name, "current_balance", a[k].currentBalance + Sum(LineAmounts([e0] + prior, 1, id))));
  }

  lemma DebitShift(a: seq<DebitAccount>, b: seq<DebitAccount>, e0: Entry, prior: seq<Entry>, id: string)
    requires DebitPosted(a, b, [e0])
    ensures DebitStanding(a, [e0] + prior, id) == DebitStanding(b, prior, id)
  {
    DebitIdsKept(a, b, [e0]);
    match FirstIndex(DebitIds(a), id)
    case None =>
    case Some(k) =>
      assert FirstOf(DebitIds(a), k);
      var first := Sum(LineAmounts([e0], 2, id));
      assert b[k].name == a[k].name && b[k].balance == a[k].balance - first;
      LinesCons(e0, prior, 2, id);
      assert DebitStanding(b, prior, id) == Some(Standing(b[k].name, "balance", b[k].balance - Sum(LineAmounts(prior, 2, id))));
      assert DebitStanding(a, [e0] + prior, id)
          == Some(Standing(a[k].name, "balance", a[k].balance - Sum(LineAmounts([e0] + prior, 2, id))));
  }

  lemma IntlShift(a: seq<IntlCard>, b: seq<IntlCard>, e0: Entry, prior: seq<Entry>, id: string)
    requires IntlPosted(a, b, [e0])
    ensures IntlStanding(a, [e0] + prior, id) == IntlStanding(b, prior, id)
  {
    IntlIdsKept(a, b, [e0]);
    match FirstIndex(IntlIds(a), id)
    case None =>
    case Some(k) =>
      assert FirstOf(IntlIds(a), k);
      assert b[k] == DrawnBy(a[k], LineAmounts([e0], 3, id));
      DrawnLocal(a[k], LineAmounts([e0], 3, id));
      LinesCons(e0, prior, 3, id);
      assert IntlStanding(b, prior, id)
          == Some(Standing(b[k].name, "balance_local", b[k].balanceLocal.GetOr(0.0) - Sum(LineAmounts(prior, 3, id))));
      assert IntlStanding(a, [e0] + prior, id)
          == Some(Standing(a[k].name, "balance_local", a[k].balanceLocal.GetOr(0.0) - Sum(LineAmounts([e0] + prior, 3, id))));
  }

  /** Posting keeps every account's id. */
  lemma CreditIdsKept(a: seq<CreditCard>, b: seq<CreditCard>, entries: seq<Entry>)
    requires CreditPosted(a, b, entries)
    ensures CreditIds(b) == CreditIds(a)
  {
    assert forall i :: 0 <= i < |a| ==> b[i].id == a[i].id;
  }

  lemma DebitIdsKept(a: seq<DebitAccount>, b: seq<DebitAccount>, entries: seq<Entry>)
    requires DebitPosted(a, b, entries)
    ensures DebitIds(b) == DebitIds(a)
  {
    assert forall i :: 0 <= i < |a| ==> b[i].id == a[i].id;
  }

  lemma IntlIdsKept(a: seq<IntlCard>, b: seq<IntlCard>, entries: seq<Entry>)
    requires IntlPosted(a, b, entries)
    ensures IntlIds(b) == IntlIds(a)
  {
    assert forall i :: 0 <= i < |a| ==> b[i].id == a[i].id;
  }

  /** Drawing keeps the name and lowers the local balance by the amounts. */
  lemma DrawnLocal(c: IntlCard, amounts: seq<real>)
    ensures DrawnBy(c, amounts).name == c.name
    ensures DrawnBy(c, amounts).balanceLocal.GetOr(0.0) == c.balanceLocal.GetOr(0.0) - Sum(amounts)
  {
    if |amounts| == 0 {
      assert amounts == [];
    }
  }

  lemma StandingShift(u: User, v: User, e0: Entry, prior: seq<Entry>, e: Entry)
    requires Posted(u, v, [e0])
    ensures StandingOf(u, [e0] + prior, e) == StandingOf(v, prior, e)
  {
    if e.tier == 1 {
      CreditShift(u.creditCards, v.creditCards, e0, prior, e.cardId);
    } else if e.tier == 2 {
      DebitShift(u.debitAccounts, v.debitAccounts, e0, prior, e.cardId);
    } else if e.tier == 3 {
      IntlShift(u.intlCards, v.intlCards, e0, prior, e.cardId);
    }
  }

  /** The record of the first line, made against `u`, followed by the records
      of the rest, made against `u` with the first line posted, shows every
      account as it stands just before its line. */
  lemma OpeningsCompose(u: User, v: User, entries: seq<Entry>, head: seq<Change>, rest: seq<Change>)
    requires |entries| > 0 && SameAccounts(v, u) && Posted(u, v, [entries[0]])
    requires |head| == (if Matches(u, entries[0]) then 1 else 0)
    requires forall c :: c in head ==> RecordedAfter(u, [], entries[0], c)
    requires RecordsOpenings(v, entries[1..], rest)
    ensures RecordsOpenings(u, entries, head + rest)
  {
    OpenedShift(u, v, entries[0], [], entries[1..], rest);
    assert [entries[0]] + [] == [] + [entries[0]];
    assert (head + rest)[|head|..] == rest;
    if |head| == 1 {
      assert (head + rest)[0] in head;
    }
  }

  /** Records read against `u` with the line `e0` posted read the same
      against `u` itself once `e0` counts among the earlier lines. */
  lemma {:induction false} OpenedShift(u: User, v: User, e0: Entry, prior: seq<Entry>, entries: seq<Entry>, changes: seq<Change>)
    requires Posted(u, v, [e0]) && SameAccounts(v, u) && OpenedFrom(v, prior, entries, changes)
    ensures OpenedFrom(u, [e0] + prior, entries, changes)
    decreases |entries|
  {
    if |entries| > 0 {
      var n := if Matches(u, entries[0]) then 1 else 0;
      StandingShift(u, v, e0, prior, entries[0]);
      OpenedShift(u, v, e0, prior + [entries[0]], entries[1..], changes[n..]);
      assert [e0] + (prior + [entries[0]]) == ([e0] + prior) + [entries[0]];
    }
  }

  /** Committing moves each kind of balance by exactly the plan lines of
      that kind which name an existing account: credit owed rises by the
      credit lines, debit and international money falls by their lines, and
      there is one change record per such line. */
  lemma {:induction false} ApplyAllMovesBalances(u: User, entries: seq<Entry>)
    ensures var r := ApplyAll(u, entries);
            && |r.changes| == MatchedCount(u, entries)
            && CreditOwed(r.user) == CreditOwed(u) + Sum(MatchedAmounts(u, entries, 1))
            && DebitHeld(r.user) == DebitHeld(u) - Sum(MatchedAmounts(u, entries, 2))
            && IntlHeld(r.user) == IntlHeld(u) - Sum(MatchedAmounts(u, entries, 3))
    decreases |entries|
  {
    if |entries| > 0 {
      var e := entries[0];
      var first := ApplyItem(u, e);
      ApplyAllMovesBalances(first.user, entries[1..]);
      MatchingFollowsAccounts(first.user, u, entries[1..]);
      MatchedHead(u, entries, 1);
      MatchedHead(u, entries, 2);
      MatchedHead(u, entries, 3);
    }
  }

  lemma MatchedHead(u: User, entries: seq<Entry>, t: int)
    requires |entries| > 0
    ensures Sum(MatchedAmounts(u, entries, t))
         == (if entries[0].tier == t && Matches(u, entries[0]) then entries[0].amountGbp else 0.0)
            + Sum(MatchedAmounts(u, entries[1..], t))
  {
    var head := if entries[0].tier == t && Matches(u, entries[0]) then [entries[0].amountGbp] else [];
    SumAppend(head, MatchedAmounts(u, entries[1..], t));
  }

  /** The balances shown after a commit: each account's id and name, a
      credit card's balance and limit with the available credit as the limit
      less the balance, a debit account's balance, and an international
      card's approximate sterling balance (absent reads as zero). */
  function SnapshotOf(u: User): (s: Snapshot)
    ensures |s.debitAccounts| == |u.debitAccounts| && |s.creditCards| == |u.creditCards|
    ensures |s.intlCards| == |u.intlCards|
    ensures forall i :: 0 <= i < |u.creditCards| ==>
              && s.creditCards[i].id == u.creditCards[i].id
              && s.creditCards[i].name == u.creditCards[i].name
              && s.creditCards[i].currentBalance == u.creditCards[i].currentBalance
              && s.creditCards[i].creditLimit == u.creditCards[i].creditLimit
              && s.creditCards[i].currentBalance + s.creditCards[i].availableCredit == u.creditCards[i].creditLimit
    ensures forall i :: 0 <= i < |u.debitAccounts| ==>
              && s.debitAccounts[i].id == u.debitAccounts[i].id
              && s.debitAccounts[i].name == u.debitAccounts[i].name
              && s.debitAccounts[i].balance == u.debitAccounts[i].balance
    ensures forall i :: 0 <= i < |u.intlCards| ==>
              && s.intlCards[i].id == u.intlCards[i].id
              && s.intlCards[i].name == u.intlCards[i].name
              && s.intlCards[i].balanceGbpApprox == u.intlCards[i].balanceGbpApprox.GetOr(0.0)
  {
    Snapshot(
      seq(|u.debitAccounts|, i requires 0 <= i < |u.debitAccounts| =>
        var a := u.debitAccounts[i]; DebitView(a.id, a.name, a.balance)),
      seq(|u.creditCards|, i requires 0 <= i < |u.creditCards| =>
        var c := u.creditCards[i];
        CreditView(c.id, c.name, c.currentBalance, c.creditLimit, c.creditLimit - c.currentBalance)),
      seq(|u.intlCards|, i requires 0 <= i < |u.intlCards| =>
        var c := u.intlCards[i]; IntlView(c.id, c.name, c.balanceGbpApprox.GetOr(0.0))))
  }

  /** The receipt `rc` is that of committing the plan to the user at `k`:
      only that user's record changes, it keeps its accounts, its balances
      move by the matching plan lines, and there is one change record per
      matching line, in line order, each naming the line's card, kind, the
      account's name and balance field, its balance just before the line,
      and delta = after - before = the line's signed amount; the snapshot
      shows the user's new balances. */
  predicate CommittedAt(db: seq<User>, k: int, entries: seq<Entry>, rc: Receipt) {
    && 0 <= k < |db| && |rc.db| == |db|
    && (forall j :: 0 <= j < |db| && j != k ==> rc.db[j] == db[j])
    && SameAccounts(rc.db[k], db[k])
    && |rc.changes| == MatchedCount(db[k], entries)
    && RecordsLines(db[k], entries, rc.changes)
    && RecordsOpenings(db[k], entries, rc.changes)
    && CreditOwed(rc.db[k]) == CreditOwed(db[k]) + Sum(MatchedAmounts(db[k], entries, 1))
    && DebitHeld(rc.db[k]) == DebitHeld(db[k]) - Sum(MatchedAmounts(db[k], entries, 2))
    && IntlHeld(rc.db[k]) == IntlHeld(db[k]) - Sum(MatchedAmounts(db[k], entries, 3))
    && Posted(db[k], rc.db[k], entries)
    && rc.snapshot == SnapshotOf(rc.db[k])
  }

  /** Replacing the record at k by the posted one gives the receipt of
      committing the plan to that user. */
  lemma CommitAt(db: seq<User>, k: nat, entries: seq<Entry>)
    requires k < |db|
    ensures var posted := ApplyAll(db[k], entries);
            CommittedAt(db, k, entries, Receipt(posted.changes, SnapshotOf(posted.user), db[k := posted.user]))
  {
    var posted := ApplyAll(db[k], entries);
    ApplyAllMovesBalances(db[k], entries);
    CommitReceipt(db, k, entries, posted.user, posted.changes);
  }

  lemma CommitReceipt(db: seq<User>, k: nat, entries: seq<Entry>, v: User, changes: seq<Change>)
    requires k < |db| && SameAccounts(v, db[k])
    requires |changes| == MatchedCount(db[k], entries)
    requires RecordsLines(db[k], entries, changes) && RecordsOpenings(db[k], entries, changes)
    requires CreditOwed(v) == CreditOwed(db[k]) + Sum(MatchedAmounts(db[k], entries, 1))
    requires DebitHeld(v) == DebitHeld(db[k]) - Sum(MatchedAmounts(db[k], entries, 2))
    requires IntlHeld(v) == IntlHeld(db[k]) - Sum(MatchedAmounts(db[k], entries, 3))
    requires Posted(db[k], v, entries)
    ensures CommittedAt(db, k, entries, Receipt(changes, SnapshotOf(v), db[k := v]))
  {
    assert db[k := v][k] == v;
  }

  /** Commits a plan to the first user with the given id.  It fails exactly
      when no user has that id; otherwise it returns the receipt of
      committing the plan to that user. */
  function Commit(db: seq<User>, userId: string, entries: seq<Entry>): (r: Result<Receipt, CommitError>)
    ensures r.Failure? <==> userId !in UserIds(db)
    ensures r.Failure? ==> r.error == UserNotFound(userId)
    ensures r.Success? ==>
              exists k :: 0 <= k < |db| && db[k].id == userId
                && (forall j :: 0 <= j < k ==> db[j].id != userId)
                && CommittedAt(db, k, entries, r.value)
  {
    match FirstIndex(UserIds(db), userId)
    case None => Failure(UserNotFound(userId))
    case Some(k) =>
      var posted := ApplyAll(db[k], entries);
      CommitAt(db, k, entries);
      Success(Receipt(posted.changes, SnapshotOf(posted.user), db[k := posted.user]))
  }

  /** A commit to a known user succeeds, and its snapshot shows that user's
      accounts with the plan lines posted. */
  lemma CommitShowsBalances(db: seq<User>, userId: string, entries: seq<Entry>)
    requires userId in UserIds(db)
    ensures var r := Commit(db, userId, entries);
            var u := db[FirstIndex(UserIds(db), userId).value];
            && r.Success?
            && ShowsPosted(u, entries, r.value.snapshot)
  {
    var k := FirstIndex(UserIds(db), userId).value;
    var v := ApplyAll(db[k], entries).user;
    assert Commit(db, userId, entries).value.snapshot == SnapshotOf(v);
    PostedSnapshot(db[k], v, entries);
  }

  /** The snapshot shows each credit card's balance raised by the credit
      lines naming it (and the available credit lowered to match), each debit
      account's balance lowered by its lines, and each international card's
      local balance lowered by its lines once any line names it; only the
      first account with a given id is posted to. */
  predicate ShowsPosted(u: User, entries: seq<Entry>, s: Snapshot) {
    && |s.creditCards| == |u.creditCards| && |s.debitAccounts| == |u.debitAccounts| && |s.intlCards| == |u.intlCards|
    && (forall i :: 0 <= i < |u.creditCards| ==>
          var c := u.creditCards[i];
          var owed := c.currentBalance + Owed(CreditIds(u.creditCards), i, entries, 1);
          && s.creditCards[i].currentBalance == owed
          && s.creditCards[i].availableCredit == c.creditLimit - owed)
    && (forall i :: 0 <= i < |u.debitAccounts| ==>
          s.debitAccounts[i].balance == u.debitAccounts[i].balance - Owed(DebitIds(u.debitAccounts), i, entries, 2))
    && (forall i :: 0 <= i < |u.intlCards| ==>
          var c := u.intlCards[i];
          var lines := LineAmounts(entries, 3, c.id);
          s.intlCards[i].balanceGbpApprox
            == if FirstOf(IntlIds(u.intlCards), i) && |lines| > 0
               then c.balanceLocal.GetOr(0.0) - Sum(lines)
               else c.balanceGbpApprox.GetOr(0.0))
  }

  lemma PostedSnapshot(u: User, v: User, entries: seq<Entry>)
    requires Posted(u, v, entries)
    ensures ShowsPosted(u, entries, SnapshotOf(v))
  {
  }

}
