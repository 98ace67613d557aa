/** The candidate list handed to the solver: every source with more than a
    penny of safe capacity, credit cards first, then debit accounts (primary
    first, then lowest savings rate first), then international cards. */
module Candidates {
  import opened Common
  import opened Cards
  import opened Capacity
  import opened Benefit
  import opened Selection

  /** A slot must offer strictly more than this to be considered. */
  const MinCapacity: real := 0.01

  /** The per-transaction inputs that every slot's rate depends on. */
  datatype Context = Context(
    category: string,
    paysInFull: bool,
    primarySavingsMonthly: real,
    spend: real,
    today: int,
    daysInMonth: int)

  /** A slot together with its net benefit per pound. */
  datatype Candidate = Candidate(slot: Slot, rate: real)

  function Rated(s: Slot, ctx: Context): Candidate {
    Candidate(s, NetBenefitRate(s, ctx.category, ctx.primarySavingsMonthly, ctx.paysInFull, ctx.spend))
  }

  function CreditCandidate(card: CreditCard, prefs: Preferences, ctx: Context): Candidate {
    Rated(CreditCapacity(card, prefs, ctx.today, ctx.daysInMonth), ctx)
  }

  function DebitCandidate(acc: DebitAccount, ctx: Context): Candidate {
    Rated(DebitCapacity(acc, ctx.today, ctx.daysInMonth), ctx)
  }

  function IntlCandidate(card: IntlCard, ctx: Context): Candidate {
    Rated(IntlCapacity(card), ctx)
  }

  /** Marks the sources offering more than a penny of safe capacity. */
  function Usable(all: seq<Candidate>): (m: seq<bool>)
    ensures |m| == |all| && forall i :: 0 <= i < |all| ==> m[i] == (all[i].slot.capacity > MinCapacity)
  {
    seq(|all|, i requires 0 <= i < |all| => all[i].slot.capacity > MinCapacity)
  }

  /** `r` holds the usable sources of `all`, in the order of `all`. */
  predicate UsableOf(all: seq<Candidate>, r: seq<Candidate>) {
    PickedBy(all, Usable(all), r)
  }

  /** `r` holds the marked elements of `all`, in the order of `all`. */
  predicate PickedBy(all: seq<Candidate>, marks: seq<bool>, r: seq<Candidate>) {
    var ks := Positions(marks);
    |r| == |ks| && forall j :: 0 <= j < |r| ==> ks[j] < |all| && r[j] == all[ks[j]]
  }

  /** Keeping the head when usable and then the usable tail keeps the usable
      sources of the whole list. */
  lemma UsableStep(all: seq<Candidate>, rest: seq<Candidate>)
    requires |all| > 0 && UsableOf(all[1..], rest)
    ensures UsableOf(all, if all[0].slot.capacity > MinCapacity then [all[0]] + rest else rest)
  {
    assert Usable(all)[1..] == Usable(all[1..]);
    PickStep(all, Usable(all), rest);
  }

  lemma PickStep(all: seq<Candidate>, marks: seq<bool>, rest: seq<Candidate>)
    requires |marks| == |all| > 0 && PickedBy(all[1..], marks[1..], rest)
    ensures PickedBy(all, marks, if marks[0] then [all[0]] + rest else rest)
  {
    var ks, tail := Positions(marks), Positions(marks[1..]);
    var shifted := Successors(tail);
    if marks[0] {
      assert ks == [0] + shifted;
      forall j | 0 < j <= |rest|
        ensures ks[j] < |all| && ([all[0]] + rest)[j] == all[ks[j]]
      {
        assert ks[j] == shifted[j - 1] == tail[j - 1] + 1;
        assert all[1..][tail[j - 1]] == all[ks[j]];
      }
    } else {
      assert ks == shifted;
      forall j | 0 <= j < |rest|
        ensures ks[j] < |all| && rest[j] == all[ks[j]]
      {
        assert all[1..][tail[j]] == all[ks[j]];
      }
    }
  }

  /** Every credit card's candidate, in the user's order. */
  function CreditAll(cards: seq<CreditCard>, prefs: Preferences, ctx: Context): (all: seq<Candidate>)
    ensures |all| == |cards| && forall i :: 0 <= i < |cards| ==> all[i] == CreditCandidate(cards[i], prefs, ctx)
  {
    seq(|cards|, i requires 0 <= i < |cards| => CreditCandidate(cards[i], prefs, ctx))
  }

  function DebitAll(accounts: seq<DebitAccount>, ctx: Context): (all: seq<Candidate>)
    ensures |all| == |accounts| && forall i :: 0 <= i < |accounts| ==> all[i] == DebitCandidate(accounts[i], ctx)
  {
    seq(|accounts|, i requires 0 <= i < |accounts| => DebitCandidate(accounts[i], ctx))
  }

  function IntlAll(cards: seq<IntlCard>, ctx: Context): (all: seq<Candidate>)
    ensures |all| == |cards| && forall i :: 0 <= i < |cards| ==> all[i] == IntlCandidate(cards[i], ctx)
  {
    seq(|cards|, i requires 0 <= i < |cards| => IntlCandidate(cards[i], ctx))
  }

  /** Credit cards with usable capacity, in the user's order. */
  function CreditCandidates(cards: seq<CreditCard>, prefs: Preferences, ctx: Context): (r: seq<Candidate>)
    ensures forall c :: c in r ==> c.slot.capacity > MinCapacity && Tier(c.slot) == 1
    ensures forall c :: c in r ==> c == Rated(c.slot, ctx)
    ensures forall card :: card in cards ==>
              (CreditCandidate(card, prefs, ctx) in r <==> CreditCandidate(card, prefs, ctx).slot.capacity > MinCapacity)
    ensures forall c :: c in r ==> exists card :: card in cards && c == CreditCandidate(card, prefs, ctx)
    ensures UsableOf(CreditAll(cards, prefs, ctx), r)
  {
    if |cards| == 0 then []
    else
      var c := CreditCandidate(cards[0], prefs, ctx);
      var rest := CreditCandidates(cards[1..], prefs, ctx);
      CreditStep(cards, prefs, ctx, rest);
      if c.slot.capacity > MinCapacity then [c] + rest else rest
  }

  lemma CreditStep(cards: seq<CreditCard>, prefs: Preferences, ctx: Context, rest: seq<Candidate>)
    requires |cards| > 0 && UsableOf(CreditAll(cards[1..], prefs, ctx), rest)
    ensures UsableOf(CreditAll(cards, prefs, ctx),
                     if CreditCandidate(cards[0], prefs, ctx).slot.capacity > MinCapacity
                     then [CreditCandidate(cards[0], prefs, ctx)] + rest else rest)
  {
    assert CreditAll(cards, prefs, ctx)[1..] == CreditAll(cards[1..], prefs, ctx);
    UsableStep(CreditAll(cards, prefs, ctx), rest);
  }

  /** Debit accounts with usable capacity, in the user's order. */
  function DebitCandidates(accounts: seq<DebitAccount>, ctx: Context): (r: seq<Candidate>)
    ensures forall c :: c in r ==> c.slot.capacity > MinCapacity && Tier(c.slot) == 2
    ensures forall c :: c in r ==> c == Rated(c.slot, ctx)
    ensures forall acc :: acc in accounts ==>
              (DebitCandidate(acc, ctx) in r <==> DebitCandidate(acc, ctx).slot.capacity > MinCapacity)
    ensures forall c :: c in r ==> exists acc :: acc in accounts && c == DebitCandidate(acc, ctx)
    ensures UsableOf(DebitAll(accounts, ctx), r)
  {
    if |accounts| == 0 then []
    else
      var c := DebitCandidate(accounts[0], ctx);
      var rest := DebitCandidates(accounts[1..], ctx);
      DebitStep(accounts, ctx, rest);
      if c.slot.capacity > MinCapacity then [c] + rest else rest
  }

  lemma DebitStep(accounts: seq<DebitAccount>, ctx: Context, rest: seq<Candidate>)
    requires |accounts| > 0 && UsableOf(DebitAll(accounts[1..], ctx), rest)
    ensures UsableOf(DebitAll(accounts, ctx),
                     if DebitCandidate(accounts[0], ctx).slot.capacity > MinCapacity
                     then [DebitCandidate(accounts[0], ctx)] + rest else rest)
  {
    assert DebitAll(accounts, ctx)[1..] == DebitAll(accounts[1..], ctx);
    UsableStep(DebitAll(accounts, ctx), rest);
  }

  /** International cards with usable capacity, in the user's order. */
  function IntlCandidates(cards: seq<IntlCard>, ctx: Context): (r: seq<Candidate>)
    ensures forall c :: c in r ==> c.slot.capacity > MinCapacity && Tier(c.slot) == 3
    ensures forall c :: c in r ==> c == Rated(c.slot, ctx)
    ensures forall card :: card in cards ==>
              (IntlCandidate(card, ctx) in r <==> IntlCandidate(card, ctx).slot.capacity > MinCapacity)
    ensures forall c :: c in r ==> exists card :: card in cards && c == IntlCandidate(card, ctx)
    ensures UsableOf(IntlAll(cards, ctx), r)
  {
    if |cards| == 0 then []
    else
      var c := IntlCandidate(cards[0], ctx);
      var rest := IntlCandidates(cards[1..], ctx);
      IntlStep(cards, ctx, rest);
      if c.slot.capacity > MinCapacity then [c] + rest else rest
  }

  lemma IntlStep(cards: seq<IntlCard>, ctx: Context, rest: seq<Candidate>)
    requires |cards| > 0 && UsableOf(IntlAll(cards[1..], ctx), rest)
    ensures UsableOf(IntlAll(cards, ctx),
                     if IntlCandidate(cards[0], ctx).slot.capacity > MinCapacity
                     then [IntlCandidate(cards[0], ctx)] + rest else rest)
  {
    assert IntlAll(cards, ctx)[1..] == IntlAll(cards[1..], ctx);
    UsableStep(IntlAll(cards, ctx), rest);
  }

  /** Sort key of a debit slot: not-primary (false sorts first), then the
      monthly savings rate. */
  function NotPrimary(c: Candidate): bool {
    c.slot.kind.DebitSlot? && !c.slot.kind.isPrimary
  }

  function SavingsRate(c: Candidate): real {
    if c.slot.kind.DebitSlot? then c.slot.kind.savingsRateMonthly else 0.0
  }

  /** Key order: primary before non-primary, then lower savings rate first. */
  predicate DebitLe(a: Candidate, b: Candidate) {
    || (!NotPrimary(a) && NotPrimary(b))
    || (NotPrimary(a) == NotPrimary(b) && SavingsRate(a) <= SavingsRate(b))
  }

  predicate DebitOrdered(s: seq<Candidate>) {
    forall i :: 0 < i < |s| ==> DebitLe(s[i - 1], s[i])
  }

  /** Places x before the first element it does not sort after, so that
      equal keys keep their input order. */
  function InsertDebit(x: Candidate, s: seq<Candidate>): (r: seq<Candidate>)
    requires DebitOrdered(s)
    ensures multiset(r) == multiset(s) + multiset{x}
    ensures DebitOrdered(r)
    ensures |r| > 0 && (r[0] == x || (|s| > 0 && r[0] == s[0]))
  {
    if |s| == 0 || DebitLe(x, s[0]) then [x] + s
    else
      var rest := InsertDebit(x, s[1..]);
      assert s == [s[0]] + s[1..];
      [s[0]] + rest
  }

  /** Stable insertion sort on the debit key. */
  function SortDebits(s: seq<Candidate>): (r: seq<Candidate>)
    ensures multiset(r) == multiset(s)
    ensures DebitOrdered(r)
  {
    if |s| == 0 then []
    else
      assert s == [s[0]] + s[1..];
      InsertDebit(s[0], SortDebits(s[1..]))
  }

  /** Tiers never decrease along the list. */
  predicate TierOrdered(r: seq<Candidate>) {
    forall i, j :: 0 <= i <= j < |r| ==> Tier(r[i].slot) <= Tier(r[j].slot)
  }

  /** Consecutive debit slots are in debit key order. */
  predicate DebitRunOrdered(r: seq<Candidate>) {
    forall i :: 0 < i < |r| && Tier(r[i - 1].slot) == 2 && Tier(r[i].slot) == 2 ==> DebitLe(r[i - 1], r[i])
  }

  predicate AllOfTier(r: seq<Candidate>, t: int) {
    forall c :: c in r ==> Tier(c.slot) == t
  }

  lemma TierLayers(credit: seq<Candidate>, debit: seq<Candidate>, intl: seq<Candidate>)
    requires AllOfTier(credit, 1) && AllOfTier(debit, 2) && AllOfTier(intl, 3)
    requires DebitOrdered(debit)
    ensures TierOrdered(credit + debit + intl)
    ensures DebitRunOrdered(credit + debit + intl)
  {
    var r := credit + debit + intl;
    assert forall i :: 0 <= i < |credit| ==> r[i] == credit[i];
    assert forall i :: |credit| <= i < |credit| + |debit| ==> r[i] == debit[i - |credit|];
    assert forall i :: |credit| + |debit| <= i < |r| ==> r[i] == intl[i - |credit| - |debit|];
    assert forall i :: 0 <= i < |r| ==>
      (Tier(r[i].slot) == 1 <==> i < |credit|) && (Tier(r[i].slot) == 2 <==> |credit| <= i < |credit| + |debit|);
  }

  lemma ThreeParts(a: seq<Candidate>, b: seq<Candidate>, c: seq<Candidate>)
    ensures var r := a + b + c;
            && r[..|a|] == a && r[|a|..|r| - |c|] == b && r[|r| - |c|..] == c
  {
  }

  /** The candidate list, in the order the solver sees it. */
  function BuildCandidates(user: User, ctx: Context): (r: seq<Candidate>)
    ensures forall c :: c in r ==> c.slot.capacity > MinCapacity && c == Rated(c.slot, ctx)
    ensures TierOrdered(r)
    ensures DebitRunOrdered(r)
    ensures multiset(r) == multiset(CreditCandidates(user.creditCards, user.prefs, ctx))
                         + multiset(DebitCandidates(user.debitAccounts, ctx))
                         + multiset(IntlCandidates(user.intlCards, ctx))
    ensures var credit, intl := CreditCandidates(user.creditCards, user.prefs, ctx), IntlCandidates(user.intlCards, ctx);
            && |credit| + |intl| <= |r|
            && r[..|credit|] == credit
            && r[|r| - |intl|..] == intl
            && multiset(r[|credit|..|r| - |intl|]) == multiset(DebitCandidates(user.debitAccounts, ctx))
            && DebitOrdered(r[|credit|..|r| - |intl|])
  {
    var credit := CreditCandidates(user.creditCards, user.prefs, ctx);
    var unsorted := DebitCandidates(user.debitAccounts, ctx);
    var debit := SortDebits(unsorted);
    var intl := IntlCandidates(user.intlCards, ctx);
    assert forall c :: c in debit ==> c in unsorted by {
      forall c | c in debit ensures c in unsorted {
        assert c in multiset(debit);
      }
    }
    TierLayers(credit, debit, intl);
    assert forall c :: c in credit + debit + intl ==> c in credit || c in debit || c in intl;
    ThreeParts(credit, debit, intl);
    credit + debit + intl
  }
}
