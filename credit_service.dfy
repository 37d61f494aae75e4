/**
 * The credit service: the affordability check, the transactional deduction
 * that logs a spend, the signed adjustment, the 30% markup on external costs,
 * the low-balance flag and the history reads.
 *
 * Each transaction is a function from the ledger to `Ok(new ledger)` or
 * `Err(error)` (the transaction rolled back), and a method on the database
 * that performs it step by step.
 */
module CreditService {
  import opened Wrappers
  import opened Errors
  import opened Store
  import History

  /** A value in a metadata object (the source's `Record<string, any>`, narrowed to what it holds). */
  datatype MetaValue = Text(string) | Number(int)

  type Metadata = map<string, MetaValue>

  datatype CreditOperation = CreditOperation(
    userId: UserId,
    creditsToSpend: int,
    featureUsed: string,
    /** The object the caller serialises into `metadataJson`; accepted and never stored. */
    metadataJson: Option<Metadata>)

  /** Below this balance an account counts as low on credits. */
  const LowCreditThreshold := 100

  /** `hasEnoughCredits`: a missing user can afford nothing. */
  predicate HasEnoughCredits(l: Ledger, u: UserId, required: int) {
    u in l.users && l.users[u].credits >= required
  }

  // ---------------------------------------------------------------------------
  // deductCredits

  /**
   * `deductCredits` as one transaction: it commits exactly when the user can
   * afford the amount, logs one spend with the feature tag and the amount,
   * lowers that user's balance by the amount and touches nothing else.
   */
  function Deduct(l: Ledger, op: CreditOperation, now: int): (r: Result<Ledger, Error>)
    ensures r.Ok? <==> HasEnoughCredits(l, op.userId, op.creditsToSpend)
    ensures op.userId !in l.users ==> r == Err(UserNotFound(op.userId))
    ensures op.userId in l.users && r.Err? ==>
              r.error == InsufficientCredits(op.creditsToSpend, Some(l.users[op.userId].credits))
    ensures r.Ok? ==> BalanceMoved(l, r.value, op.userId, -op.creditsToSpend)
    ensures r.Ok? ==> r.value.users[op.userId].credits >= 0
    ensures r.Ok? ==> r.value.spends == l.spends + [CreditSpend(op.userId, op.featureUsed, op.creditsToSpend, now)]
    ensures r.Ok? ==> r.value.purchases == l.purchases && r.value.adjustments == l.adjustments
  {
    if op.userId !in l.users then
      Err(UserNotFound(op.userId))
    else if l.users[op.userId].credits < op.creditsToSpend then
      Err(InsufficientCredits(op.creditsToSpend, Some(l.users[op.userId].credits)))
    else
      Ok(Spend(l, op.userId, op.featureUsed, op.creditsToSpend, now))
  }

  /** A deduction, committed or not, keeps the schema and the books. */
  lemma DeductKeepsBooks(l: Ledger, op: CreditOperation, now: int)
    requires WellFormed(l) && Ledgered(l)
    ensures WellFormed(After(l, Deduct(l, op, now))) && Ledgered(After(l, Deduct(l, op, now)))
  {
    if Deduct(l, op, now).Ok? {
      SpendKeepsBooks(l, op.userId, op.featureUsed, op.creditsToSpend, now);
    }
  }

  /** Both refusals carry the messages callers search for. */
  lemma DeductRefusalIsInsufficient(l: Ledger, op: CreditOperation, now: int)
    requires op.userId in l.users && Deduct(l, op, now).Err?
    ensures MentionsInsufficient(Deduct(l, op, now).error)
    ensures !MentionsUnauthorized(Deduct(l, op, now).error)
  {
    InsufficientMentionsOnlyInsufficient(op.creditsToSpend, Some(l.users[op.userId].credits));
  }

  method DeductCredits(db: Database, op: CreditOperation, now: int) returns (r: Result<User, Error>)
    modifies db
    ensures db.Snapshot() == After(old(db.Snapshot()), Deduct(old(db.Snapshot()), op, now))
    ensures r.Ok? <==> Deduct(old(db.Snapshot()), op, now).Ok?
    ensures r.Ok? ==> op.userId in db.users && r.value == db.users[op.userId]
    ensures r.Err? ==> r.error == Deduct(old(db.Snapshot()), op, now).error
  {
    if op.userId !in db.users {
      return Err(UserNotFound(op.userId));
    }
    var user := db.users[op.userId];
    if user.credits < op.creditsToSpend {
      return Err(InsufficientCredits(op.creditsToSpend, Some(user.credits)));
    }
    db.spends := db.spends + [CreditSpend(op.userId, op.featureUsed, op.creditsToSpend, now)];
    db.users := db.users[op.userId := user.(credits := user.credits - op.creditsToSpend)];
    r := Ok(db.users[op.userId]);
  }

  // ---------------------------------------------------------------------------
  // addCredits

  /**
   * `addCredits` as one transaction. Nothing checks the user first: for a
   * missing user the database refuses the write and the transaction rolls
   * back. Otherwise one adjustment with the signed amount is logged and the
   * balance moves by exactly that amount, whatever its sign.
   */
  function Add(l: Ledger, u: UserId, amount: int, reason: string, now: int): (r: Result<Ledger, Error>)
    ensures r.Ok? <==> u in l.users
    ensures r.Err? ==> r.error.StoreFault?
    ensures r.Ok? ==> BalanceMoved(l, r.value, u, amount)
    ensures r.Ok? ==> r.value.adjustments == l.adjustments + [CreditAdjustment(u, amount, reason, now)]
    ensures r.Ok? ==> r.value.purchases == l.purchases && r.value.spends == l.spends
  {
    if u !in l.users then Err(StoreFault("no user with id " + u))
    else Ok(Adjust(l, u, amount, reason, now))
  }

  lemma AddKeepsBooks(l: Ledger, u: UserId, amount: int, reason: string, now: int)
    requires WellFormed(l) && Ledgered(l)
    ensures WellFormed(After(l, Add(l, u, amount, reason, now)))
    ensures Ledgered(After(l, Add(l, u, amount, reason, now)))
  {
    if u in l.users {
      AdjustKeepsBooks(l, u, amount, reason, now);
    }
  }

  /** Nothing bounds a negative adjustment: it can take the balance below zero. */
  lemma AddCanGoNegative(l: Ledger, u: UserId, reason: string, now: int)
    requires u in l.users && l.users[u].credits >= 0
    ensures Add(l, u, -l.users[u].credits - 1, reason, now).Ok?
    ensures Add(l, u, -l.users[u].credits - 1, reason, now).value.users[u].credits == -1
  {
  }

  method AddCredits(db: Database, u: UserId, amount: int, reason: string, now: int) returns (r: Result<User, Error>)
    modifies db
    ensures db.Snapshot() == After(old(db.Snapshot()), Add(old(db.Snapshot()), u, amount, reason, now))
    ensures r.Ok? <==> Add(old(db.Snapshot()), u, amount, reason, now).Ok?
    ensures r.Ok? ==> u in db.users && r.value == db.users[u]
    ensures r.Err? ==> r.error == Add(old(db.Snapshot()), u, amount, reason, now).error
  {
    if u !in db.users {
      return Err(StoreFault("no user with id " + u));
    }
    db.adjustments := db.adjustments + [CreditAdjustment(u, amount, reason, now)];
    var user := db.users[u];
    db.users := db.users[u := user.(credits := user.credits + amount)];
    r := Ok(db.users[u]);
  }

  // ---------------------------------------------------------------------------
  // calculateCreditsWithMarkup

  /** `Math.ceil(baseCredits * 1.3)`: the least integer at or above 13/10 of the base. */
  function Markup(baseCredits: int): (total: int)
    ensures 10 * total >= 13 * baseCredits
    ensures 10 * (total - 1) < 13 * baseCredits
  {
    (13 * baseCredits + 9) / 10
  }

  /** Marking up never lowers a non-negative cost. */
  lemma MarkupAtLeastBase(b: int)
    requires b >= 0
    ensures Markup(b) >= b
  {
  }

  lemma {:induction false} MarkupMonotone(a: int, b: int)
    requires a <= b
    ensures Markup(a) <= Markup(b)
  {
    assert 10 * (Markup(a) - 1) < 13 * a <= 13 * b <= 10 * Markup(b);
  }

  lemma MarkupExamples()
    ensures Markup(1) == 2 && Markup(5) == 7 && Markup(10) == 13
    ensures Markup(25) == 33 && Markup(50) == 65
  {
  }

  // ---------------------------------------------------------------------------
  // checkCreditBalance

  datatype Balance = Balance(credits: int, lowCredits: bool)

  function CheckCreditBalance(l: Ledger, u: UserId): (r: Result<Balance, Error>)
    ensures r.Err? <==> u !in l.users
    ensures r.Err? ==> r.error == UserNotFound(u)
    ensures r.Ok? ==> r.value.credits == l.users[u].credits
    ensures r.Ok? ==> (r.value.lowCredits <==> r.value.credits < LowCreditThreshold)
  {
    if u !in l.users then Err(UserNotFound(u))
    else Ok(Balance(l.users[u].credits, l.users[u].credits < LowCreditThreshold))
  }

  lemma LowCreditBoundary(l: Ledger, u: UserId)
    requires u in l.users
    ensures l.users[u].credits == 99 ==> CheckCreditBalance(l, u).value.lowCredits
    ensures l.users[u].credits == 100 ==> !CheckCreditBalance(l, u).value.lowCredits
  {
  }

  // ---------------------------------------------------------------------------
  // getCreditHistory

  datatype CreditHistory = CreditHistory(
    purchases: seq<CreditPurchase>,
    spends: seq<CreditSpend>,
    adjustments: seq<CreditAdjustment>)

  const DefaultHistoryLimit: nat := 10

  function PurchaseOwner(p: CreditPurchase): string { p.userId }
  function PurchaseTime(p: CreditPurchase): int { p.timestamp }
  function SpendOwner(s: CreditSpend): string { s.userId }
  function SpendTime(s: CreditSpend): int { s.timestamp }
  function AdjustmentOwner(a: CreditAdjustment): string { a.userId }
  function AdjustmentTime(a: CreditAdjustment): int { a.timestamp }

  /** The three logs queried with `take: n`, n >= 0: the user's `n` newest rows of each. */
  function RecentHistory(l: Ledger, u: UserId, n: nat): (h: CreditHistory)
    ensures History.RecentOf(h.purchases, l.purchases, PurchaseOwner, PurchaseTime, u, n)
    ensures History.RecentOf(h.spends, l.spends, SpendOwner, SpendTime, u, n)
    ensures History.RecentOf(h.adjustments, l.adjustments, AdjustmentOwner, AdjustmentTime, u, n)
  {
    History.RecentMeetsPromise(l.purchases, PurchaseOwner, PurchaseTime, u, n);
    History.RecentMeetsPromise(l.spends, SpendOwner, SpendTime, u, n);
    History.RecentMeetsPromise(l.adjustments, AdjustmentOwner, AdjustmentTime, u, n);
    CreditHistory(
      History.Recent(l.purchases, PurchaseOwner, PurchaseTime, u, n),
      History.Recent(l.spends, SpendOwner, SpendTime, u, n),
      History.Recent(l.adjustments, AdjustmentOwner, AdjustmentTime, u, n))
  }

  /** The three logs queried with a negative `take: -n`: the user's `n` oldest rows of each, newest first. */
  function OldestHistory(l: Ledger, u: UserId, n: nat): (h: CreditHistory)
    ensures History.OldestOf(h.purchases, l.purchases, PurchaseOwner, PurchaseTime, u, n)
    ensures History.OldestOf(h.spends, l.spends, SpendOwner, SpendTime, u, n)
    ensures History.OldestOf(h.adjustments, l.adjustments, AdjustmentOwner, AdjustmentTime, u, n)
  {
    History.OldestMeetsPromise(l.purchases, PurchaseOwner, PurchaseTime, u, n);
    History.OldestMeetsPromise(l.spends, SpendOwner, SpendTime, u, n);
    History.OldestMeetsPromise(l.adjustments, AdjustmentOwner, AdjustmentTime, u, n);
    CreditHistory(
      History.Oldest(l.purchases, PurchaseOwner, PurchaseTime, u, n),
      History.Oldest(l.spends, SpendOwner, SpendTime, u, n),
      History.Oldest(l.adjustments, AdjustmentOwner, AdjustmentTime, u, n))
  }

  /**
   * `getCreditHistory`: the same query on each of the three logs, passing
   * `limit` to `take` unchanged, so a negative limit lists the oldest rows.
   */
  function GetCreditHistory(l: Ledger, u: UserId, limit: int := DefaultHistoryLimit): (h: CreditHistory)
    ensures limit >= 0 ==>
              && History.RecentOf(h.purchases, l.purchases, PurchaseOwner, PurchaseTime, u, limit)
              && History.RecentOf(h.spends, l.spends, SpendOwner, SpendTime, u, limit)
              && History.RecentOf(h.adjustments, l.adjustments, AdjustmentOwner, AdjustmentTime, u, limit)
    ensures limit < 0 ==>
              && History.OldestOf(h.purchases, l.purchases, PurchaseOwner, PurchaseTime, u, -limit)
              && History.OldestOf(h.spends, l.spends, SpendOwner, SpendTime, u, -limit)
              && History.OldestOf(h.adjustments, l.adjustments, AdjustmentOwner, AdjustmentTime, u, -limit)
  {
    if limit >= 0 then RecentHistory(l, u, limit) else OldestHistory(l, u, -limit)
  }

  /**
   * Two copies of a spend logged twice are counted as two: keeping one copy
   * and a strictly older spend is not a valid answer for a limit of 2.
   */
  lemma CopiesCount(a: CreditSpend, b: CreditSpend)
    requires a.userId == "u" && b.userId == "u" && b.timestamp < a.timestamp
    ensures !History.RecentOf([a, b], [a, a, b], SpendOwner, SpendTime, "u", 2)
    ensures GetCreditHistory(Ledger(map[], [], [a, a, b], []), "u", 2).spends == [a, a]
  {
    OwnsAllThree(a, b);
    assert multiset([a, b])[a] == 1;
    var r := GetCreditHistory(Ledger(map[], [], [a, a, b], []), "u", 2).spends;
    NewestTwoOfThree(r, a, b);
  }

  /** All three rows belong to the one user. */
  lemma OwnsAllThree(a: CreditSpend, b: CreditSpend)
    requires a.userId == "u" && b.userId == "u"
    ensures History.OwnedBy([a, a, b], SpendOwner, "u") == [a, a, b]
  {
    var s := [a, a, b];
    assert s[1..] == [a, b] && s[1..][1..] == [b] && [b][1..] == [];
    assert History.OwnedBy([b], SpendOwner, "u") == [b] + History.OwnedBy([], SpendOwner, "u");
    assert History.OwnedBy(s[1..], SpendOwner, "u") == [a] + History.OwnedBy([b], SpendOwner, "u");
  }

  /** The only answer `RecentOf` allows for a limit of 2: both copies of the newer spend. */
  lemma NewestTwoOfThree(r: seq<CreditSpend>, a: CreditSpend, b: CreditSpend)
    requires b.timestamp < a.timestamp
    requires History.OwnedBy([a, a, b], SpendOwner, "u") == [a, a, b]
    requires History.RecentOf(r, [a, a, b], SpendOwner, SpendTime, "u", 2)
    ensures r == [a, a]
  {
    var s := [a, a, b];
    assert |r| == 2;
    assert r[0] in multiset(s) && r[1] in multiset(s);
    assert r == [r[0], r[1]];
    if r[0] == b || r[1] == b {
      assert false;
    }
  }
}
