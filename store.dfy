/**
 * The database the credit ledger lives in: the `User` table with its integer
 * `credits` balance and the three append-only logs `CreditPurchase`,
 * `CreditSpend` and `CreditAdjustment`.
 *
 * `Ledger` is the value of the four tables at one moment; `Database` is the
 * mutable store the services and routes write to. Each write the source
 * performs (one transaction, or one bare update) is a function from one
 * `Ledger` to the next, and the lemmas below say which of them keep the
 * books: balance = 500 + purchases - spends + adjustments, per user.
 */
module Store {
  import opened Wrappers

  type UserId = string

  datatype User = User(
    id: UserId,
    name: Option<string>,
    email: Option<string>,
    emailVerified: Option<int>,
    image: Option<string>,
    credits: int)

  datatype CreditPurchase = CreditPurchase(
    userId: UserId,
    stripePaymentIntentId: string,
    creditsPurchased: int,
    amountPaid: int,
    currency: string,
    timestamp: int)

  datatype CreditSpend = CreditSpend(
    userId: UserId,
    featureUsed: string,
    creditsSpent: int,
    timestamp: int)

  datatype CreditAdjustment = CreditAdjustment(
    userId: UserId,
    amount: int,
    reason: string,
    timestamp: int)

  datatype Ledger = Ledger(
    users: map<UserId, User>,
    purchases: seq<CreditPurchase>,
    spends: seq<CreditSpend>,
    adjustments: seq<CreditAdjustment>)

  /** The grant every account receives when it is created. */
  const InitialCredits := 500

  // ---------------------------------------------------------------------------
  // Per-user totals of the three logs

  function Purchased(ps: seq<CreditPurchase>, u: UserId): int {
    if ps == [] then 0
    else Purchased(ps[..|ps| - 1], u) + (if ps[|ps| - 1].userId == u then ps[|ps| - 1].creditsPurchased else 0)
  }

  function Spent(ss: seq<CreditSpend>, u: UserId): int {
    if ss == [] then 0
    else Spent(ss[..|ss| - 1], u) + (if ss[|ss| - 1].userId == u then ss[|ss| - 1].creditsSpent else 0)
  }

  function Adjusted(adj: seq<CreditAdjustment>, u: UserId): int {
    if adj == [] then 0
    else Adjusted(adj[..|adj| - 1], u) + (if adj[|adj| - 1].userId == u then adj[|adj| - 1].amount else 0)
  }

  lemma PurchasedAppend(ps: seq<CreditPurchase>, p: CreditPurchase, u: UserId)
    ensures Purchased(ps + [p], u) == Purchased(ps, u) + (if p.userId == u then p.creditsPurchased else 0)
  {
    assert (ps + [p])[..|ps|] == ps;
  }

  lemma SpentAppend(ss: seq<CreditSpend>, s: CreditSpend, u: UserId)
    ensures Spent(ss + [s], u) == Spent(ss, u) + (if s.userId == u then s.creditsSpent else 0)
  {
    assert (ss + [s])[..|ss|] == ss;
  }

  lemma AdjustedAppend(adj: seq<CreditAdjustment>, a: CreditAdjustment, u: UserId)
    ensures Adjusted(adj + [a], u) == Adjusted(adj, u) + (if a.userId == u then a.amount else 0)
  {
    assert (adj + [a])[..|adj|] == adj;
  }

  /** A user no row refers to has nothing in any log. */
  lemma {:induction false} NoRowsNoTotals(l: Ledger, u: UserId)
    requires forall i :: 0 <= i < |l.purchases| ==> l.purchases[i].userId != u
    requires forall i :: 0 <= i < |l.spends| ==> l.spends[i].userId != u
    requires forall i :: 0 <= i < |l.adjustments| ==> l.adjustments[i].userId != u
    ensures Purchased(l.purchases, u) == 0 && Spent(l.spends, u) == 0 && Adjusted(l.adjustments, u) == 0
    decreases |l.purchases| + |l.spends| + |l.adjustments|
  {
    if l.purchases != [] {
      NoRowsNoTotals(l.(purchases := l.purchases[..|l.purchases| - 1]), u);
    } else if l.spends != [] {
      NoRowsNoTotals(l.(spends := l.spends[..|l.spends| - 1]), u);
    } else if l.adjustments != [] {
      NoRowsNoTotals(l.(adjustments := l.adjustments[..|l.adjustments| - 1]), u);
    }
  }

  // ---------------------------------------------------------------------------
  // Invariants

  /**
   * What the schema guarantees: users are stored under their id, a non-null
   * email belongs to at most one user, a payment intent is purchased at most
   * once, and every log row refers to an existing user.
   */
  ghost predicate WellFormed(l: Ledger) {
    && (forall k :: k in l.users ==> l.users[k].id == k)
    && (forall a, b ::
          (a in l.users && b in l.users && l.users[a].email.Some? && l.users[a].email == l.users[b].email)
          ==> a == b)
    && (forall i, j :: 0 <= i < j < |l.purchases| ==>
          l.purchases[i].stripePaymentIntentId != l.purchases[j].stripePaymentIntentId)
    && (forall i :: 0 <= i < |l.purchases| ==> l.purchases[i].userId in l.users)
    && (forall i :: 0 <= i < |l.spends| ==> l.spends[i].userId in l.users)
    && (forall i :: 0 <= i < |l.adjustments| ==> l.adjustments[i].userId in l.users)
  }

  /** The balance column is the running total of the user's log rows. */
  ghost predicate Balanced(l: Ledger, u: UserId)
    requires u in l.users
  {
    l.users[u].credits
      == InitialCredits + Purchased(l.purchases, u) - Spent(l.spends, u) + Adjusted(l.adjustments, u)
  }

  ghost predicate Ledgered(l: Ledger) {
    forall u :: u in l.users ==> Balanced(l, u)
  }

  function Empty(): (l: Ledger)
    ensures WellFormed(l) && Ledgered(l)
  {
    Ledger(map[], [], [], [])
  }

  /** `l2` differs from `l` in user `u`'s balance only, which moved by `delta`. */
  ghost predicate BalanceMoved(l: Ledger, l2: Ledger, u: UserId, delta: int) {
    && u in l.users
    && l2.users.Keys == l.users.Keys
    && l2.users[u] == l.users[u].(credits := l.users[u].credits + delta)
    && (forall v :: v in l.users && v != u ==> l2.users[v] == l.users[v])
  }

  /** Two moves of one user's balance are one move by their sum. */
  lemma BalanceMovedTwice(l: Ledger, l2: Ledger, l3: Ledger, u: UserId, a: int, b: int)
    requires BalanceMoved(l, l2, u, a) && BalanceMoved(l2, l3, u, b)
    ensures BalanceMoved(l, l3, u, a + b)
  {
  }

  /** The state a transaction leaves: its new ledger when it commits, the old one when it throws. */
  function After<E>(before: Ledger, t: Result<Ledger, E>): Ledger {
    if t.Ok? then t.value else before
  }

  // ---------------------------------------------------------------------------
  // Lookups

  /** `prisma.user.findUnique({ where: { email } })`. */
  function FindUserByEmail(l: Ledger, email: string): (r: Option<UserId>)
    requires WellFormed(l)
    ensures r.Some? ==> r.value in l.users && l.users[r.value].email == Some(email)
    ensures r.None? ==> forall k :: k in l.users ==> l.users[k].email != Some(email)
  {
    if exists k :: k in l.users && l.users[k].email == Some(email) then
      var k :| k in l.users && l.users[k].email == Some(email); Some(k)
    else
      None
  }

  /** `prisma.creditPurchase.findUnique({ where: { stripePaymentIntentId } })`. */
  function FindPurchase(ps: seq<CreditPurchase>, intent: string): (r: Option<CreditPurchase>)
    ensures r.Some? ==> r.value in ps && r.value.stripePaymentIntentId == intent
    ensures r.None? ==> forall i :: 0 <= i < |ps| ==> ps[i].stripePaymentIntentId != intent
  {
    if ps == [] then None
    else if ps[0].stripePaymentIntentId == intent then Some(ps[0])
    else FindPurchase(ps[1..], intent)
  }

  // ---------------------------------------------------------------------------
  // The writes, each one atomic step

  /** Insert a CreditSpend row and decrement the balance by the same amount. */
  function Spend(l: Ledger, u: UserId, featureUsed: string, amount: int, now: int): Ledger
    requires u in l.users
  {
    l.(users := l.users[u := l.users[u].(credits := l.users[u].credits - amount)],
       spends := l.spends + [CreditSpend(u, featureUsed, amount, now)])
  }

  /** Insert a CreditAdjustment row and add its (signed) amount to the balance. */
  function Adjust(l: Ledger, u: UserId, amount: int, reason: string, now: int): Ledger
    requires u in l.users
  {
    l.(users := l.users[u := l.users[u].(credits := l.users[u].credits + amount)],
       adjustments := l.adjustments + [CreditAdjustment(u, amount, reason, now)])
  }

  /** Insert a CreditPurchase row and increment the balance by the credits granted. */
  function Purchase(l: Ledger, u: UserId, intent: string, credits: int, amountPaid: int,
                    currency: string, now: int): Ledger
    requires u in l.users
  {
    l.(users := l.users[u := l.users[u].(credits := l.users[u].credits + credits)],
       purchases := l.purchases + [CreditPurchase(u, intent, credits, amountPaid, currency, now)])
  }

  /** Insert a User row. */
  function AddUser(l: Ledger, user: User): Ledger {
    l.(users := l.users[user.id := user])
  }

  /** A bare `credits: { decrement }` update with no log row. */
  function Decrement(l: Ledger, u: UserId, amount: int): Ledger
    requires u in l.users
  {
    l.(users := l.users[u := l.users[u].(credits := l.users[u].credits - amount)])
  }

  // ---------------------------------------------------------------------------
  // Which writes keep the books

  lemma {:induction false} SpendKeepsBooks(l: Ledger, u: UserId, featureUsed: string, amount: int, now: int)
    requires WellFormed(l) && Ledgered(l) && u in l.users
    ensures WellFormed(Spend(l, u, featureUsed, amount, now))
    ensures Ledgered(Spend(l, u, featureUsed, amount, now))
  {
    var l' := Spend(l, u, featureUsed, amount, now);
    forall v | v in l'.users
      ensures Balanced(l', v)
    {
      SpentAppend(l.spends, CreditSpend(u, featureUsed, amount, now), v);
      assert Balanced(l, v);
    }
  }

  lemma {:induction false} AdjustKeepsBooks(l: Ledger, u: UserId, amount: int, reason: string, now: int)
    requires WellFormed(l) && Ledgered(l) && u in l.users
    ensures WellFormed(Adjust(l, u, amount, reason, now))
    ensures Ledgered(Adjust(l, u, amount, reason, now))
  {
    var l' := Adjust(l, u, amount, reason, now);
    forall v | v in l'.users
      ensures Balanced(l', v)
    {
      AdjustedAppend(l.adjustments, CreditAdjustment(u, amount, reason, now), v);
      assert Balanced(l, v);
    }
  }

  lemma {:induction false} PurchaseKeepsBooks(l: Ledger, u: UserId, intent: string, credits: int,
                                              amountPaid: int, currency: string, now: int)
    requires WellFormed(l) && Ledgered(l) && u in l.users
    requires FindPurchase(l.purchases, intent).None?
    ensures WellFormed(Purchase(l, u, intent, credits, amountPaid, currency, now))
    ensures Ledgered(Purchase(l, u, intent, credits, amountPaid, currency, now))
  {
    var l' := Purchase(l, u, intent, credits, amountPaid, currency, now);
    forall v | v in l'.users
      ensures Balanced(l', v)
    {
      PurchasedAppend(l.purchases, CreditPurchase(u, intent, credits, amountPaid, currency, now), v);
      assert Balanced(l, v);
    }
  }

  /** A new user with the initial grant and an id no row mentions starts balanced. */
  lemma {:induction false} AddUserKeepsBooks(l: Ledger, user: User)
    requires WellFormed(l) && Ledgered(l)
    requires user.id !in l.users && user.credits == InitialCredits
    requires user.email.Some? ==> FindUserByEmail(l, user.email.value).None?
    ensures WellFormed(AddUser(l, user))
    ensures Ledgered(AddUser(l, user))
  {
    var l' := AddUser(l, user);
    NoRowsNoTotals(l, user.id);
    forall v | v in l'.users
      ensures Balanced(l', v)
    {
      if v != user.id {
        assert Balanced(l, v);
      }
    }
  }

  /** The bare decrement keeps the schema but breaks the books for that user. */
  lemma DecrementBreaksBooks(l: Ledger, u: UserId, amount: int)
    requires WellFormed(l) && u in l.users && Balanced(l, u) && amount != 0
    ensures WellFormed(Decrement(l, u, amount))
    ensures !Balanced(Decrement(l, u, amount), u)
  {
  }

  // ---------------------------------------------------------------------------
  // The store itself

  class Database {
    var users: map<UserId, User>
    var purchases: seq<CreditPurchase>
    var spends: seq<CreditSpend>
    var adjustments: seq<CreditAdjustment>

    function Snapshot(): Ledger
      reads this
    {
      Ledger(users, purchases, spends, adjustments)
    }

    constructor ()
      ensures Snapshot() == Empty()
    {
      users, purchases, spends, adjustments := map[], [], [], [];
    }
  }
}
