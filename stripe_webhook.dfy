/**
 * The Stripe webhook: the credit packages keyed by their price ids, the
 * award of a package when a checkout completes (at most once per payment
 * intent), and the reversal of a purchase when its charge is refunded.
 *
 * The signature check (`constructEvent`) is outside the model: the handler
 * is given its outcome, the event or the error message.
 */
module StripeWebhook {
  import opened Wrappers
  import opened Store

  // ---------------------------------------------------------------------------
  // Credit packages

  datatype Package = Package(credits: int, bonus: int, total: int, amount: int)

  /** The six `STRIPE_PRICE_ID_*` settings the table is keyed by. */
  datatype PriceIds = PriceIds(
    p1000: string, p5050: string, p11000: string,
    p23000: string, p62500: string, p140000: string)

  /** The table's entries, in the order the object literal lists them. */
  function PackageEntries(ids: PriceIds): seq<(string, Package)> {
    [(ids.p1000, Package(1000, 0, 1000, 100)),
     (ids.p5050, Package(5000, 50, 5050, 500)),
     (ids.p11000, Package(10000, 1000, 11000, 1000)),
     (ids.p23000, Package(20000, 3000, 23000, 2000)),
     (ids.p62500, Package(50000, 12500, 62500, 5000)),
     (ids.p140000, Package(100000, 40000, 140000, 10000))]
  }

  /** The object an object literal builds: a later entry with the same key replaces an earlier one. */
  function Table(es: seq<(string, Package)>): map<string, Package> {
    if es == [] then map[] else Table(es[..|es| - 1])[es[|es| - 1].0 := es[|es| - 1].1]
  }

  /** The table's keys are the entries' keys. */
  lemma {:induction false} TableKeys(es: seq<(string, Package)>)
    ensures forall k :: k in Table(es) <==> exists i :: 0 <= i < |es| && es[i].0 == k
  {
    if es != [] {
      var prefix := es[..|es| - 1];
      TableKeys(prefix);
      assert forall i :: 0 <= i < |prefix| ==> prefix[i] == es[i];
    }
  }

  /** `Object.keys`: each key once, in the order it was first written. */
  function Keys(es: seq<(string, Package)>): (ks: seq<string>)
    ensures forall k :: k in ks <==> k in Table(es)
    ensures forall i, j :: 0 <= i < j < |ks| ==> ks[i] != ks[j]
  {
    if es == [] then []
    else
      var prefix := es[..|es| - 1];
      var ks0 := Keys(prefix);
      var k := es[|es| - 1].0;
      if k in ks0 then ks0 else ks0 + [k]
  }

  /** `Object.keys(CREDIT_PACKAGES).find(pid => CREDIT_PACKAGES[pid].amount === amountTotal / 100)`. */
  function FindByAmount(ks: seq<string>, t: map<string, Package>, amountTotal: int): (r: Option<string>)
    requires forall k :: k in ks ==> k in t
    ensures r.Some? ==> exists i :: 0 <= i < |ks| && ks[i] == r.value && 100 * t[ks[i]].amount == amountTotal
                                      && forall j :: 0 <= j < i ==> 100 * t[ks[j]].amount != amountTotal
    ensures r.None? ==> forall k :: k in ks ==> 100 * t[k].amount != amountTotal
  {
    if ks == [] then None
    else if 100 * t[ks[0]].amount == amountTotal then Some(ks[0])
    else
      var r := FindByAmount(ks[1..], t, amountTotal);
      assert forall i :: 1 <= i < |ks| ==> ks[i] == ks[1..][i - 1];
      if r.Some? then
        var i :| 0 <= i < |ks[1..]| && ks[1..][i] == r.value && 100 * t[ks[1..][i]].amount == amountTotal
                 && forall j :: 0 <= j < i ==> 100 * t[ks[1..][j]].amount != amountTotal;
        assert ks[i + 1] == r.value;
        r
      else r
  }

  /** Only one key matches: it is the one found. */
  lemma FindByAmountUnique(ks: seq<string>, t: map<string, Package>, amountTotal: int, k: string)
    requires forall k :: k in ks ==> k in t
    requires k in ks && 100 * t[k].amount == amountTotal
    requires forall k' :: k' in ks && k' != k ==> 100 * t[k'].amount != amountTotal
    ensures FindByAmount(ks, t, amountTotal) == Some(k)
  {
  }

  /** The value an entry leaves in the table when no later entry has its key. */
  lemma {:induction false} TableAt(es: seq<(string, Package)>, i: nat)
    requires i < |es|
    requires forall j :: i < j < |es| ==> es[j].0 != es[i].0
    ensures es[i].0 in Table(es) && Table(es)[es[i].0] == es[i].1
  {
    if i < |es| - 1 {
      var prefix := es[..|es| - 1];
      assert forall j :: 0 <= j < |prefix| ==> prefix[j] == es[j];
      TableAt(prefix, i);
    }
  }

  /** Every package grants its credits plus its bonus, whatever the price ids. */
  lemma {:induction false} TotalsAddUp(es: seq<(string, Package)>)
    requires forall i :: 0 <= i < |es| ==> es[i].1.total == es[i].1.credits + es[i].1.bonus
    ensures forall k :: k in Table(es) ==> Table(es)[k].total == Table(es)[k].credits + Table(es)[k].bonus
  {
    if es != [] {
      TotalsAddUp(es[..|es| - 1]);
    }
  }

  lemma PackageTotalsAddUp(ids: PriceIds)
    ensures forall k :: k in Table(PackageEntries(ids)) ==>
              Table(PackageEntries(ids))[k].total == Table(PackageEntries(ids))[k].credits + Table(PackageEntries(ids))[k].bonus
  {
    TotalsAddUp(PackageEntries(ids));
  }

  /** No two of the six price id settings are equal. */
  predicate Distinct(ids: PriceIds) {
    var ps := [ids.p1000, ids.p5050, ids.p11000, ids.p23000, ids.p62500, ids.p140000];
    forall i, j :: 0 <= i < j < |ps| ==> ps[i] != ps[j]
  }

  /** When the six price ids differ, an `amount_total` of 50000 maps to the 5050-credit package. */
  lemma MatchByAmount(ids: PriceIds)
    requires Distinct(ids)
    ensures ids.p5050 in Table(PackageEntries(ids)) && Table(PackageEntries(ids))[ids.p5050].total == 5050
    ensures FindByAmount(Keys(PackageEntries(ids)), Table(PackageEntries(ids)), 50000) == Some(ids.p5050)
  {
    var es := PackageEntries(ids);
    var t := Table(es);
    var ps := [ids.p1000, ids.p5050, ids.p11000, ids.p23000, ids.p62500, ids.p140000];
    assert forall i :: 0 <= i < 6 ==> es[i].0 == ps[i];
    forall i | 0 <= i < 6
      ensures es[i].0 in t && t[es[i].0] == es[i].1
    {
      TableAt(es, i);
    }
    TableKeys(es);
    forall k | k in t && k != ids.p5050
      ensures 100 * t[k].amount != 50000
    {
      var i :| 0 <= i < 6 && es[i].0 == k;
    }
    assert es[1].0 == ids.p5050 && es[1].1.amount == 500;
    assert ids.p5050 in Keys(es);
    FindByAmountUnique(Keys(es), t, 50000, ids.p5050);
  }

  // ---------------------------------------------------------------------------
  // Events

  /** The fields of a checkout session the handler reads; each is `None` when absent or not a string/number. */
  datatype Session = Session(
    customerEmail: Option<string>,
    paymentIntent: Option<string>,
    metadataPriceId: Option<string>,
    mode: Option<string>,
    amountTotal: Option<int>,
    currency: Option<string>)

  datatype Event =
    | CheckoutCompleted(session: Session)
    | ChargeRefunded(paymentIntent: string)
    | Other(eventType: string)

  /** Which branch a handled event took (the source logs it). */
  datatype Outcome =
    | UnknownPackage
    | MissingPaymentIntent
    | AlreadyProcessed
    | MissingEmail
    | UnknownCustomer
    | Awarded(userId: UserId, credits: int)
    | NoMatchingPurchase
    | RefundUserMissing
    | Refunded(userId: UserId, credits: int)
    | Unhandled

  /** The package a session pays for: the price id in its metadata, else the one whose price is the amount paid. */
  function PurchasedPriceId(ids: PriceIds, s: Session): (p: Option<string>)
    ensures s.metadataPriceId.None? && p.Some? ==>
              && s.mode == Some("payment") && s.amountTotal.Some?
              && p.value in Table(PackageEntries(ids))
              && 100 * Table(PackageEntries(ids))[p.value].amount == s.amountTotal.value
  {
    if s.metadataPriceId.Some? then s.metadataPriceId
    else if s.mode == Some("payment") && s.amountTotal.Some? then
      FindByAmount(Keys(PackageEntries(ids)), Table(PackageEntries(ids)), s.amountTotal.value)
    else None
  }

  /**
   * `checkout.session.completed`: award the package's total credits to the
   * customer, once per payment intent, with one purchase row.
   */
  function Checkout(l: Ledger, ids: PriceIds, s: Session, now: int): (r: (Ledger, Outcome))
    requires WellFormed(l)
    ensures !r.1.Awarded? ==> r.0 == l
    ensures r.1.Awarded? ==>
              && Truthy(s.paymentIntent)
              && FindPurchase(l.purchases, s.paymentIntent.value).None?
              && BalanceMoved(l, r.0, r.1.userId, r.1.credits)
              && r.0.purchases == l.purchases + [CreditPurchase(r.1.userId, s.paymentIntent.value, r.1.credits,
                                                                s.amountTotal.GetOr(0), s.currency.GetOr("usd"), now)]
              && r.0.spends == l.spends && r.0.adjustments == l.adjustments
              && l.users[r.1.userId].email == s.customerEmail
              && PurchasedPriceId(ids, s).Some? && PurchasedPriceId(ids, s).value in Table(PackageEntries(ids))
              && r.1.credits == Table(PackageEntries(ids))[PurchasedPriceId(ids, s).value].total
    ensures Truthy(s.paymentIntent) && FindPurchase(l.purchases, s.paymentIntent.value).Some? ==> !r.1.Awarded?
    ensures && Truthy(PurchasedPriceId(ids, s)) && PurchasedPriceId(ids, s).value in Table(PackageEntries(ids))
            && Truthy(s.paymentIntent) && FindPurchase(l.purchases, s.paymentIntent.value).None?
            && Truthy(s.customerEmail) && FindUserByEmail(l, s.customerEmail.value).Some?
            ==> r.1 == Awarded(FindUserByEmail(l, s.customerEmail.value).value,
                               Table(PackageEntries(ids))[PurchasedPriceId(ids, s).value].total)
  {
    var table := Table(PackageEntries(ids));
    var priceId := PurchasedPriceId(ids, s);
    if !Truthy(priceId) || priceId.value !in table then (l, UnknownPackage)
    else if !Truthy(s.paymentIntent) then (l, MissingPaymentIntent)
    else if FindPurchase(l.purchases, s.paymentIntent.value).Some? then (l, AlreadyProcessed)
    else if !Truthy(s.customerEmail) then (l, MissingEmail)
    else
      match FindUserByEmail(l, s.customerEmail.value)
      case None => (l, UnknownCustomer)
      case Some(u) =>
        var total := table[priceId.value].total;
        (Purchase(l, u, s.paymentIntent.value, total, s.amountTotal.GetOr(0), s.currency.GetOr("usd"), now),
         Awarded(u, total))
  }

  /** Stripe may deliver an event again: the replay finds the purchase and changes nothing. */
  lemma CheckoutReplayIsNoOp(l: Ledger, ids: PriceIds, s: Session, now: int, later: int)
    requires WellFormed(l) && Ledgered(l)
    ensures WellFormed(Checkout(l, ids, s, now).0)
    ensures Checkout(Checkout(l, ids, s, now).0, ids, s, later).0 == Checkout(l, ids, s, now).0
  {
    var first := Checkout(l, ids, s, now);
    CheckoutKeepsBooks(l, ids, s, now);
    if first.1.Awarded? {
      var intent := s.paymentIntent.value;
      var l2 := first.0;
      assert l2.purchases[|l2.purchases| - 1].stripePaymentIntentId == intent;
      FindPurchaseSees(l2.purchases, |l2.purchases| - 1, intent);
    }
  }

  /** A row with the intent is found. */
  lemma {:induction false} FindPurchaseSees(ps: seq<CreditPurchase>, i: nat, intent: string)
    requires i < |ps| && ps[i].stripePaymentIntentId == intent
    ensures FindPurchase(ps, intent).Some?
  {
    if ps[0].stripePaymentIntentId != intent {
      FindPurchaseSees(ps[1..], i - 1, intent);
    }
  }

  lemma CheckoutKeepsBooks(l: Ledger, ids: PriceIds, s: Session, now: int)
    requires WellFormed(l) && Ledgered(l)
    ensures WellFormed(Checkout(l, ids, s, now).0) && Ledgered(Checkout(l, ids, s, now).0)
  {
    var table := Table(PackageEntries(ids));
    var priceId := PurchasedPriceId(ids, s);
    if Truthy(priceId) && priceId.value in table && Truthy(s.paymentIntent)
       && FindPurchase(l.purchases, s.paymentIntent.value).None? && Truthy(s.customerEmail)
    {
      match FindUserByEmail(l, s.customerEmail.value) {
        case None =>
        case Some(u) =>
          PurchaseKeepsBooks(l, u, s.paymentIntent.value, table[priceId.value].total,
                             s.amountTotal.GetOr(0), s.currency.GetOr("usd"), now);
      }
    }
  }

  /** The reason logged with a refund's adjustment. */
  function RefundReason(intent: string): string {
    "Refund for Stripe paymentIntent " + intent
  }

  /** The signed adjustment amount that takes `credits` back. */
  function Reversal(credits: int): int {
    -credits
  }

  /**
   * `charge.refunded`: take back what the intent's purchase granted, with
   * one adjustment row. Nothing checks for an earlier refund of the same
   * intent, and a partial refund takes back the whole grant.
   */
  function Refund(l: Ledger, intent: string, now: int): (r: (Ledger, Outcome))
    ensures !r.1.Refunded? ==> r.0 == l
    ensures (FindPurchase(l.purchases, intent).Some? && FindPurchase(l.purchases, intent).value.userId in l.users)
            <==> r.1.Refunded?
  {
    match FindPurchase(l.purchases, intent)
    case None => (l, NoMatchingPurchase)
    case Some(p) =>
      if p.userId !in l.users then (l, RefundUserMissing)
      else (Adjust(l, p.userId, Reversal(p.creditsPurchased), RefundReason(intent), now), Refunded(p.userId, p.creditsPurchased))
  }

  /** A refund takes back exactly what the intent's purchase granted, and logs it. */
  lemma RefundTakesBackGrant(l: Ledger, intent: string, now: int)
    requires Refund(l, intent, now).1.Refunded?
    ensures var (l2, o) := Refund(l, intent, now);
      && FindPurchase(l.purchases, intent).Some?
      && o.userId == FindPurchase(l.purchases, intent).value.userId
      && o.credits == FindPurchase(l.purchases, intent).value.creditsPurchased
      && BalanceMoved(l, l2, o.userId, -o.credits)
      && l2.adjustments == l.adjustments + [CreditAdjustment(o.userId, -o.credits, RefundReason(intent), now)]
      && l2.purchases == l.purchases && l2.spends == l.spends
  {
  }

  lemma RefundKeepsBooks(l: Ledger, intent: string, now: int)
    requires WellFormed(l) && Ledgered(l)
    ensures WellFormed(Refund(l, intent, now).0) && Ledgered(Refund(l, intent, now).0)
  {
    var (l2, o) := Refund(l, intent, now);
    if o.Refunded? {
      RefundIsAdjust(l, intent, now);
      AdjustKeepsBooks(l, o.userId, Reversal(o.credits), RefundReason(intent), now);
    }
  }

  /** A refund is one adjustment of the owner's balance. */
  lemma RefundIsAdjust(l: Ledger, intent: string, now: int)
    requires Refund(l, intent, now).1.Refunded?
    ensures var o := Refund(l, intent, now).1;
      o.userId in l.users && Refund(l, intent, now).0 == Adjust(l, o.userId, Reversal(o.credits), RefundReason(intent), now)
  {
  }

  /** A refund right after the award puts the balance back where it was before the purchase. */
  lemma RefundReversesAward(l: Ledger, ids: PriceIds, s: Session, now: int, later: int)
    requires WellFormed(l)
    requires Checkout(l, ids, s, now).1.Awarded?
    ensures var (l2, o) := Checkout(l, ids, s, now);
      var (l3, o3) := Refund(l2, s.paymentIntent.value, later);
      && o3 == Refunded(o.userId, o.credits)
      && l3.users == l.users
  {
    var (l2, o) := Checkout(l, ids, s, now);
    var intent := s.paymentIntent.value;
    FindPurchaseLast(l.purchases, l2.purchases[|l2.purchases| - 1], intent);
    assert l2.purchases == l.purchases + [l2.purchases[|l2.purchases| - 1]];
    RefundTakesBackGrant(l2, intent, later);
  }

  /** Appending a row with a new intent makes that row the one found. */
  lemma {:induction false} FindPurchaseLast(ps: seq<CreditPurchase>, p: CreditPurchase, intent: string)
    requires FindPurchase(ps, intent).None? && p.stripePaymentIntentId == intent
    ensures FindPurchase(ps + [p], intent) == Some(p)
  {
    if ps != [] {
      assert (ps + [p])[1..] == ps[1..] + [p];
      FindPurchaseLast(ps[1..], p, intent);
    }
  }

  // ---------------------------------------------------------------------------
  // The route

  /** The HTTP reply: 400 without a signature or with a bad one, 200 once handled. */
  datatype WebhookReply = NoSignature | BadSignature(message: string) | Received
  {
    function Status(): int {
      if Received? then 200 else 400
    }
  }

  /**
   * `POST /api/stripe/webhook` with the `stripe-signature` header
   * `signature`, where verifying the signature yields `verified`.
   */
  function Webhook(l: Ledger, ids: PriceIds, signature: Option<string>, verified: Result<Event, string>, now: int)
    : (r: (Ledger, WebhookReply, Outcome))
    requires WellFormed(l)
    ensures !Truthy(signature) ==> r.0 == l && r.1 == NoSignature
    ensures Truthy(signature) && verified.Err? ==> r.0 == l && r.1 == BadSignature(verified.error)
    ensures r.1.Received? <==> Truthy(signature) && verified.Ok?
    ensures r.1.Received? && verified.value.Other? ==> r.0 == l && r.2 == Unhandled
    ensures r.1.Received? && verified.value.CheckoutCompleted? ==>
              (r.0, r.2) == Checkout(l, ids, verified.value.session, now)
    ensures r.1.Received? && verified.value.ChargeRefunded? ==>
              (r.0, r.2) == Refund(l, verified.value.paymentIntent, now)
  {
    if !Truthy(signature) then (l, NoSignature, Unhandled)
    else
      match verified
      case Err(m) => (l, BadSignature(m), Unhandled)
      case Ok(event) =>
        match event
        case CheckoutCompleted(s) =>
          var (l2, o) := Checkout(l, ids, s, now); (l2, Received, o)
        case ChargeRefunded(intent) =>
          var (l2, o) := Refund(l, intent, now); (l2, Received, o)
        case Other(_) => (l, Received, Unhandled)
  }

  lemma WebhookKeepsBooks(l: Ledger, ids: PriceIds, signature: Option<string>, verified: Result<Event, string>, now: int)
    requires WellFormed(l) && Ledgered(l)
    ensures WellFormed(Webhook(l, ids, signature, verified, now).0)
    ensures Ledgered(Webhook(l, ids, signature, verified, now).0)
  {
    if Truthy(signature) && verified.Ok? {
      match verified.value {
        case CheckoutCompleted(s) => CheckoutKeepsBooks(l, ids, s, now);
        case ChargeRefunded(intent) => RefundKeepsBooks(l, intent, now);
        case Other(_) =>
      }
    }
  }

  // ---------------------------------------------------------------------------
  // Refunds are not guarded against replay

  /**
   * As written, a refund event delivered twice takes the grant back twice:
   * the second delivery finds the same purchase and logs a second adjustment.
   */
  lemma RefundReplayTakesTwice(l: Ledger, intent: string, now: int, later: int)
    requires Refund(l, intent, now).1.Refunded?
    ensures var (l2, o) := Refund(l, intent, now);
      var (l3, o3) := Refund(l2, intent, later);
      && o3 == o
      && BalanceMoved(l, l3, o.userId, -2 * o.credits)
  {
    var (l2, o) := Refund(l, intent, now);
    var (l3, o3) := Refund(l2, intent, later);
    RefundTakesBackGrant(l, intent, now);
    RefundTakesBackGrant(l2, intent, later);
    BalanceMovedTwice(l, l2, l3, o.userId, -o.credits, -o.credits);
  }

  /** Whether an adjustment already records the refund of this intent. */
  predicate AlreadyRefunded(l: Ledger, intent: string) {
    exists i :: 0 <= i < |l.adjustments| && l.adjustments[i].reason == RefundReason(intent)
  }

  /** `charge.refunded` guarded the way the purchase is: a logged refund of the intent is not repeated. */
  function RefundCorrected(l: Ledger, intent: string, now: int): (r: (Ledger, Outcome))
    ensures AlreadyRefunded(l, intent) ==> r == (l, AlreadyProcessed)
    ensures !AlreadyRefunded(l, intent) ==> r == Refund(l, intent, now)
  {
    if AlreadyRefunded(l, intent) then (l, AlreadyProcessed) else Refund(l, intent, now)
  }

  /** With the guard, a redelivered refund changes nothing. */
  lemma RefundCorrectedReplayIsNoOp(l: Ledger, intent: string, now: int, later: int)
    ensures RefundCorrected(RefundCorrected(l, intent, now).0, intent, later).0 == RefundCorrected(l, intent, now).0
  {
    var (l2, o) := RefundCorrected(l, intent, now);
    if o.Refunded? {
      RefundTakesBackGrant(l, intent, now);
      assert l2.adjustments[|l2.adjustments| - 1].reason == RefundReason(intent);
      assert AlreadyRefunded(l2, intent);
    }
  }

  // ---------------------------------------------------------------------------
  // The handler, step by step

  method HandleWebhook(db: Database, ids: PriceIds, signature: Option<string>, verified: Result<Event, string>, now: int)
    returns (reply: WebhookReply, outcome: Outcome)
    requires WellFormed(db.Snapshot())
    modifies db
    ensures (db.Snapshot(), reply, outcome) == Webhook(old(db.Snapshot()), ids, signature, verified, now)
  {
    if !Truthy(signature) {
      return NoSignature, Unhandled;
    }
    if verified.Err? {
      return BadSignature(verified.error), Unhandled;
    }
    reply := Received;
    match verified.value {
      case CheckoutCompleted(session) =>
        outcome := HandleCheckout(db, ids, session, now);
      case ChargeRefunded(paymentIntentId) =>
        outcome := HandleRefund(db, paymentIntentId, now);
      case Other(_) =>
        outcome := Unhandled;
    }
  }

  /** Past every guard, the checkout branch is the purchase transaction for the customer found. */
  lemma CheckoutAwards(l: Ledger, ids: PriceIds, s: Session, now: int, u: UserId)
    requires WellFormed(l)
    requires Truthy(PurchasedPriceId(ids, s)) && PurchasedPriceId(ids, s).value in Table(PackageEntries(ids))
    requires Truthy(s.paymentIntent) && FindPurchase(l.purchases, s.paymentIntent.value).None?
    requires Truthy(s.customerEmail) && FindUserByEmail(l, s.customerEmail.value) == Some(u)
    ensures u in l.users
    ensures var total := Table(PackageEntries(ids))[PurchasedPriceId(ids, s).value].total;
      Checkout(l, ids, s, now) ==
        (Purchase(l, u, s.paymentIntent.value, total, s.amountTotal.GetOr(0), s.currency.GetOr("usd"), now),
         Awarded(u, total))
  {
  }

  method HandleCheckout(db: Database, ids: PriceIds, session: Session, now: int) returns (outcome: Outcome)
    requires WellFormed(db.Snapshot())
    modifies db
    ensures (db.Snapshot(), outcome) == Checkout(old(db.Snapshot()), ids, session, now)
  {
    ghost var before := db.Snapshot();
    ghost var expected := Checkout(before, ids, session, now);
    var creditPackages := Table(PackageEntries(ids));
    var purchasedPriceId: Option<string> := None;
    if session.metadataPriceId.Some? {
      purchasedPriceId := session.metadataPriceId;
    } else if session.mode == Some("payment") && session.amountTotal.Some? {
      purchasedPriceId := FindByAmount(Keys(PackageEntries(ids)), creditPackages, session.amountTotal.value);
    }
    assert purchasedPriceId == PurchasedPriceId(ids, session);
    if !Truthy(purchasedPriceId) || purchasedPriceId.value !in creditPackages {
      assert expected == (before, UnknownPackage);
      return UnknownPackage;
    }
    if !Truthy(session.paymentIntent) {
      assert expected == (before, MissingPaymentIntent);
      return MissingPaymentIntent;
    }
    var paymentIntentId := session.paymentIntent.value;
    var existing := FindPurchase(db.purchases, paymentIntentId);
    if existing.Some? {
      assert expected == (before, AlreadyProcessed);
      return AlreadyProcessed;
    }
    if !Truthy(session.customerEmail) {
      assert expected == (before, MissingEmail);
      return MissingEmail;
    }
    var user := FindUserByEmail(db.Snapshot(), session.customerEmail.value);
    if user.None? {
      assert expected == (before, UnknownCustomer);
      return UnknownCustomer;
    }
    var total := creditPackages[purchasedPriceId.value].total;
    var u := user.value;
    CheckoutAwards(before, ids, session, now, u);
    db.purchases := db.purchases + [CreditPurchase(u, paymentIntentId, total, session.amountTotal.GetOr(0),
                                                   session.currency.GetOr("usd"), now)];
    db.users := db.users[u := db.users[u].(credits := db.users[u].credits + total)];
    outcome := Awarded(u, total);
  }

  method HandleRefund(db: Database, paymentIntentId: string, now: int) returns (outcome: Outcome)
    modifies db
    ensures (db.Snapshot(), outcome) == Refund(old(db.Snapshot()), paymentIntentId, now)
  {
    var purchase := FindPurchase(db.purchases, paymentIntentId);
    if purchase.None? {
      return NoMatchingPurchase;
    }
    var p := purchase.value;
    if p.userId !in db.users {
      return RefundUserMissing;
    }
    db.adjustments := db.adjustments + [CreditAdjustment(p.userId, -p.creditsPurchased, RefundReason(paymentIntentId), now)];
    db.users := db.users[p.userId := db.users[p.userId].(credits := db.users[p.userId].credits - p.creditsPurchased)];
    outcome := Refunded(p.userId, p.creditsPurchased);
  }
}
