/**
 * `POST /api/credits/consume`: take `amount` credits from the signed-in
 * user's balance. The route checks the balance itself and then issues a bare
 * decrement, with no spend row and outside any transaction, so it is the one
 * write that does not keep the books.
 */
module ConsumeRoute {
  import opened Wrappers
  import opened Store

  datatype ConsumeReply = Unauthorized | InvalidAmount | InsufficientCredits | Consumed
  {
    function Status(): int {
      match this
      case Unauthorized => 401
      case InvalidAmount => 400
      case InsufficientCredits => 400
      case Consumed => 200
    }

    function ErrorText(): Option<string> {
      match this
      case Unauthorized => Some("Unauthorized")
      case InvalidAmount => Some("Invalid amount")
      case InsufficientCredits => Some("Insufficient credits")
      case Consumed => None
    }
  }

  /**
   * The route for the session's user id (`None` without a session or user)
   * and the body's `amount` (`None` when it is not a number).
   */
  function Consume(l: Ledger, session: Option<UserId>, amount: Option<int>): (r: (Ledger, ConsumeReply))
    ensures session.None? ==> r.1 == Unauthorized
    ensures session.Some? && (amount.None? || amount.value <= 0) ==> r.1 == InvalidAmount
    ensures r.1.Consumed? <==>
              session.Some? && amount.Some? && amount.value > 0
              && session.value in l.users && l.users[session.value].credits >= amount.value
    ensures !r.1.Consumed? ==> r.0 == l
    ensures r.1.Consumed? ==>
              && BalanceMoved(l, r.0, session.value, -amount.value)
              && r.0.users[session.value].credits >= 0
              && r.0.purchases == l.purchases && r.0.spends == l.spends && r.0.adjustments == l.adjustments
  {
    if session.None? then (l, Unauthorized)
    else if amount.None? || amount.value <= 0 then (l, InvalidAmount)
    else if session.value !in l.users || l.users[session.value].credits < amount.value then (l, InsufficientCredits)
    else (Decrement(l, session.value, amount.value), Consumed)
  }

  /** A balanced account that pays through this route is no longer balanced: no spend row records it. */
  lemma ConsumeBreaksBooks(l: Ledger, u: UserId, amount: int)
    requires WellFormed(l) && u in l.users && Balanced(l, u)
    requires Consume(l, Some(u), Some(amount)).1.Consumed?
    ensures WellFormed(Consume(l, Some(u), Some(amount)).0)
    ensures !Balanced(Consume(l, Some(u), Some(amount)).0, u)
  {
    DecrementBreaksBooks(l, u, amount);
  }

  /** The route as written: a read, a check, then a separate update. */
  method ConsumeCredits(db: Database, session: Option<UserId>, amount: Option<int>) returns (reply: ConsumeReply)
    modifies db
    ensures (db.Snapshot(), reply) == Consume(old(db.Snapshot()), session, amount)
  {
    if session.None? {
      return Unauthorized;
    }
    if amount.None? || amount.value <= 0 {
      return InvalidAmount;
    }
    var id := session.value;
    if id !in db.users || db.users[id].credits < amount.value {
      return InsufficientCredits;
    }
    db.users := db.users[id := db.users[id].(credits := db.users[id].credits - amount.value)];
    reply := Consumed;
  }
}
