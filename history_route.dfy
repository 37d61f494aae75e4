/**
 * `GET /api/user/credit-history`: the signed-in user's most recent rows of
 * each log, `limit` of each (10 when the query string has none).
 */
module HistoryRoute {
  import opened Wrappers
  import opened Store
  import opened CreditService
  import History

  datatype HistoryReply = Unauthorized | Listed(history: CreditHistory)
  {
    function Status(): int {
      if Unauthorized? then 401 else 200
    }
  }

  /**
   * `limitParam ? parseInt(limitParam, 10) : 10`, given the parsed value
   * (`None` when the parameter is absent or empty). A leading minus sign
   * parses, so the limit can be negative.
   */
  function Limit(limitParam: Option<int>): (n: int)
    ensures limitParam.None? ==> n == DefaultHistoryLimit
    ensures limitParam.Some? ==> n == limitParam.value
  {
    if limitParam.Some? then limitParam.value else 10
  }

  /**
   * The route for the session's user id and the parsed `limit` parameter:
   * every query passes the limit to `take` unchanged, so a negative limit
   * lists the oldest rows.
   */
  function GetHistory(l: Ledger, session: Option<UserId>, limitParam: Option<int>): (r: HistoryReply)
    ensures r.Status() == 401 <==> !Truthy(session)
    ensures r.Listed? && Limit(limitParam) >= 0 ==>
              var (u, n) := (session.value, Limit(limitParam));
              && History.RecentOf(r.history.purchases, l.purchases, PurchaseOwner, PurchaseTime, u, n)
              && History.RecentOf(r.history.spends, l.spends, SpendOwner, SpendTime, u, n)
              && History.RecentOf(r.history.adjustments, l.adjustments, AdjustmentOwner, AdjustmentTime, u, n)
    ensures r.Listed? && Limit(limitParam) < 0 ==>
              var (u, n) := (session.value, -Limit(limitParam));
              && History.OldestOf(r.history.purchases, l.purchases, PurchaseOwner, PurchaseTime, u, n)
              && History.OldestOf(r.history.spends, l.spends, SpendOwner, SpendTime, u, n)
              && History.OldestOf(r.history.adjustments, l.adjustments, AdjustmentOwner, AdjustmentTime, u, n)
  {
    if !Truthy(session) then Unauthorized
    else
      Listed(GetCreditHistory(l, session.value, Limit(limitParam)))
  }

  /** Without a limit no list holds more than ten rows. */
  lemma DefaultLimitBounds(l: Ledger, u: UserId)
    requires u != ""
    ensures var h := GetHistory(l, Some(u), None).history;
      |h.purchases| <= 10 && |h.spends| <= 10 && |h.adjustments| <= 10
  {
  }

  /** Rows of other users never show: a user with no purchases gets an empty purchase list. */
  lemma NoPurchasesNoList(l: Ledger, u: UserId, limitParam: Option<int>)
    requires u != ""
    requires forall i :: 0 <= i < |l.purchases| ==> l.purchases[i].userId != u
    ensures GetHistory(l, Some(u), limitParam).history.purchases == []
  {
    var r := GetHistory(l, Some(u), limitParam).history.purchases;
    if r != [] {
      assert false;
    }
  }

  /** `?limit=-1` lists the user's oldest spend, not the newest one. */
  lemma NegativeLimitListsOldest(l: Ledger, u: UserId, older: CreditSpend, newer: CreditSpend)
    requires u != "" && l.spends == [older, newer]
    requires older.userId == u && newer.userId == u && older.timestamp < newer.timestamp
    ensures GetHistory(l, Some(u), Some(-1)).history.spends == [older]
  {
    var r := GetHistory(l, Some(u), Some(-1)).history.spends;
    assert History.OldestOf(r, l.spends, SpendOwner, SpendTime, u, 1);
    OwnOldestOfTwo(r, l.spends, u, older, newer);
  }

  /** Of two rows of the same user, the oldest one. */
  lemma OwnOldestOfTwo(r: seq<CreditSpend>, s: seq<CreditSpend>, u: UserId, older: CreditSpend, newer: CreditSpend)
    requires s == [older, newer]
    requires older.userId == u && newer.userId == u && older.timestamp < newer.timestamp
    requires History.OldestOf(r, s, SpendOwner, SpendTime, u, 1)
    ensures r == [older]
  {
    assert s[1..] == [newer] && [newer][1..] == [];
    assert SpendOwner(older) == u && SpendOwner(newer) == u;
    assert History.OwnedBy([newer], SpendOwner, u) == [newer] + History.OwnedBy([], SpendOwner, u);
    assert History.OwnedBy(s, SpendOwner, u) == [older] + History.OwnedBy([newer], SpendOwner, u);
    assert |r| == 1;
    assert r[0] in multiset(s);
  }
}
