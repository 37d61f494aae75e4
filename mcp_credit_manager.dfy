/**
 * `executeWithCredits`, the wrapper that runs one paid operation (session
 * check, cost, affordability check, the operation, the charge, the balance
 * read), and `handleMcpError`, which turns an error into an HTTP status by
 * searching its message.
 */
module McpCreditManager {
  import opened Wrappers
  import opened Errors
  import opened Store
  import opened CreditService
  import opened McpService
  import opened Flow

  datatype McpReply<+T> = McpReply(result: T, credits: int, lowCredits: bool)

  /** The name the trace gives the operation the credits pay for. */
  function ServiceName(op: McpOperation): string {
    op.server + ":" + op.operation
  }

  /** The calls a successful run makes, in order. */
  function ExecuteCalls(u: UserId, op: McpOperation): seq<Call> {
    [CheckBalance(u, OperationCost(op)), External(ServiceName(op), ""),
     Charge(u, OperationCost(op), FeatureTag(op)), ReadBalance(u)]
  }

  /**
   * `executeWithCredits(operation, executeFunc)` where the session holds the
   * user id `session` and `executeFunc` yields `outcome`. The calls made are
   * always a prefix of the successful run's; the operation runs only once the
   * user can afford its cost, and the charge only once it has returned.
   */
  function Execute<T>(l: Ledger, session: Option<UserId>, op: McpOperation,
                      outcome: Result<T, string>, now: int): (run: Run<McpReply<T>>)
    ensures !Truthy(session) ==> run == Run(l, Err(Unauthorized), [])
    ensures Truthy(session) ==> run.calls <= ExecuteCalls(session.value, op) && |run.calls| >= 1
    ensures Truthy(session) && !HasEnoughCredits(l, session.value, OperationCost(op)) ==>
              run.result == Err(InsufficientCredits(OperationCost(op), None)) && |run.calls| == 1
    ensures run.result.Ok? <==>
              Truthy(session) && HasEnoughCredits(l, session.value, OperationCost(op)) && outcome.Ok?
    ensures run.result.Err? ==> run.ledger == l
    ensures outcome.Err? && run.result.Err? && |run.calls| == 2 ==> run.result.error == Thrown(outcome.error)
    ensures run.result.Ok? ==>
              && run.calls == ExecuteCalls(session.value, op)
              && run.ledger == Record(l, session.value, op, now).value
              && run.result.value.result == outcome.value
              && run.result.value.credits == run.ledger.users[session.value].credits
              && (run.result.value.lowCredits <==> run.result.value.credits < LowCreditThreshold)
  {
    if !Truthy(session) then Run(l, Err(Unauthorized), [])
    else
      var u := session.value;
      var totalCost := OperationCost(op);
      var checked := [CheckBalance(u, totalCost)];
      if !HasEnoughCredits(l, u, totalCost) then
        Run(l, Err(InsufficientCredits(totalCost, None)), checked)
      else
        var executed := checked + [External(ServiceName(op), "")];
        match outcome
        case Err(m) => Run(l, Err(Thrown(m)), executed)
        case Ok(v) =>
          var charged := executed + [Charge(u, totalCost, FeatureTag(op))];
          match Record(l, u, op, now)
          case Err(e) => Run(l, Err(e), charged)
          case Ok(l2) =>
            var read := charged + [ReadBalance(u)];
            match CheckCreditBalance(l2, u)
            case Err(e) => Run(l2, Err(e), read)
            case Ok(b) => Run(l2, Ok(McpReply(v, b.credits, b.lowCredits)), read)
  }

  /**
   * The amount taken is the amount checked: a successful run lowers the
   * balance by exactly the `required` of its affordability check, logs that
   * amount, and leaves the user no lower than zero.
   */
  lemma ChargeEqualsPreCheck<T>(l: Ledger, session: Option<UserId>, op: McpOperation,
                                outcome: Result<T, string>, now: int)
    requires Execute(l, session, op, outcome, now).result.Ok?
    ensures var run := Execute(l, session, op, outcome, now);
      && run.calls[0].CheckBalance?
      && BalanceMoved(l, run.ledger, session.value, -run.calls[0].required)
      && run.ledger.spends[|run.ledger.spends| - 1].creditsSpent == run.calls[0].required
      && run.ledger.users[session.value].credits >= 0
  {
    var run := Execute(l, session, op, outcome, now);
    assert run.calls[0] == CheckBalance(session.value, OperationCost(op));
  }

  /** Books kept: a run either changes nothing or makes the one logged deduction. */
  lemma ExecuteKeepsBooks<T>(l: Ledger, session: Option<UserId>, op: McpOperation,
                             outcome: Result<T, string>, now: int)
    requires WellFormed(l) && Ledgered(l)
    ensures WellFormed(Execute(l, session, op, outcome, now).ledger)
    ensures Ledgered(Execute(l, session, op, outcome, now).ledger)
  {
    if Execute(l, session, op, outcome, now).result.Ok? {
      RecordKeepsBooks(l, session.value, op, now);
    }
  }

  method ExecuteWithCredits<T>(db: Database, session: Option<UserId>, op: McpOperation,
                               outcome: Result<T, string>, now: int)
    returns (r: Result<McpReply<T>, Error>, calls: seq<Call>)
    modifies db
    ensures Run(db.Snapshot(), r, calls) == Execute(old(db.Snapshot()), session, op, outcome, now)
  {
    if !Truthy(session) {
      return Err(Unauthorized), [];
    }
    var userId := session.value;
    var totalCost := OperationCost(op);
    calls := [CheckBalance(userId, totalCost)];
    if !HasEnoughCredits(db.Snapshot(), userId, totalCost) {
      return Err(InsufficientCredits(totalCost, None)), calls;
    }
    calls := calls + [External(ServiceName(op), "")];
    if outcome.Err? {
      return Err(Thrown(outcome.error)), calls;
    }
    calls := calls + [Charge(userId, totalCost, FeatureTag(op))];
    var recorded := RecordOperation(db, userId, op, now);
    match recorded {
      case Err(e) => return Err(e), calls;
      case Ok(_) =>
    }
    calls := calls + [ReadBalance(userId)];
    var balance := CheckCreditBalance(db.Snapshot(), userId);
    match balance {
      case Err(e) => r := Err(e);
      case Ok(b) => r := Ok(McpReply(outcome.value, b.credits, b.lowCredits));
    }
  }

  // ---------------------------------------------------------------------------
  // handleMcpError

  datatype ErrorResponse = ErrorResponse(error: string, status: int, insufficientCredits: Option<bool>)

  /** The mapping, searched in this order: "Unauthorized", then "Insufficient credits". */
  function HandleMcpError(e: Error): (r: ErrorResponse)
    ensures r.status in {401, 402, 500}
    ensures r.status == 401 <==> MentionsUnauthorized(e)
    ensures r.status == 402 <==> !MentionsUnauthorized(e) && MentionsInsufficient(e)
    ensures r.insufficientCredits == Some(true) <==> r.status == 402
    ensures r.insufficientCredits.Some? ==> r.status == 402
  {
    if MentionsUnauthorized(e) then
      ErrorResponse("You must be logged in to use this feature", 401, None)
    else if MentionsInsufficient(e) then
      ErrorResponse("Insufficient credits. Please purchase more credits to continue.", 402, Some(true))
    else
      ErrorResponse("An error occurred while processing your request", 500, None)
  }

  /**
   * The wrapper's own refusals get the statuses meant for them: no session is
   * 401 and an unaffordable operation 402. Only an error thrown by the
   * operation itself is classified by whatever its message happens to say.
   */
  lemma ExecuteErrorStatus<T>(l: Ledger, session: Option<UserId>, op: McpOperation,
                              outcome: Result<T, string>, now: int)
    requires Execute(l, session, op, outcome, now).result.Err?
    ensures var e := Execute(l, session, op, outcome, now).result.error;
      && (!Truthy(session) ==> HandleMcpError(e).status == 401)
      && (Truthy(session) && !HasEnoughCredits(l, session.value, OperationCost(op)) ==>
            HandleMcpError(e).status == 402 && HandleMcpError(e).insufficientCredits == Some(true))
      && (Truthy(session) && HasEnoughCredits(l, session.value, OperationCost(op)) ==>
            e == Thrown(outcome.error))
  {
    var e := Execute(l, session, op, outcome, now).result.error;
    if !Truthy(session) {
      UnauthorizedMentionsOnlyUnauthorized();
    } else if !HasEnoughCredits(l, session.value, OperationCost(op)) {
      InsufficientMentionsOnlyInsufficient(OperationCost(op), None);
    }
  }
}
