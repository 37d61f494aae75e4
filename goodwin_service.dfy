/**
 * Mr. Goodwin, the orchestrator every request goes through: the
 * affordability check for his base fee, the intent classification, the
 * routing to a servant (the mechanic, the image placeholder, or his own
 * reply), the charge for his orchestration, and the apology that replaces
 * any error mentioning insufficient credits.
 */
module GoodwinService {
  import opened Wrappers
  import opened Text
  import opened Errors
  import opened Store
  import opened CreditService
  import opened McpService
  import opened Flow
  import opened MechanicService

  datatype GoodwinRequest = GoodwinRequest(
    query: string,
    imageUrls: Option<seq<string>>,
    userId: UserId,
    sessionId: string)

  datatype GoodwinResponse = GoodwinResponse(
    response: string,
    credits: int,
    lowCredits: bool,
    lowCreditMessage: Option<string>)

  datatype ServantType =
    | GoodwinDirect | Brightwell | Gearhart | Scrivner | Primrose
    | Setter | Bellamy | Tuckett | Pennon | Featherstone
  {
    /** The enum's string value, recorded in the operation's metadata. */
    function Value(): string {
      match this
      case GoodwinDirect => "goodwin_direct"
      case Brightwell => "brightwell"
      case Gearhart => "gearhart"
      case Scrivner => "scrivner"
      case Primrose => "primrose"
      case Setter => "setter"
      case Bellamy => "bellamy"
      case Tuckett => "tuckett"
      case Pennon => "pennon"
      case Featherstone => "featherstone"
    }

    /** The enum's key, the word the classifier is asked to answer with. */
    function Label(): string {
      match this
      case GoodwinDirect => "GOODWIN_DIRECT"
      case Brightwell => "BRIGHTWELL"
      case Gearhart => "GEARHART"
      case Scrivner => "SCRIVNER"
      case Primrose => "PRIMROSE"
      case Setter => "SETTER"
      case Bellamy => "BELLAMY"
      case Tuckett => "TUCKETT"
      case Pennon => "PENNON"
      case Featherstone => "FEATHERSTONE"
    }
  }

  /** The six servants the classifier's prompt offers; the other four are never chosen. */
  predicate Offered(t: ServantType) {
    t.GoodwinDirect? || t.Brightwell? || t.Gearhart? || t.Scrivner? || t.Primrose? || t.Setter?
  }

  /**
   * What each of the chat model's answers comes down to:
   * `content?.trim().toUpperCase() || 'GOODWIN_DIRECT'`.
   */
  function Normalised(content: Option<string>): (s: string)
    ensures Truthy(content) && Trim(content.value) != "" ==> s == ToUpper(Trim(content.value))
    ensures !(Truthy(content) && Trim(content.value) != "") ==> s == "GOODWIN_DIRECT"
  {
    var trimmed := if content.Some? then ToUpper(Trim(content.value)) else "";
    if trimmed != "" then trimmed else "GOODWIN_DIRECT"
  }

  /** The `switch` on the normalised answer: five names are recognised, anything else is direct. */
  function ServantNamed(s: string): ServantType {
    if s == "GEARHART" then Gearhart
    else if s == "BRIGHTWELL" then Brightwell
    else if s == "SCRIVNER" then Scrivner
    else if s == "PRIMROSE" then Primrose
    else if s == "SETTER" then Setter
    else GoodwinDirect
  }

  /**
   * `classifyIntent`, where the model answers `reply`: a failed call
   * defaults to direct handling, and the answer is matched only after
   * trimming and upper-casing. A servant other than direct handling is
   * chosen only by its own label, so any other answer is direct.
   */
  function ClassifyIntent(reply: Result<Option<string>, string>): (t: ServantType)
    ensures Offered(t)
    ensures reply.Err? ==> t == GoodwinDirect
    ensures reply.Ok? && !Truthy(reply.value) ==> t == GoodwinDirect
    ensures reply.Ok? && t != GoodwinDirect ==> Normalised(reply.value) == t.Label()
  {
    match reply
    case Err(_) => GoodwinDirect
    case Ok(content) => ServantNamed(Normalised(content))
  }

  /** An answer with no white space at its ends and no lower-case letter is matched as it is. */
  lemma NormalisedPlain(s: string)
    requires s != [] && !IsJsSpace(s[0]) && !IsJsSpace(s[|s| - 1])
    requires forall k :: 0 <= k < |s| ==> !('a' <= s[k] <= 'z')
    ensures Normalised(Some(s)) == s
  {
    TrimStartIdentity(s);
    TrimEndIdentity(s);
    assert ToUpper(s) == s;
  }

  /** The `switch` recognises each offered label. */
  lemma LabelNamed(t: ServantType)
    requires Offered(t)
    ensures ServantNamed(t.Label()) == t
  {
  }

  lemma LabelNormalised(t: ServantType)
    requires Offered(t)
    ensures Normalised(Some(t.Label())) == t.Label()
  {
    match t {
      case GoodwinDirect => NormalisedPlain("GOODWIN_DIRECT");
      case Brightwell => NormalisedPlain("BRIGHTWELL");
      case Gearhart => NormalisedPlain("GEARHART");
      case Scrivner => NormalisedPlain("SCRIVNER");
      case Primrose => NormalisedPlain("PRIMROSE");
      case Setter => NormalisedPlain("SETTER");
    }
  }

  /** Each offered servant is chosen when the model answers with its label. */
  lemma ClassifyLabel(t: ServantType)
    requires Offered(t)
    ensures ClassifyIntent(Ok(Some(t.Label()))) == t
  {
    LabelNamed(t);
    LabelNormalised(t);
  }

  /** Surrounding white space and letter case in the answer do not change the choice. */
  lemma ClassifyNormalised(s: string)
    ensures ClassifyIntent(Ok(Some(ToUpper(Trim(s))))) == ClassifyIntent(Ok(Some(s)))
  {
    var t := Trim(s);
    var x := ToUpper(t);
    UpperKeepsSpaces(t);
    if x != [] {
      assert !IsJsSpace(x[0]) && !IsJsSpace(x[|x| - 1]);
    }
    TrimStartIdentity(x);
    TrimEndIdentity(x);
    assert Trim(x) == x;
    ToUpperIdempotent(t);
  }

  // ---------------------------------------------------------------------------
  // The replies Mr. Goodwin gives himself

  const BrightwellPlaceholder := "I'll prepare that image for you right away, sir."
  const DirectLapse := "I beg your pardon, sir/madam, but I seem to be experiencing a momentary lapse. How else may I be of service?"
  const DirectFailure := "I do apologize, sir/madam, but I seem to be experiencing some difficulty at present. Perhaps we might try again in a moment?"
  const LowBalanceNotice := "I must inform you that your household account is running rather low, sir. Perhaps we should consider a small replenishment when convenient."
  const ApologyText := "I do apologize, sir/madam, but it appears the household account has insufficient funds at present. Might I suggest a modest replenishment to continue providing our services?"

  /** The reply that replaces an insufficient-credits error: it reports a balance of 0, whatever the balance is. */
  const Apology := GoodwinResponse(ApologyText, 0, true, Some("Household account requires immediate attention."))

  /** `generateGoodwinResponse`, where the model answers `reply`: it never fails. */
  function DirectResponse(reply: Result<Option<string>, string>): (r: string)
    ensures reply.Err? ==> r == DirectFailure
    ensures reply.Ok? && Truthy(reply.value) ==> r == reply.value.value
    ensures reply.Ok? && !Truthy(reply.value) ==> r == DirectLapse
  {
    match reply
    case Err(_) => DirectFailure
    case Ok(content) => OrElse(content, DirectLapse)
  }

  /** `formatServantResponse` hands the servant's text on unchanged. */
  function FormatServantResponse(t: ServantType, raw: string): string {
    raw
  }

  // ---------------------------------------------------------------------------
  // processRequest

  /** The model's answers to the three calls a request can make. */
  datatype Answers = Answers(
    classification: Result<Option<string>, string>,
    mechanic: Result<Option<string>, string>,
    direct: Result<Option<string>, string>)

  /** Mr. Goodwin's fee, checked before routing. */
  const GoodwinBase := McpCosts["GOODWIN"]["BASE_COST"]

  /** The request Mr. Gearhart receives: the query and the images, nothing else. */
  function GearhartRequest(req: GoodwinRequest): MechanicRequestOptions {
    MechanicRequestOptions(req.query, req.imageUrls, None, None, None)
  }

  /** The operation recorded for the orchestration, at the base fee. */
  function OrchestrationOperation(req: GoodwinRequest, t: ServantType): McpOperation {
    McpOperation("GOODWIN", "ORCHESTRATION", Some(GoodwinBase), Some(map[
      "servantType" := MetaValue.Text(t.Value()),
      "query" := MetaValue.Text(req.query),
      "sessionId" := MetaValue.Text(req.sessionId)]))
  }

  /** The base fee overrides the table's orchestration entry: the charge is 7 credits. */
  lemma OrchestrationCharge(req: GoodwinRequest, t: ServantType)
    ensures GoodwinBase == 5
    ensures OperationCost(OrchestrationOperation(req, t)) == 7
  {
    OverrideIsBase(OrchestrationOperation(req, t));
  }

  /** A servant's reply and the cost routing adds (computed, never charged). */
  datatype Routed = Routed(response: string, additionalCost: int)

  /** The `GEARHART` case: the mechanic's run, its reply formatted as his. */
  function ToMechanic(l: Ledger, req: GoodwinRequest, answers: Answers, now: int): (run: Run<Routed>)
    ensures var m := Assist(l, req.userId, GearhartRequest(req), answers.mechanic, now);
      run.ledger == m.ledger && run.calls == m.calls && (run.result.Err? <==> m.result.Err?)
      && (run.result.Err? ==> run.result.error == m.result.error)
  {
    var m := Assist(l, req.userId, GearhartRequest(req), answers.mechanic, now);
    match m.result
    case Err(e) => Run(m.ledger, Err(e), m.calls)
    case Ok(reply) =>
      Run(m.ledger, Ok(Routed(FormatServantResponse(Gearhart, reply.mechanicResponse.response), 0)), m.calls)
  }

  /** The `switch` on the servant: the calls it makes and the reply it yields. */
  function Route(l: Ledger, req: GoodwinRequest, t: ServantType, answers: Answers, now: int): (run: Run<Routed>)
    ensures !t.Gearhart? ==> run.ledger == l && run.result.Ok?
    ensures t.Brightwell? ==> run == Run(l, Ok(Routed(BrightwellPlaceholder, 30)), [])
    ensures !t.Gearhart? && !t.Brightwell? ==>
              run == Run(l, Ok(Routed(DirectResponse(answers.direct), 0)), [External(ChatCompletions, req.query)])
  {
    match t
    case Gearhart => ToMechanic(l, req, answers, now)
    case Brightwell =>
      Run(l, Ok(Routed(BrightwellPlaceholder, McpCosts["IMAGE_GENERATION"]["BASE_COST"])), [])
    case _ =>
      Run(l, Ok(Routed(DirectResponse(answers.direct), 0)), [External(ChatCompletions, req.query)])
  }

  /**
   * After routing succeeded with `rt`: the orchestration charge, then the
   * balance read. It succeeds exactly when the account can pay the charge.
   */
  function Charged(l: Ledger, req: GoodwinRequest, t: ServantType, rt: Routed, now: int): (run: Run<GoodwinResponse>)
    ensures var (u, op) := (req.userId, OrchestrationOperation(req, t));
      && |run.calls| >= 1 && run.calls[0] == Charge(u, OperationCost(op), FeatureTag(op))
      && (run.result.Ok? <==> HasEnoughCredits(l, u, OperationCost(op)))
      && (run.result.Err? ==> run.ledger == l && run.result.error == Record(l, u, op, now).error
                              && run.calls == [Charge(u, OperationCost(op), FeatureTag(op))])
      && (run.result.Ok? ==>
            && run.ledger == Record(l, u, op, now).value
            && run.result.value.response == rt.response
            && run.result.value.credits == run.ledger.users[u].credits
            && (run.result.value.lowCredits <==> run.result.value.credits < LowCreditThreshold)
            && (run.result.value.lowCreditMessage.Some? <==> run.result.value.lowCredits))
  {
    var (u, op) := (req.userId, OrchestrationOperation(req, t));
    var charged := [Charge(u, OperationCost(op), FeatureTag(op))];
    match Record(l, u, op, now)
    case Err(e) => Run(l, Err(e), charged)
    case Ok(l2) =>
      var read := charged + [ReadBalance(u)];
      match CheckCreditBalance(l2, u)
      case Err(e) => Run(l2, Err(e), read)
      case Ok(b) =>
        Run(l2, Ok(GoodwinResponse(rt.response, b.credits, b.lowCredits,
                                   if b.lowCredits then Some(LowBalanceNotice) else None)), read)
  }

  /** What follows the routing: its error as it is, or the charge after its reply. */
  function Settle(routed: Run<Routed>, req: GoodwinRequest, t: ServantType, now: int): (run: Run<GoodwinResponse>)
    ensures run.result.Ok? ==> (run.result.value.lowCreditMessage.Some? <==> run.result.value.lowCredits)
    ensures run.result.Ok? ==> (run.result.value.lowCredits <==> run.result.value.credits < LowCreditThreshold)
  {
    match routed.result
    case Err(e) => Run(routed.ledger, Err(e), routed.calls)
    case Ok(rt) =>
      var c := Charged(routed.ledger, req, t, rt, now);
      Run(c.ledger, c.result, routed.calls + c.calls)
  }

  /**
   * The `try` block of `processRequest`, with the affordability check made
   * for `precheck` credits (the source checks `GoodwinBase`).
   */
  function Attempt(l: Ledger, req: GoodwinRequest, answers: Answers, now: int, precheck: int): (run: Run<GoodwinResponse>)
    ensures |run.calls| >= 1 && run.calls[0] == CheckBalance(req.userId, precheck)
    ensures run.result.Ok? ==> (run.result.value.lowCreditMessage.Some? <==> run.result.value.lowCredits)
    ensures run.result.Ok? ==> (run.result.value.lowCredits <==> run.result.value.credits < LowCreditThreshold)
  {
    var checked := [CheckBalance(req.userId, precheck)];
    if !HasEnoughCredits(l, req.userId, precheck) then
      Run(l, Err(InsufficientCredits(precheck, None)), checked)
    else
      var servant := ClassifyIntent(answers.classification);
      var s := Settle(Route(l, req, servant, answers, now), req, servant, now);
      Run(s.ledger, s.result, checked + [External(ChatCompletions, req.query)] + s.calls)
  }

  /** The `catch`: an error mentioning insufficient credits becomes the apology; any other is rethrown. */
  function Catch(run: Run<GoodwinResponse>): (r: Run<GoodwinResponse>)
    ensures r.ledger == run.ledger && r.calls == run.calls
    ensures run.result.Ok? ==> r == run
    ensures run.result.Err? && MentionsInsufficient(run.result.error) ==> r.result == Ok(Apology)
    ensures run.result.Err? && !MentionsInsufficient(run.result.error) ==> r == run
  {
    match run.result
    case Ok(_) => run
    case Err(e) => if MentionsInsufficient(e) then Run(run.ledger, Ok(Apology), run.calls) else run
  }

  /** `processRequest(request)`, where the chat model gives `answers`. */
  function Process(l: Ledger, req: GoodwinRequest, answers: Answers, now: int): (run: Run<GoodwinResponse>)
    ensures |run.calls| >= 1 && run.calls[0] == CheckBalance(req.userId, 5)
    ensures run.result.Ok? ==> (run.result.value.lowCreditMessage.Some? <==> run.result.value.lowCredits)
    ensures run.result.Ok? ==> (run.result.value.lowCredits <==> run.result.value.credits < LowCreditThreshold)
  {
    Catch(Attempt(l, req, answers, now, GoodwinBase))
  }

  /** Whatever the servant and the answers, a request keeps the books. */
  lemma ProcessKeepsBooks(l: Ledger, req: GoodwinRequest, answers: Answers, now: int)
    requires WellFormed(l) && Ledgered(l)
    ensures WellFormed(Process(l, req, answers, now).ledger) && Ledgered(Process(l, req, answers, now).ledger)
  {
    if HasEnoughCredits(l, req.userId, GoodwinBase) {
      var t := ClassifyIntent(answers.classification);
      SettleKeepsBooks(l, req, t, answers, now);
      assert Attempt(l, req, answers, now, GoodwinBase).ledger == Settle(Route(l, req, t, answers, now), req, t, now).ledger;
    }
  }

  /** The routing and the orchestration charge after it keep the books. */
  lemma SettleKeepsBooks(l: Ledger, req: GoodwinRequest, t: ServantType, answers: Answers, now: int)
    requires WellFormed(l) && Ledgered(l)
    ensures WellFormed(Settle(Route(l, req, t, answers, now), req, t, now).ledger)
    ensures Ledgered(Settle(Route(l, req, t, answers, now), req, t, now).ledger)
  {
    var routed := Route(l, req, t, answers, now);
    RouteKeepsBooks(l, req, t, answers, now);
    if routed.result.Ok? {
      ChargedKeepsBooks(routed.ledger, req, t, routed.result.value, now);
      assert Settle(routed, req, t, now).ledger == Charged(routed.ledger, req, t, routed.result.value, now).ledger;
    }
  }

  lemma RouteKeepsBooks(l: Ledger, req: GoodwinRequest, t: ServantType, answers: Answers, now: int)
    requires WellFormed(l) && Ledgered(l)
    ensures WellFormed(Route(l, req, t, answers, now).ledger) && Ledgered(Route(l, req, t, answers, now).ledger)
  {
    if t.Gearhart? {
      AssistKeepsBooks(l, req.userId, GearhartRequest(req), answers.mechanic, now);
    }
  }

  lemma ChargedKeepsBooks(l: Ledger, req: GoodwinRequest, t: ServantType, rt: Routed, now: int)
    requires WellFormed(l) && Ledgered(l)
    ensures WellFormed(Charged(l, req, t, rt, now).ledger) && Ledgered(Charged(l, req, t, rt, now).ledger)
  {
    var op := OrchestrationOperation(req, t);
    RecordKeepsBooks(l, req.userId, op, now);
    assert Charged(l, req, t, rt, now).ledger == After(l, Record(l, req.userId, op, now));
  }

  /** An account that cannot pay the base fee gets the apology, and nothing else happens. */
  lemma ProcessRefusesPoorAccount(l: Ledger, req: GoodwinRequest, answers: Answers, now: int)
    requires !HasEnoughCredits(l, req.userId, 5)
    ensures Process(l, req, answers, now) == Run(l, Ok(Apology), [CheckBalance(req.userId, 5)])
  {
    InsufficientMentionsOnlyInsufficient(5, None);
  }

  /**
   * Every refusal anywhere in the flow is turned into the apology: the only
   * error that escapes is the mechanic's own failure, and it leaves the
   * ledger as it was.
   */
  lemma OnlyMechanicFailuresEscape(l: Ledger, req: GoodwinRequest, answers: Answers, now: int)
    requires Process(l, req, answers, now).result.Err?
    ensures Process(l, req, answers, now).result.error == MechanicFailed
    ensures ClassifyIntent(answers.classification) == Gearhart
    ensures Process(l, req, answers, now).ledger == l
  {
    var u := req.userId;
    var attempt := Attempt(l, req, answers, now, GoodwinBase);
    if !HasEnoughCredits(l, u, GoodwinBase) {
      InsufficientMentionsOnlyInsufficient(GoodwinBase, None);
    } else {
      var servant := ClassifyIntent(answers.classification);
      var routed := Route(l, req, servant, answers, now);
      if routed.result.Err? {
        var o := GearhartRequest(req);
        var m := Assist(l, u, o, answers.mechanic, now);
        assert servant == Gearhart;
        assert routed.result.error == m.result.error;
        if !HasEnoughCredits(l, u, Markup(MechanicBase(o))) {
          InsufficientMentionsOnlyInsufficient(Markup(MechanicBase(o)), None);
        }
      } else {
        var op := OrchestrationOperation(req, servant);
        assert u in routed.ledger.users;
        if Record(routed.ledger, u, op, now).Err? {
          InsufficientMentionsOnlyInsufficient(OperationCost(op), Some(routed.ledger.users[u].credits));
        }
      }
    }
  }

  /**
   * A request Mr. Goodwin does not pass to the mechanic, from an account that
   * can pay his 7-credit charge: it succeeds, is charged exactly 7 (the image
   * placeholder's extra 30 is never taken) and logs one spend.
   */
  lemma ProcessChargesOrchestration(l: Ledger, req: GoodwinRequest, answers: Answers, now: int)
    requires ClassifyIntent(answers.classification) != Gearhart
    requires HasEnoughCredits(l, req.userId, 7)
    ensures var run := Process(l, req, answers, now);
      && run.result.Ok?
      && run.result.value.response ==
           (if ClassifyIntent(answers.classification).Brightwell? then BrightwellPlaceholder
            else DirectResponse(answers.direct))
      && BalanceMoved(l, run.ledger, req.userId, -7)
      && run.ledger.spends == l.spends + [CreditSpend(req.userId, "mcp:" + "GOODWIN" + ":" + "ORCHESTRATION", 7, now)]
      && run.result.value.credits == run.ledger.users[req.userId].credits
  {
    var servant := ClassifyIntent(answers.classification);
    OrchestrationCharge(req, servant);
  }

  /**
   * A request routed to the mechanic, from an account that can pay both
   * charges, pays both: the mechanic's and then the orchestration's.
   */
  lemma ProcessChargesMechanicAndOrchestration(l: Ledger, req: GoodwinRequest, answers: Answers, now: int)
    requires ClassifyIntent(answers.classification) == Gearhart && answers.mechanic.Ok?
    requires HasEnoughCredits(l, req.userId, Markup(MechanicBase(GearhartRequest(req))) + 7)
    ensures var run := Process(l, req, answers, now);
      && run.result.Ok?
      && BalanceMoved(l, run.ledger, req.userId, -(Markup(MechanicBase(GearhartRequest(req))) + 7))
      && |run.ledger.spends| == |l.spends| + 2
      && run.result.value.response == OrElse(answers.mechanic.value, "")
  {
    var u := req.userId;
    var o := GearhartRequest(req);
    var m := Assist(l, u, o, answers.mechanic, now);
    AssistAsksThenLogs(l, u, o, answers.mechanic, now);
    OrchestrationCharge(req, Gearhart);
    var l3 := Process(l, req, answers, now).ledger;
    BalanceMovedTwice(l, m.ledger, l3, u, -Markup(MechanicBase(o)), -7);
  }

  // ---------------------------------------------------------------------------
  // The pre-check checks the fee before markup

  /**
   * As written, the pre-check asks for 5 credits while the charge is the
   * marked-up 7. An account with 5 or 6 credits passes the pre-check, the chat
   * model is called twice, and then the charge is refused: the request is
   * answered with the apology (reporting 0 credits) and nothing is paid.
   */
  lemma PrecheckBelowCharge(l: Ledger, req: GoodwinRequest, answers: Answers, now: int)
    requires ClassifyIntent(answers.classification) != Gearhart && ClassifyIntent(answers.classification) != Brightwell
    requires req.userId in l.users && 5 <= l.users[req.userId].credits < 7
    ensures Process(l, req, answers, now) ==
              Run(l, Ok(Apology), [CheckBalance(req.userId, 5), External(ChatCompletions, req.query), External(ChatCompletions, req.query),
                                   Charge(req.userId, 7, FeatureTag(OrchestrationOperation(req, ClassifyIntent(answers.classification))))])
  {
    AttemptRefusedAtCharge(l, req, answers, now);
    InsufficientMentionsOnlyInsufficient(7, Some(l.users[req.userId].credits));
  }

  /** The `try` block for such a request: the pre-check passes, the model is called twice, and the charge is refused. */
  lemma AttemptRefusedAtCharge(l: Ledger, req: GoodwinRequest, answers: Answers, now: int)
    requires ClassifyIntent(answers.classification) != Gearhart && ClassifyIntent(answers.classification) != Brightwell
    requires req.userId in l.users && 5 <= l.users[req.userId].credits < 7
    ensures Attempt(l, req, answers, now, GoodwinBase) ==
              Run(l, Err(InsufficientCredits(7, Some(l.users[req.userId].credits))),
                  [CheckBalance(req.userId, 5), External(ChatCompletions, req.query), External(ChatCompletions, req.query),
                   Charge(req.userId, 7, FeatureTag(OrchestrationOperation(req, ClassifyIntent(answers.classification))))])
  {
    var t := ClassifyIntent(answers.classification);
    OrchestrationCharge(req, t);
    AttemptServed(l, req, answers, now, GoodwinBase);
    var routed := Route(l, req, t, answers, now);
    assert routed.calls == [External(ChatCompletions, req.query)];
    ChargedRefused(l, req, t, routed.result.value, now);
    var (check, ask, charge) := (CheckBalance(req.userId, 5), External(ChatCompletions, req.query),
                                 Charge(req.userId, 7, FeatureTag(OrchestrationOperation(req, t))));
    assert [check, ask] + ([ask] + [charge]) == [check, ask, ask, charge];
  }

  /**
   * Past the pre-check, a request the mechanic does not take: the
   * classification call, the servant's calls, then the orchestration charge.
   */
  lemma AttemptServed(l: Ledger, req: GoodwinRequest, answers: Answers, now: int, precheck: int)
    requires HasEnoughCredits(l, req.userId, precheck)
    requires ClassifyIntent(answers.classification) != Gearhart
    ensures var t := ClassifyIntent(answers.classification);
      var routed := Route(l, req, t, answers, now);
      var c := Charged(l, req, t, routed.result.value, now);
      && routed.ledger == l && routed.result.Ok?
      && Attempt(l, req, answers, now, precheck) ==
           Run(c.ledger, c.result, [CheckBalance(req.userId, precheck), External(ChatCompletions, req.query)] + (routed.calls + c.calls))
  {
  }

  /** An account short of the orchestration's 7 credits is refused that charge and nothing changes. */
  lemma ChargedRefused(l: Ledger, req: GoodwinRequest, t: ServantType, rt: Routed, now: int)
    requires req.userId in l.users && l.users[req.userId].credits < 7
    ensures Charged(l, req, t, rt, now) ==
              Run(l, Err(InsufficientCredits(7, Some(l.users[req.userId].credits))),
                  [Charge(req.userId, 7, FeatureTag(OrchestrationOperation(req, t)))])
  {
    OrchestrationCharge(req, t);
  }

  /** `processRequest` with the affordability check made for the marked-up fee it charges. */
  function ProcessCorrected(l: Ledger, req: GoodwinRequest, answers: Answers, now: int): (run: Run<GoodwinResponse>)
    ensures |run.calls| >= 1 && run.calls[0] == CheckBalance(req.userId, 7)
  {
    OrchestrationCharge(req, GoodwinDirect);
    Catch(Attempt(l, req, answers, now, Markup(GoodwinBase)))
  }

  /**
   * With the corrected check, a request Mr. Goodwin handles without the
   * mechanic calls the model only when it is then paid for: either nothing
   * beyond the pre-check happens, or the 7 credits are taken.
   */
  lemma CorrectedNeverServesUnpaid(l: Ledger, req: GoodwinRequest, answers: Answers, now: int)
    requires ClassifyIntent(answers.classification) != Gearhart
    ensures var run := ProcessCorrected(l, req, answers, now);
      && (|run.calls| == 1 <==> !HasEnoughCredits(l, req.userId, 7))
      && (|run.calls| == 1 ==> run.ledger == l && run.result == Ok(Apology))
      && (|run.calls| > 1 ==> run.result.Ok? && BalanceMoved(l, run.ledger, req.userId, -7))
  {
    var servant := ClassifyIntent(answers.classification);
    OrchestrationCharge(req, servant);
    InsufficientMentionsOnlyInsufficient(7, None);
  }

  // ---------------------------------------------------------------------------
  // The service, step by step

  /** The `switch` on the servant type. */
  method RouteRequest(db: Database, req: GoodwinRequest, servantType: ServantType, answers: Answers, now: int)
    returns (r: Result<Routed, Error>, calls: seq<Call>)
    modifies db
    ensures Run(db.Snapshot(), r, calls) == Route(old(db.Snapshot()), req, servantType, answers, now)
  {
    var additionalCost := 0;
    if servantType == Gearhart {
      var mechanicResponse;
      mechanicResponse, calls := GetAssistance(db, req.userId, GearhartRequest(req), answers.mechanic, now);
      match mechanicResponse {
        case Err(e) => return Err(e), calls;
        case Ok(reply) =>
          r := Ok(Routed(FormatServantResponse(Gearhart, reply.mechanicResponse.response), additionalCost));
      }
    } else if servantType == Brightwell {
      additionalCost := McpCosts["IMAGE_GENERATION"]["BASE_COST"];
      r, calls := Ok(Routed(BrightwellPlaceholder, additionalCost)), [];
    } else {
      calls := [External(ChatCompletions, req.query)];
      var response := DirectResponse(answers.direct);
      additionalCost := 0;
      r := Ok(Routed(response, additionalCost));
    }
  }

  /** The end of the `try` block: the orchestration charge, then the balance read. */
  method ChargeOrchestration(db: Database, req: GoodwinRequest, servantType: ServantType, routed: Routed, now: int)
    returns (r: Result<GoodwinResponse, Error>, calls: seq<Call>)
    modifies db
    ensures Run(db.Snapshot(), r, calls) == Charged(old(db.Snapshot()), req, servantType, routed, now)
  {
    var u := req.userId;
    var op := OrchestrationOperation(req, servantType);
    calls := [Charge(u, OperationCost(op), FeatureTag(op))];
    var recorded := RecordOperation(db, u, op, now);
    if recorded.Err? {
      return Err(recorded.error), calls;
    }
    calls := calls + [ReadBalance(u)];
    var balance := CheckCreditBalance(db.Snapshot(), u);
    match balance {
      case Err(e) => r := Err(e);
      case Ok(b) =>
        r := Ok(GoodwinResponse(routed.response, b.credits, b.lowCredits,
                                if b.lowCredits then Some(LowBalanceNotice) else None));
    }
  }

  /** The `try` block: checks, classifies, routes, charges and reads the balance. */
  method TryProcess(db: Database, req: GoodwinRequest, answers: Answers, now: int)
    returns (r: Result<GoodwinResponse, Error>, calls: seq<Call>)
    modifies db
    ensures Run(db.Snapshot(), r, calls) == Attempt(old(db.Snapshot()), req, answers, now, GoodwinBase)
  {
    var baseCost := McpCosts["GOODWIN"]["BASE_COST"];
    var u := req.userId;
    calls := [CheckBalance(u, baseCost)];
    if !HasEnoughCredits(db.Snapshot(), u, baseCost) {
      return Err(InsufficientCredits(baseCost, None)), calls;
    }
    var servantType := ClassifyIntent(answers.classification);
    calls := calls + [External(ChatCompletions, req.query)];
    ghost var asked := calls;
    var routed, routeCalls := RouteRequest(db, req, servantType, answers, now);
    if routed.Err? {
      return Err(routed.error), calls + routeCalls;
    }
    var charged;
    r, charged := ChargeOrchestration(db, req, servantType, routed.value, now);
    calls := calls + (routeCalls + charged);
  }

  method ProcessRequest(db: Database, req: GoodwinRequest, answers: Answers, now: int)
    returns (r: Result<GoodwinResponse, Error>, calls: seq<Call>)
    modifies db
    ensures Run(db.Snapshot(), r, calls) == Process(old(db.Snapshot()), req, answers, now)
  {
    r, calls := TryProcess(db, req, answers, now);
    match r {
      case Err(e) =>
        if MentionsInsufficient(e) {
          r := Ok(Apology);
        }
      case Ok(_) =>
    }
  }
}
