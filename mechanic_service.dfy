/**
 * The mechanic assistant ("Mr. Gearhart"): the cost of a request (a base
 * plus a charge per image), the affordability check, the prompt it builds,
 * the model call, the charge for the same base, and the vector-store
 * creation, which is paid for but creates nothing.
 */
module MechanicService {
  import opened Wrappers
  import opened Text
  import opened Errors
  import opened Store
  import opened CreditService
  import opened McpService
  import opened Flow

  datatype MechanicRequestOptions = MechanicRequestOptions(
    query: string,
    imageUrls: Option<seq<string>>,
    modelName: Option<string>,
    modelYear: Option<string>,
    vectorStoreId: Option<string>)

  /** A document the vector-store search returns. */
  datatype VectorResult = VectorResult(title: Option<string>, content: string, source: Option<string>)

  datatype Reference = Reference(title: string, content: string, source: string)

  /** The reply: the model's text, and references the service never fills in. */
  datatype MechanicResponse = MechanicResponse(response: string, sourcedReferences: seq<Reference>)

  datatype MechanicReply = MechanicReply(mechanicResponse: MechanicResponse, credits: int, lowCredits: bool)

  /** `options.imageUrls?.length`, with an absent list counting as none. */
  function ImageCount(o: MechanicRequestOptions): nat {
    if o.imageUrls.Some? then |o.imageUrls.value| else 0
  }

  // ---------------------------------------------------------------------------
  // Cost

  /** The base cost of a request: the assistant's base plus the image-analysis cost per image. */
  function MechanicBase(o: MechanicRequestOptions): (b: int)
    ensures b == 25 + 15 * ImageCount(o)
  {
    var base := McpCosts["MECHANIC_ASSISTANT"]["BASE_COST"];
    if o.imageUrls.Some? && |o.imageUrls.value| > 0 then
      base + |o.imageUrls.value| * McpCosts["MECHANIC_ASSISTANT"]["IMAGE_ANALYSIS"]
    else
      base
  }

  lemma MechanicCostExamples(o: MechanicRequestOptions)
    ensures ImageCount(o) == 0 ==> Markup(MechanicBase(o)) == 33
    ensures ImageCount(o) == 1 ==> Markup(MechanicBase(o)) == 52
    ensures ImageCount(o) == 2 ==> Markup(MechanicBase(o)) == 72
  {
  }

  /** The operation `getAssistance` records: Mr. Gearhart's service at the base it checked. */
  function GearhartOperation(o: MechanicRequestOptions, base: int): McpOperation {
    var m := map["query" := MetaValue.Text(o.query), "imageCount" := Number(ImageCount(o))];
    var m1 := if o.modelName.Some? then m["modelName" := MetaValue.Text(o.modelName.value)] else m;
    var m2 := if o.modelYear.Some? then m1["modelYear" := MetaValue.Text(o.modelYear.value)] else m1;
    McpOperation("MECHANIC_ASSISTANT", "MR_GEARHART", Some(base), Some(m2))
  }

  /** The charge is the pre-checked amount: the recorded base is the checked base. */
  lemma GearhartChargeIsPreCheck(o: MechanicRequestOptions)
    ensures OperationCost(GearhartOperation(o, MechanicBase(o))) == Markup(MechanicBase(o))
  {
    OverrideIsBase(GearhartOperation(o, MechanicBase(o)));
  }

  // ---------------------------------------------------------------------------
  // The prompt

  const GearhartIntro := "You are Mr. Gearhart, a specialized mechanic assistant with extensive knowledge of equipment, vehicles, and repair procedures. "
  const ModelLead := "The user is inquiring about a "
  const ImageLead := "The user has provided "

  function ModelClause(o: MechanicRequestOptions): string
    requires o.modelName.Some?
  {
    ModelLead + (OrElse(o.modelYear, "") + " " + o.modelName.value + ". ")
  }

  function ImageClause(n: nat): string {
    ImageLead + (NatToString(n) + " image(s) of the equipment or issue. ")
  }

  /** `buildContext`: the introduction, then the model clause, then the image clause. */
  function BuildContext(o: MechanicRequestOptions): string {
    GearhartIntro + ((if Truthy(o.modelName) then ModelClause(o) else "")
                     + (if ImageCount(o) > 0 then ImageClause(ImageCount(o)) else ""))
  }

  /** The two clauses are told apart by their tenth character. */
  lemma LeadsDiffer(s: string)
    requires StartsWith(s, ImageLead)
    ensures !StartsWith(s, ModelLead)
  {
    assert s[9] == s[..|ImageLead|][9] == ImageLead[9] == 'h';
    assert ModelLead[9] == 'i';
  }

  /**
   * The context is the introduction, then the model clause exactly when a
   * model name is given, then the image clause exactly when images are.
   */
  lemma BuildContextShape(o: MechanicRequestOptions)
    ensures StartsWith(BuildContext(o), GearhartIntro)
    ensures Truthy(o.modelName) <==> StartsWith(BuildContext(o)[|GearhartIntro|..], ModelLead)
    ensures Truthy(o.modelName) ==> StartsWith(BuildContext(o)[|GearhartIntro|..], ModelClause(o))
    ensures ImageCount(o) > 0 ==> EndsWith(BuildContext(o), ImageClause(ImageCount(o)))
    ensures ImageCount(o) == 0 ==>
              BuildContext(o) == GearhartIntro + (if Truthy(o.modelName) then ModelClause(o) else "")
  {
    var clause := if Truthy(o.modelName) then ModelClause(o) else "";
    var images := if ImageCount(o) > 0 then ImageClause(ImageCount(o)) else "";
    ThreeParts(GearhartIntro, clause, images);
    if Truthy(o.modelName) {
      ConcatParts(ModelLead, OrElse(o.modelYear, "") + " " + o.modelName.value + ". ");
      ConcatParts(clause, images);
      StartsWithConcat(clause, images, ModelLead);
    } else if ImageCount(o) > 0 {
      ConcatParts(ImageLead, NatToString(ImageCount(o)) + " image(s) of the equipment or issue. ");
      LeadsDiffer(clause + images);
    }
  }

  const ReferenceHeading := "REFERENCE MATERIALS:\n"
  const Instructions :=
    "Please provide a helpful, detailed response that includes:\n"
    + "1. A diagnosis of the problem based on the description and any images\n"
    + "2. Step-by-step instructions for repair or maintenance\n"
    + "3. Safety precautions when applicable\n"
    + "4. Required tools and parts with specific part numbers when possible\n"
    + "5. Alternative solutions if available\n\n"
    + "Format your response for structured extraction of referenced materials and part suggestions."

  /** The entry for the result at (zero-based) position `i`, numbered from 1. */
  function Entry(i: nat, v: VectorResult): string {
    "[" + NatToString(i + 1) + "] " + OrElse(v.title, "Document") + ": " + v.content
    + "\nSource: " + OrElse(v.source, "Unknown") + "\n\n"
  }

  /** The entries of all results, in order. */
  function Entries(rs: seq<VectorResult>): string {
    if rs == [] then "" else Entries(rs[..|rs| - 1]) + Entry(|rs| - 1, rs[|rs| - 1])
  }

  /** The system message `buildSystemMessage` assembles. */
  function SystemMessage(context: string, rs: seq<VectorResult>): string {
    context + "\n\n" + (if |rs| > 0 then ReferenceHeading + Entries(rs) else "") + Instructions
  }

  lemma SystemMessageShape(context: string, rs: seq<VectorResult>)
    ensures StartsWith(SystemMessage(context, rs), context + "\n\n")
    ensures EndsWith(SystemMessage(context, rs), Instructions)
    ensures rs == [] ==> SystemMessage(context, rs) == context + "\n\n" + Instructions
  {
    var m := SystemMessage(context, rs);
    var mid := if |rs| > 0 then ReferenceHeading + Entries(rs) else "";
    assert m == (context + "\n\n") + (mid + Instructions);
    assert m[..|context + "\n\n"|] == context + "\n\n";
    assert m[|m| - |Instructions|..] == Instructions;
  }

  /** Appending the next entry extends the entries of a prefix by one. */
  lemma EntriesStep(rs: seq<VectorResult>, i: nat)
    requires i < |rs|
    ensures Entries(rs[..i + 1]) == Entries(rs[..i]) + Entry(i, rs[i])
  {
    assert rs[..i + 1][..i] == rs[..i];
  }

  lemma AppendInside(a: string, b: string, c: string, d: string)
    ensures (a + (b + c)) + d == a + (b + (c + d))
  {
  }

  /** `buildSystemMessage`: the context, the numbered references if any, then the instructions. */
  method BuildSystemMessage(context: string, rs: seq<VectorResult>) returns (m: string)
    ensures m == SystemMessage(context, rs)
  {
    var head := context + "\n\n";
    m := head;
    if |rs| > 0 {
      m := m + ReferenceHeading;
      var i := 0;
      while i < |rs|
        invariant 0 <= i <= |rs|
        invariant m == head + (ReferenceHeading + Entries(rs[..i]))
      {
        EntriesStep(rs, i);
        AppendInside(head, ReferenceHeading, Entries(rs[..i]), Entry(i, rs[i]));
        m := m + Entry(i, rs[i]);
        i := i + 1;
      }
      assert rs[..|rs|] == rs;
    } else {
      assert head + "" == head;
    }
    m := m + Instructions;
  }

  /** `searchVectorStore` is a placeholder: it finds nothing, whatever the store. */
  function SearchVectorStore(o: MechanicRequestOptions): (rs: seq<VectorResult>)
    ensures rs == []
  {
    []
  }

  // ---------------------------------------------------------------------------
  // getAssistance

  /**
   * `getAssistance(userId, options)` where the chat model answers `reply`
   * (an error, or the message content, which may be null).
   */
  function Assist(l: Ledger, u: UserId, o: MechanicRequestOptions,
                  reply: Result<Option<string>, string>, now: int): (run: Run<MechanicReply>)
    ensures |run.calls| >= 1 && run.calls[0] == CheckBalance(u, Markup(MechanicBase(o)))
    ensures !HasEnoughCredits(l, u, Markup(MechanicBase(o))) ==>
              run == Run(l, Err(InsufficientCredits(Markup(MechanicBase(o)), None)), [run.calls[0]])
    ensures run.result.Ok? <==> HasEnoughCredits(l, u, Markup(MechanicBase(o))) && reply.Ok?
    ensures run.result.Err? ==> run.ledger == l
    ensures run.result.Err? && HasEnoughCredits(l, u, Markup(MechanicBase(o))) ==> run.result.error == MechanicFailed
    ensures run.result.Ok? ==> BalanceMoved(l, run.ledger, u, -Markup(MechanicBase(o)))
    ensures run.result.Ok? ==>
              && run.result.value.mechanicResponse == MechanicResponse(OrElse(reply.value, ""), [])
              && run.result.value.credits == run.ledger.users[u].credits
              && (run.result.value.lowCredits <==> run.result.value.credits < LowCreditThreshold)
  {
    var baseCost := MechanicBase(o);
    var totalCost := Markup(baseCost);
    var checked := [CheckBalance(u, totalCost)];
    if !HasEnoughCredits(l, u, totalCost) then
      Run(l, Err(InsufficientCredits(totalCost, None)), checked)
    else
      var systemMessage := SystemMessage(BuildContext(o), SearchVectorStore(o));
      var asked := checked + [External(ChatCompletions, systemMessage)];
      match reply
      case Err(_) => Run(l, Err(MechanicFailed), asked)
      case Ok(content) =>
        var op := GearhartOperation(o, baseCost);
        GearhartChargeIsPreCheck(o);
        var charged := asked + [Charge(u, OperationCost(op), FeatureTag(op))];
        match Record(l, u, op, now)
        case Err(_) => Run(l, Err(MechanicFailed), charged)
        case Ok(l2) =>
          var read := charged + [ReadBalance(u)];
          match CheckCreditBalance(l2, u)
          case Err(_) => Run(l2, Err(MechanicFailed), read)
          case Ok(b) =>
            Run(l2, Ok(MechanicReply(MechanicResponse(OrElse(content, ""), []), b.credits, b.lowCredits)), read)
  }

  /**
   * Past the pre-check the model is asked with the system message built from
   * the request (no reference materials), and a success logs exactly one
   * spend, under `mcp:MECHANIC_ASSISTANT:MR_GEARHART`, for the marked-up fee.
   */
  lemma AssistAsksThenLogs(l: Ledger, u: UserId, o: MechanicRequestOptions,
                           reply: Result<Option<string>, string>, now: int)
    ensures var run := Assist(l, u, o, reply, now);
      && (HasEnoughCredits(l, u, Markup(MechanicBase(o))) ==>
            |run.calls| >= 2 && run.calls[1] == External(ChatCompletions, SystemMessage(BuildContext(o), [])))
      && (run.result.Ok? ==>
            && run.ledger.spends == l.spends + [CreditSpend(u, "mcp:" + "MECHANIC_ASSISTANT" + ":" + "MR_GEARHART", Markup(MechanicBase(o)), now)]
            && run.ledger.purchases == l.purchases && run.ledger.adjustments == l.adjustments)
  {
    var run := Assist(l, u, o, reply, now);
    GearhartChargeIsPreCheck(o);
    if run.result.Ok? {
      var op := GearhartOperation(o, MechanicBase(o));
      assert run.ledger == Record(l, u, op, now).value;
      assert FeatureTag(op) == "mcp:" + "MECHANIC_ASSISTANT" + ":" + "MR_GEARHART";
    }
  }

  lemma AssistKeepsBooks(l: Ledger, u: UserId, o: MechanicRequestOptions,
                         reply: Result<Option<string>, string>, now: int)
    requires WellFormed(l) && Ledgered(l)
    ensures WellFormed(Assist(l, u, o, reply, now).ledger) && Ledgered(Assist(l, u, o, reply, now).ledger)
  {
    if Assist(l, u, o, reply, now).result.Ok? {
      RecordKeepsBooks(l, u, GearhartOperation(o, MechanicBase(o)), now);
    }
  }

  /** Only the refused pre-check mentions credits; every later failure is the generic one. */
  lemma AssistErrorMessages(l: Ledger, u: UserId, o: MechanicRequestOptions,
                            reply: Result<Option<string>, string>, now: int)
    requires Assist(l, u, o, reply, now).result.Err?
    ensures (MentionsInsufficient(Assist(l, u, o, reply, now).result.error)
             <==> !HasEnoughCredits(l, u, Markup(MechanicBase(o))))
  {
    if HasEnoughCredits(l, u, Markup(MechanicBase(o))) {
      GenericMentionsNeither(MechanicFailed);
    } else {
      InsufficientMentionsOnlyInsufficient(Markup(MechanicBase(o)), None);
    }
  }

  method GetAssistance(db: Database, u: UserId, o: MechanicRequestOptions,
                       reply: Result<Option<string>, string>, now: int)
    returns (r: Result<MechanicReply, Error>, calls: seq<Call>)
    modifies db
    ensures Run(db.Snapshot(), r, calls) == Assist(old(db.Snapshot()), u, o, reply, now)
  {
    var baseCost := McpCosts["MECHANIC_ASSISTANT"]["BASE_COST"];
    if o.imageUrls.Some? && |o.imageUrls.value| > 0 {
      baseCost := baseCost + |o.imageUrls.value| * McpCosts["MECHANIC_ASSISTANT"]["IMAGE_ANALYSIS"];
    }
    assert baseCost == MechanicBase(o);
    var totalCost := Markup(baseCost);
    calls := [CheckBalance(u, totalCost)];
    if !HasEnoughCredits(db.Snapshot(), u, totalCost) {
      return Err(InsufficientCredits(totalCost, None)), calls;
    }
    var context := BuildContext(o);
    var vectorStoreResults := SearchVectorStore(o);
    var systemMessage := BuildSystemMessage(context, vectorStoreResults);
    calls := calls + [External(ChatCompletions, systemMessage)];
    if reply.Err? {
      return Err(MechanicFailed), calls;
    }
    var mechanicResponse := MechanicResponse(OrElse(reply.value, ""), []);
    var op := GearhartOperation(o, baseCost);
    GearhartChargeIsPreCheck(o);
    calls := calls + [Charge(u, OperationCost(op), FeatureTag(op))];
    var recorded := RecordOperation(db, u, op, now);
    if recorded.Err? {
      return Err(MechanicFailed), calls;
    }
    calls := calls + [ReadBalance(u)];
    var balance := CheckCreditBalance(db.Snapshot(), u);
    match balance {
      case Err(_) => r := Err(MechanicFailed);
      case Ok(b) => r := Ok(MechanicReply(mechanicResponse, b.credits, b.lowCredits));
    }
  }

  // ---------------------------------------------------------------------------
  // createEquipmentVectorStore

  function VectorStoreOperation(name: string, fileCount: nat): McpOperation {
    McpOperation("MECHANIC_ASSISTANT", "CREATE_VECTOR_STORE",
                 Some(McpCosts["MECHANIC_ASSISTANT"]["VECTOR_STORE_CREATION"]),
                 Some(map["name" := MetaValue.Text(name), "fileCount" := Number(fileCount)]))
  }

  /** The creation is charged the checked 65 credits, under its own tag. */
  lemma VectorStoreCharge(name: string, fileCount: nat)
    ensures OperationCost(VectorStoreOperation(name, fileCount)) == 65
  {
    var op := VectorStoreOperation(name, fileCount);
    assert op.baseCost == Some(50);
    OverrideIsBase(op);
  }

  /**
   * `createEquipmentVectorStore(userId, name, files)` with `fileCount` files,
   * at time `now`: checks 65 credits, charges the same 65 (base 50) and
   * returns a made-up store id; no store is created.
   */
  function CreateVectorStore(l: Ledger, u: UserId, name: string, fileCount: nat, now: int): (run: Run<string>)
    ensures |run.calls| >= 1 && run.calls[0] == CheckBalance(u, 65)
    ensures run.result.Ok? <==> HasEnoughCredits(l, u, 65)
    ensures !HasEnoughCredits(l, u, 65) ==> run == Run(l, Err(InsufficientCredits(65, None)), [run.calls[0]])
    ensures run.result.Ok? ==>
              && run.calls == [CheckBalance(u, 65), Charge(u, 65, "mcp:" + "MECHANIC_ASSISTANT" + ":" + "CREATE_VECTOR_STORE")]
              && BalanceMoved(l, run.ledger, u, -65)
              && run.ledger.spends == l.spends + [CreditSpend(u, "mcp:" + "MECHANIC_ASSISTANT" + ":" + "CREATE_VECTOR_STORE", 65, now)]
              && run.ledger.purchases == l.purchases && run.ledger.adjustments == l.adjustments
              && StartsWith(run.result.value, "vs_")
    ensures run.result.Err? ==> run.ledger == l
  {
    var baseCost := McpCosts["MECHANIC_ASSISTANT"]["VECTOR_STORE_CREATION"];
    var totalCost := Markup(baseCost);
    var checked := [CheckBalance(u, totalCost)];
    if !HasEnoughCredits(l, u, totalCost) then
      Run(l, Err(InsufficientCredits(totalCost, None)), checked)
    else
      var op := VectorStoreOperation(name, fileCount);
      VectorStoreCharge(name, fileCount);
      var charged := checked + [Charge(u, OperationCost(op), FeatureTag(op))];
      match Record(l, u, op, now)
      case Err(_) => Run(l, Err(VectorStoreFailed), charged)
      case Ok(l2) => Run(l2, Ok("vs_" + IntToString(now)), charged)
  }

  /** Creating a store keeps the books: it either changes nothing or makes the one logged deduction. */
  lemma CreateVectorStoreKeepsBooks(l: Ledger, u: UserId, name: string, fileCount: nat, now: int)
    requires WellFormed(l) && Ledgered(l)
    ensures WellFormed(CreateVectorStore(l, u, name, fileCount, now).ledger)
    ensures Ledgered(CreateVectorStore(l, u, name, fileCount, now).ledger)
  {
    RecordKeepsBooks(l, u, VectorStoreOperation(name, fileCount), now);
  }

  method CreateEquipmentVectorStore(db: Database, u: UserId, name: string, fileCount: nat, now: int)
    returns (r: Result<string, Error>, calls: seq<Call>)
    modifies db
    ensures Run(db.Snapshot(), r, calls) == CreateVectorStore(old(db.Snapshot()), u, name, fileCount, now)
  {
    var baseCost := McpCosts["MECHANIC_ASSISTANT"]["VECTOR_STORE_CREATION"];
    var totalCost := Markup(baseCost);
    calls := [CheckBalance(u, totalCost)];
    if !HasEnoughCredits(db.Snapshot(), u, totalCost) {
      return Err(InsufficientCredits(totalCost, None)), calls;
    }
    var op := VectorStoreOperation(name, fileCount);
    calls := calls + [Charge(u, OperationCost(op), FeatureTag(op))];
    var recorded := RecordOperation(db, u, op, now);
    if recorded.Err? {
      return Err(VectorStoreFailed), calls;
    }
    r := Ok("vs_" + IntToString(now));
  }
}
