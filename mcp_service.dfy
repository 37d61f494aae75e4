/**
 * Operation costing and recording: the static table of base costs per server
 * and operation, the override a caller may pass, the default of one credit,
 * the markup, and the one deduction that records an operation.
 */
module McpService {
  import opened Wrappers
  import opened Errors
  import opened Store
  import opened CreditService

  /** `MCP_COSTS`: base credits per server and operation, before markup. */
  const McpCosts: map<string, map<string, int>> := map[
    "GITHUB" := map["CREATE_REPO" := 5, "FORK_REPO" := 3, "LIST_REPOS" := 1],
    "STRIPE" := map["CREATE_CUSTOMER" := 2, "CREATE_PAYMENT" := 3],
    "PUPPETEER" := map["NAVIGATE" := 2, "SCREENSHOT" := 5],
    "SEQUENTIAL_THINKING" := map["BASE_COST" := 8],
    "IMAGE_GENERATION" := map["BASE_COST" := 30, "HIGH_RESOLUTION" := 50],
    "MECHANIC_ASSISTANT" := map["BASE_COST" := 25, "IMAGE_ANALYSIS" := 15,
                                "VECTOR_STORE_CREATION" := 50, "VECTOR_STORE_SEARCH" := 10],
    "GOODWIN" := map["BASE_COST" := 5, "ORCHESTRATION" := 2]
  ]

  datatype McpOperation = McpOperation(
    server: string,
    operation: string,
    baseCost: Option<int>,
    metadata: Option<Metadata>)

  /** The table's entry for a server and operation, if it has one. */
  function TableCost(server: string, operation: string): (c: Option<int>)
    ensures c.Some? <==> server in McpCosts && operation in McpCosts[server]
    ensures c.Some? ==> c.value == McpCosts[server][operation]
  {
    if server in McpCosts && operation in McpCosts[server] then Some(McpCosts[server][operation])
    else None
  }

  /** JavaScript truthiness of an optional number: `undefined` and 0 are falsy. */
  predicate TruthyCost(c: Option<int>) {
    c.Some? && c.value != 0
  }

  /**
   * The base cost `calculateOperationCost` marks up: a truthy override, else a
   * truthy table entry, else 1. It is never 0.
   */
  function BaseCost(op: McpOperation): (b: int)
    ensures b != 0
    ensures TruthyCost(op.baseCost) ==> b == op.baseCost.value
    ensures !TruthyCost(op.baseCost) && TruthyCost(TableCost(op.server, op.operation)) ==>
              b == McpCosts[op.server][op.operation]
    ensures !TruthyCost(op.baseCost) && !TruthyCost(TableCost(op.server, op.operation)) ==> b == 1
  {
    var fromOp := op.baseCost;
    var found := if TruthyCost(fromOp) then fromOp else TableCost(op.server, op.operation);
    if TruthyCost(found) then found.value else 1
  }

  /** `calculateOperationCost`: the base cost, marked up, so always more than a positive base. */
  function OperationCost(op: McpOperation): (c: int)
    ensures BaseCost(op) > 0 ==> c > BaseCost(op)
  {
    Markup(BaseCost(op))
  }

  /** A truthy override is the base, whatever the table says. */
  lemma OverrideIsBase(op: McpOperation)
    requires TruthyCost(op.baseCost)
    ensures OperationCost(op) == Markup(op.baseCost.value)
  {
  }

  /** Every cost in the table is positive, so without an override the charge is at least 2. */
  lemma {:induction false} MinimumCharge(op: McpOperation)
    requires op.baseCost.None? || op.baseCost.value >= 0
    ensures OperationCost(op) >= 2
  {
    var t := TableCost(op.server, op.operation);
    if !TruthyCost(op.baseCost) && t.Some? {
      assert forall s, o :: s in McpCosts && o in McpCosts[s] ==> McpCosts[s][o] >= 1;
    }
    MarkupMonotone(1, BaseCost(op));
  }

  /** An unknown pair costs the default base 1, so 2 credits. */
  lemma UnknownOperationCostsTwo(op: McpOperation)
    requires !TruthyCost(op.baseCost) && TableCost(op.server, op.operation).None?
    ensures OperationCost(op) == 2
  {
  }

  /** The override wins over the table: Goodwin's orchestration with base 5 costs 7, not 3. */
  lemma OverrideExamples()
    ensures OperationCost(McpOperation("GOODWIN", "ORCHESTRATION", Some(5), None)) == 7
    ensures OperationCost(McpOperation("GOODWIN", "ORCHESTRATION", None, None)) == 3
    ensures OperationCost(McpOperation("GOODWIN", "ORCHESTRATION", Some(0), None)) == 3
  {
    assert TableCost("GOODWIN", "ORCHESTRATION") == Some(2);
  }

  /** The tag `recordOperation` logs the spend under. */
  function FeatureTag(op: McpOperation): (tag: string)
    ensures |tag| == 5 + |op.server| + |op.operation|
    ensures tag[..4] == "mcp:" && tag[4..4 + |op.server|] == op.server
    ensures tag[4 + |op.server|] == ':' && tag[5 + |op.server|..] == op.operation
  {
    "mcp:" + op.server + ":" + op.operation
  }

  /**
   * The object `recordOperation` serialises: `server`, `operation` and (when
   * given) `baseCost`, then the operation's own metadata spread over them.
   */
  function MetadataBlob(op: McpOperation): (m: Metadata)
    ensures op.metadata.Some? ==> forall k :: k in op.metadata.value ==> k in m && m[k] == op.metadata.value[k]
    ensures !(op.metadata.Some? && "server" in op.metadata.value) ==> "server" in m && m["server"] == Text(op.server)
    ensures !(op.metadata.Some? && "operation" in op.metadata.value) ==> "operation" in m && m["operation"] == Text(op.operation)
    ensures !(op.metadata.Some? && "baseCost" in op.metadata.value) ==>
              ("baseCost" in m <==> op.baseCost.Some?) &&
              (op.baseCost.Some? ==> m["baseCost"] == Number(op.baseCost.value))
  {
    var own := map["server" := Text(op.server), "operation" := Text(op.operation)];
    var withBase := if op.baseCost.Some? then own["baseCost" := Number(op.baseCost.value)] else own;
    withBase + op.metadata.GetOr(map[])
  }

  /** The one deduction `recordOperation` makes. */
  function ChargeFor(u: UserId, op: McpOperation): CreditOperation {
    CreditOperation(u, OperationCost(op), FeatureTag(op), Some(MetadataBlob(op)))
  }

  /**
   * `recordOperation` as one transaction: a single deduction of the
   * operation's cost under its tag. It commits exactly when the user can
   * afford that cost; a refusal is the deduction's own error, unchanged.
   */
  function Record(l: Ledger, u: UserId, op: McpOperation, now: int): (r: Result<Ledger, Error>)
    ensures r.Ok? <==> HasEnoughCredits(l, u, OperationCost(op))
    ensures r.Ok? ==> BalanceMoved(l, r.value, u, -OperationCost(op))
    ensures r.Ok? ==> r.value.spends == l.spends + [CreditSpend(u, FeatureTag(op), OperationCost(op), now)]
    ensures r.Ok? ==> r.value.purchases == l.purchases && r.value.adjustments == l.adjustments
    ensures r.Err? ==> r.error == (if u in l.users
                                   then InsufficientCredits(OperationCost(op), Some(l.users[u].credits))
                                   else UserNotFound(u))
  {
    Deduct(l, ChargeFor(u, op), now)
  }

  lemma RecordKeepsBooks(l: Ledger, u: UserId, op: McpOperation, now: int)
    requires WellFormed(l) && Ledgered(l)
    ensures WellFormed(After(l, Record(l, u, op, now))) && Ledgered(After(l, Record(l, u, op, now)))
  {
    DeductKeepsBooks(l, ChargeFor(u, op), now);
  }

  method RecordOperation(db: Database, u: UserId, op: McpOperation, now: int) returns (r: Result<(), Error>)
    modifies db
    ensures db.Snapshot() == After(old(db.Snapshot()), Record(old(db.Snapshot()), u, op, now))
    ensures r.Ok? <==> Record(old(db.Snapshot()), u, op, now).Ok?
    ensures r.Err? ==> r.error == Record(old(db.Snapshot()), u, op, now).error
  {
    var totalCost := OperationCost(op);
    var metadataJson := MetadataBlob(op);
    var spent := DeductCredits(db, CreditOperation(u, totalCost, FeatureTag(op), Some(metadataJson)), now);
    if spent.Err? {
      return Err(spent.error);
    }
    r := Ok(());
  }
}
