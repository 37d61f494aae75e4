/**
 * Image generation ("Mr. Brightwell"): the cost of a request from its size,
 * quality and number of images, the affordability check, the image call,
 * the charge for the same base, and the list of images returned. Every
 * failure after the affordability check is reported as the one generic
 * image error.
 */
module ImageGenerationService {
  import opened Wrappers
  import opened Errors
  import opened Store
  import opened CreditService
  import opened McpService
  import opened Flow

  datatype ImageGenerationOptions = ImageGenerationOptions(
    prompt: string,
    numberOfImages: Option<int>,
    size: Option<string>,
    quality: Option<string>,
    style: Option<string>,
    responseFormat: Option<string>)

  /** One entry of the image API's `data` list. */
  datatype ImageItem = ImageItem(b64Json: Option<string>, url: Option<string>)

  /** What the image API answers: `data` may be absent. */
  datatype ImagesResponse = ImagesResponse(data: Option<seq<ImageItem>>)

  /** The images (each a URL or base64 text, or absent where the item lacked it) and the balance after. */
  datatype ImageReply = ImageReply(images: seq<Option<string>>, credits: int, lowCredits: bool)

  /** `options.numberOfImages || 1`: an absent or zero count means one image. */
  function NumberOfImages(o: ImageGenerationOptions): (n: int)
    ensures n != 0
    ensures TruthyCost(o.numberOfImages) ==> n == o.numberOfImages.value
    ensures !TruthyCost(o.numberOfImages) ==> n == 1
  {
    if TruthyCost(o.numberOfImages) then o.numberOfImages.value else 1
  }

  function Size(o: ImageGenerationOptions): string { OrElse(o.size, "1024x1024") }
  function Quality(o: ImageGenerationOptions): string { OrElse(o.quality, "standard") }
  function Style(o: ImageGenerationOptions): string { OrElse(o.style, "natural") }

  /** The two wide sizes are charged at the high-resolution rate. */
  predicate HighResolution(size: string) {
    size == "1792x1024" || size == "1024x1792"
  }

  /**
   * The base cost before markup: 30 per image, 50 at a wide size, half as
   * much again in HD, times the number of images. The rates are even, so the
   * source's multiplication by 1.5 is exact.
   */
  function ImageBase(o: ImageGenerationOptions): (b: int)
    ensures b != 0
    ensures !HighResolution(Size(o)) && Quality(o) != "hd" ==> b == 30 * NumberOfImages(o)
    ensures !HighResolution(Size(o)) && Quality(o) == "hd" ==> b == 45 * NumberOfImages(o)
    ensures HighResolution(Size(o)) && Quality(o) != "hd" ==> b == 50 * NumberOfImages(o)
    ensures HighResolution(Size(o)) && Quality(o) == "hd" ==> b == 75 * NumberOfImages(o)
  {
    var rate := if HighResolution(Size(o)) then McpCosts["IMAGE_GENERATION"]["HIGH_RESOLUTION"]
                else McpCosts["IMAGE_GENERATION"]["BASE_COST"];
    var perImage := if Quality(o) == "hd" then rate * 3 / 2 else rate;
    perImage * NumberOfImages(o)
  }

  /** HD costs exactly half as much again as the same request in standard quality. */
  lemma HdCostsHalfAgain(o: ImageGenerationOptions)
    ensures 2 * ImageBase(o.(quality := Some("hd"))) == 3 * ImageBase(o.(quality := None))
  {
  }

  /** With the defaults, one image costs 39 credits; wide HD images cost 98 each. */
  lemma ImageCostExamples(o: ImageGenerationOptions)
    ensures !TruthyCost(o.numberOfImages) && o.size.None? && o.quality.None? ==> Markup(ImageBase(o)) == 39
    ensures o.numberOfImages == Some(1) && o.size == Some("1792x1024") && o.quality == Some("hd") ==>
              Markup(ImageBase(o)) == 98
  {
  }

  /** The operation `generateImages` records, at the base it checked. */
  function ImageOperation(o: ImageGenerationOptions, base: int): McpOperation {
    McpOperation("IMAGE_GENERATION", "DALLE", Some(base), Some(map[
      "prompt" := MetaValue.Text(o.prompt),
      "numberOfImages" := Number(NumberOfImages(o)),
      "size" := MetaValue.Text(Size(o)),
      "quality" := MetaValue.Text(Quality(o)),
      "style" := MetaValue.Text(Style(o))]))
  }

  /** The base recorded is never 0, so it overrides the table: the charge is the checked amount. */
  lemma ImageChargeIsPreCheck(o: ImageGenerationOptions)
    ensures OperationCost(ImageOperation(o, ImageBase(o))) == Markup(ImageBase(o))
  {
    OverrideIsBase(ImageOperation(o, ImageBase(o)));
  }

  /** The field of an item the requested format names. */
  function Pick(o: ImageGenerationOptions, item: ImageItem): Option<string> {
    if o.responseFormat == Some("b64_json") then item.b64Json else item.url
  }

  /** `(response.data ?? []).map(...)`: one entry per item, in order. */
  function ImageList(o: ImageGenerationOptions, data: Option<seq<ImageItem>>): (images: seq<Option<string>>)
    ensures data.None? ==> images == []
    ensures data.Some? ==> |images| == |data.value|
    ensures data.Some? ==> forall i :: 0 <= i < |images| ==> images[i] == Pick(o, data.value[i])
  {
    var items := data.GetOr([]);
    seq(|items|, i requires 0 <= i < |items| => Pick(o, items[i]))
  }

  /**
   * `generateImages(userId, options)` where the image API answers
   * `response`.
   */
  function Generate(l: Ledger, u: UserId, o: ImageGenerationOptions,
                    response: Result<ImagesResponse, string>, now: int): (run: Run<ImageReply>)
    ensures |run.calls| >= 1 && run.calls[0] == CheckBalance(u, Markup(ImageBase(o)))
    ensures !HasEnoughCredits(l, u, Markup(ImageBase(o))) ==>
              run == Run(l, Err(InsufficientCredits(Markup(ImageBase(o)), None)), [run.calls[0]])
    ensures HasEnoughCredits(l, u, Markup(ImageBase(o))) ==>
              |run.calls| >= 2 && run.calls[1] == External(ImagesGenerate, o.prompt)
    ensures run.result.Ok? <==> HasEnoughCredits(l, u, Markup(ImageBase(o))) && response.Ok?
    ensures run.result.Err? ==> run.ledger == l
    ensures run.result.Err? && HasEnoughCredits(l, u, Markup(ImageBase(o))) ==> run.result.error == ImageFailed
    ensures run.result.Ok? ==> BalanceMoved(l, run.ledger, u, -Markup(ImageBase(o)))
    ensures run.result.Ok? ==>
              run.ledger.spends == l.spends + [CreditSpend(u, "mcp:" + "IMAGE_GENERATION" + ":" + "DALLE", Markup(ImageBase(o)), now)]
    ensures run.result.Ok? ==> run.ledger.purchases == l.purchases && run.ledger.adjustments == l.adjustments
    ensures run.result.Ok? ==>
              && run.result.value.images == ImageList(o, response.value.data)
              && run.result.value.credits == run.ledger.users[u].credits
              && (run.result.value.lowCredits <==> run.result.value.credits < LowCreditThreshold)
  {
    var baseCost := ImageBase(o);
    var totalCost := Markup(baseCost);
    var checked := [CheckBalance(u, totalCost)];
    if !HasEnoughCredits(l, u, totalCost) then
      Run(l, Err(InsufficientCredits(totalCost, None)), checked)
    else
      var asked := checked + [External(ImagesGenerate, o.prompt)];
      match response
      case Err(_) => Run(l, Err(ImageFailed), asked)
      case Ok(answer) =>
        var op := ImageOperation(o, baseCost);
        ImageChargeIsPreCheck(o);
        var charged := asked + [Charge(u, OperationCost(op), FeatureTag(op))];
        match Record(l, u, op, now)
        case Err(_) => Run(l, Err(ImageFailed), charged)
        case Ok(l2) =>
          var read := charged + [ReadBalance(u)];
          match CheckCreditBalance(l2, u)
          case Err(_) => Run(l2, Err(ImageFailed), read)
          case Ok(b) => Run(l2, Ok(ImageReply(ImageList(o, answer.data), b.credits, b.lowCredits)), read)
  }

  lemma GenerateKeepsBooks(l: Ledger, u: UserId, o: ImageGenerationOptions,
                           response: Result<ImagesResponse, string>, now: int)
    requires WellFormed(l) && Ledgered(l)
    ensures WellFormed(Generate(l, u, o, response, now).ledger) && Ledgered(Generate(l, u, o, response, now).ledger)
  {
    if Generate(l, u, o, response, now).result.Ok? {
      RecordKeepsBooks(l, u, ImageOperation(o, ImageBase(o)), now);
    }
  }

  /** Only the refused pre-check mentions credits; every later failure is the generic one. */
  lemma GenerateErrorMessages(l: Ledger, u: UserId, o: ImageGenerationOptions,
                              response: Result<ImagesResponse, string>, now: int)
    requires Generate(l, u, o, response, now).result.Err?
    ensures (MentionsInsufficient(Generate(l, u, o, response, now).result.error)
             <==> !HasEnoughCredits(l, u, Markup(ImageBase(o))))
  {
    if HasEnoughCredits(l, u, Markup(ImageBase(o))) {
      GenericMentionsNeither(ImageFailed);
    } else {
      InsufficientMentionsOnlyInsufficient(Markup(ImageBase(o)), None);
    }
  }

  method GenerateImages(db: Database, u: UserId, o: ImageGenerationOptions,
                        response: Result<ImagesResponse, string>, now: int)
    returns (r: Result<ImageReply, Error>, calls: seq<Call>)
    modifies db
    ensures Run(db.Snapshot(), r, calls) == Generate(old(db.Snapshot()), u, o, response, now)
  {
    var numberOfImages := if TruthyCost(o.numberOfImages) then o.numberOfImages.value else 1;
    var size := OrElse(o.size, "1024x1024");
    var quality := OrElse(o.quality, "standard");
    var baseCost := McpCosts["IMAGE_GENERATION"]["BASE_COST"];
    if size == "1792x1024" || size == "1024x1792" {
      baseCost := McpCosts["IMAGE_GENERATION"]["HIGH_RESOLUTION"];
    }
    if quality == "hd" {
      baseCost := baseCost * 3 / 2;
    }
    baseCost := baseCost * numberOfImages;
    var totalCost := Markup(baseCost);
    calls := [CheckBalance(u, totalCost)];
    if !HasEnoughCredits(db.Snapshot(), u, totalCost) {
      return Err(InsufficientCredits(totalCost, None)), calls;
    }
    calls := calls + [External(ImagesGenerate, o.prompt)];
    if response.Err? {
      return Err(ImageFailed), calls;
    }
    var op := ImageOperation(o, baseCost);
    calls := calls + [Charge(u, OperationCost(op), FeatureTag(op))];
    var recorded := RecordOperation(db, u, op, now);
    if recorded.Err? {
      return Err(ImageFailed), calls;
    }
    calls := calls + [ReadBalance(u)];
    var balance := CheckCreditBalance(db.Snapshot(), u);
    match balance {
      case Err(_) => r := Err(ImageFailed);
      case Ok(b) => r := Ok(ImageReply(ImageList(o, response.value.data), b.credits, b.lowCredits));
    }
  }
}
