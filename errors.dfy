/**
 * The errors the services throw, with the exact message text each one
 * carries. Callers in the source classify errors by searching their message
 * (`error.message.includes(...)`), so the message is part of the model.
 */
module Errors {
  import opened Wrappers
  import opened Text

  datatype Error =
      /** lib/services/mcpCreditManager.ts: no user id in the session. */
    | Unauthorized
      /** lib/services/creditService.ts: `deductCredits` or `checkCreditBalance` on an unknown id. */
    | UserNotFound(userId: string)
      /** A failed affordability check (`available` is None) or a refused deduction (`available` is the balance). */
    | InsufficientCredits(required: int, available: Option<int>)
      /** An error thrown by an external operation and propagated unchanged. */
    | Thrown(message: string)
      /** The generic errors the feature services rethrow in place of any failure after their pre-check. */
    | MechanicFailed
    | VectorStoreFailed
    | ImageFailed
      /** app/api/auth/options.ts: `createUser` without an email, or with the database unreachable. */
    | EmailRequired
    | DatabaseUnavailable
      /** A write the database itself refuses (a row referring to a user that does not exist). */
    | StoreFault(detail: string)
  {
    function Message(): string {
      match this
      case Unauthorized => UnauthorizedText
      case UserNotFound(id) => "User with ID " + id + " not found"
      case InsufficientCredits(required, available) =>
        InsufficientPhrase + ". Required: " + IntToString(required)
        + (match available
           case Some(a) => ", Available: " + IntToString(a)
           case None => "")
      case Thrown(m) => m
      case MechanicFailed => "Failed to get mechanic assistance." + RetryLater
      case VectorStoreFailed => "Failed to create vector store." + RetryLater
      case ImageFailed => "Failed to generate images." + RetryLater
      case EmailRequired => "Email is required for user creation"
      case DatabaseUnavailable => "Database connection failed"
      case StoreFault(detail) => detail
    }
  }

  const RetryLater := " Please try again later."
  const UnauthorizedText := "Unauthorized: User must be logged in"
  const UnauthorizedPhrase := "Unauthorized"
  const InsufficientPhrase := "Insufficient credits"

  /** `error.message.includes('Unauthorized')`. */
  predicate MentionsUnauthorized(e: Error) {
    Contains(e.Message(), UnauthorizedPhrase)
  }

  /** `error.message.includes('Insufficient credits')`. */
  predicate MentionsInsufficient(e: Error) {
    Contains(e.Message(), InsufficientPhrase)
  }

  lemma UnauthorizedMentionsOnlyUnauthorized()
    ensures MentionsUnauthorized(Unauthorized)
    ensures !MentionsInsufficient(Unauthorized)
  {
    assert StartsWith(UnauthorizedText, UnauthorizedPhrase);
    PrefixIsContained(UnauthorizedText, UnauthorizedPhrase);
    assert Lacks(UnauthorizedText, 'I');
    MissingFirstChar(UnauthorizedText, InsufficientPhrase);
  }

  /** Both insufficient-credit messages start with the phrase and never mention authorisation. */
  lemma InsufficientMentionsOnlyInsufficient(required: int, available: Option<int>)
    ensures MentionsInsufficient(InsufficientCredits(required, available))
    ensures !MentionsUnauthorized(InsufficientCredits(required, available))
  {
    var head := InsufficientPhrase + ". Required: ";
    var tail := match available
      case Some(a) => ", Available: " + IntToString(a)
      case None => "";
    var body := IntToString(required) + tail;
    var m := head + body;
    assert m == InsufficientCredits(required, available).Message();
    InsufficientHead(body);
    TailLacksU(required, available);
    MissingFirstChar(m, UnauthorizedPhrase);
  }

  lemma InsufficientHead(body: string)
    ensures Contains(InsufficientPhrase + ". Required: " + body, InsufficientPhrase)
    ensures Lacks(body, 'U') ==> Lacks(InsufficientPhrase + ". Required: " + body, 'U')
  {
    var head := InsufficientPhrase + ". Required: ";
    assert head + body == InsufficientPhrase + (". Required: " + body);
    ConcatParts(InsufficientPhrase, ". Required: " + body);
    PrefixIsContained(head + body, InsufficientPhrase);
    HeadLacksU();
    LacksConcat(InsufficientPhrase, ". Required: ", 'U');
    if Lacks(body, 'U') {
      LacksConcat(head, body, 'U');
    }
  }

  lemma HeadLacksU()
    ensures Lacks(InsufficientPhrase, 'U') && Lacks(". Required: ", 'U')
  {
  }

  lemma TailLacksU(required: int, available: Option<int>)
    ensures Lacks(IntToString(required) + (match available
      case Some(a) => ", Available: " + IntToString(a)
      case None => ""), 'U')
  {
    NoLetterInDigits(required, 'U');
    var tail := match available
      case Some(a) => ", Available: " + IntToString(a)
      case None => "";
    if available.Some? {
      NoLetterInDigits(available.value, 'U');
      LacksConcat(", Available: ", IntToString(available.value), 'U');
    }
    LacksConcat(IntToString(required), tail, 'U');
  }

  /** Neither a 'U' nor an 'I': the message cannot mention either phrase. */
  predicate Plain(s: string) {
    Lacks(s, 'U') && Lacks(s, 'I')
  }

  lemma PlainConcat(a: string, b: string)
    requires Plain(a) && Plain(b)
    ensures Plain(a + b)
  {
    LacksConcat(a, b, 'U');
    LacksConcat(a, b, 'I');
  }

  lemma {:induction false} PlainMentionsNeither(m: string)
    requires Plain(m)
    ensures !Contains(m, UnauthorizedPhrase) && !Contains(m, InsufficientPhrase)
  {
    MissingFirstChar(m, UnauthorizedPhrase);
    MissingFirstChar(m, InsufficientPhrase);
  }

  /** " Please try again later." ends three of the generic messages. */
  lemma PlainRetry()
    ensures Plain(RetryLater)
  {
    assert Plain(" Please try ");
    assert Plain("again later.");
    PlainConcat(" Please try ", "again later.");
    assert RetryLater == " Please try " + "again later.";
  }

  lemma PlainThree(a: string, b: string, c: string)
    requires Plain(a) && Plain(b) && Plain(c)
    ensures Plain(a + b + c)
  {
    PlainConcat(a, b);
    PlainConcat(a + b, c);
  }

  lemma MechanicPartsPlain()
    ensures Plain("Failed to get ") && Plain("mechanic assistance.")
  {
  }

  lemma PlainMechanic()
    ensures Plain(MechanicFailed.Message())
  {
    PlainRetry();
    MechanicPartsPlain();
    PlainThree("Failed to get ", "mechanic assistance.", RetryLater);
    assert MechanicFailed.Message() == "Failed to get " + "mechanic assistance." + RetryLater;
  }

  lemma PlainVectorStore()
    ensures Plain(VectorStoreFailed.Message())
  {
    PlainRetry();
    assert Plain("Failed to create ") && Plain("vector store.");
    PlainThree("Failed to create ", "vector store.", RetryLater);
  }

  lemma PlainImage()
    ensures Plain(ImageFailed.Message())
  {
    PlainRetry();
    assert Plain("Failed to ") && Plain("generate images.");
    PlainThree("Failed to ", "generate images.", RetryLater);
  }

  lemma PlainAccount()
    ensures Plain(EmailRequired.Message()) && Plain(DatabaseUnavailable.Message())
  {
    assert Plain("Email is required ") && Plain("for user creation");
    PlainConcat("Email is required ", "for user creation");
  }

  /** The generic rethrown errors mention neither phrase, so they map to a server error. */
  lemma GenericMentionsNeither(e: Error)
    requires e.MechanicFailed? || e.VectorStoreFailed? || e.ImageFailed?
             || e.EmailRequired? || e.DatabaseUnavailable?
    ensures !MentionsUnauthorized(e) && !MentionsInsufficient(e)
  {
    match e {
      case MechanicFailed => PlainMechanic();
      case VectorStoreFailed => PlainVectorStore();
      case ImageFailed => PlainImage();
      case EmailRequired => PlainAccount();
      case DatabaseUnavailable => PlainAccount();
    }
    PlainMentionsNeither(e.Message());
  }
}
