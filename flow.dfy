/**
 * What the feature flows do, as a value: the ledger they leave, their result
 * or error, and the calls they make in order. The calls are the credit
 * service's queries and writes plus the one external operation (a model
 * call, an image request) whose outcome the flow is given.
 */
module Flow {
  import opened Wrappers
  import opened Errors
  import opened Store

  datatype Call =
      /** `creditService.hasEnoughCredits(userId, required)`. */
    | CheckBalance(userId: UserId, required: int)
      /** The external operation the credits pay for, with the text it is sent. */
    | External(service: string, request: string)
      /** `deductCredits` (through `recordOperation`) for `amount` with this feature tag. */
    | Charge(userId: UserId, amount: int, featureUsed: string)
      /** `creditService.checkCreditBalance(userId)`. */
    | ReadBalance(userId: UserId)

  datatype Run<+T> = Run(ledger: Ledger, result: Result<T, Error>, calls: seq<Call>)

  /** The two external services the feature flows call. */
  const ChatCompletions := "openai.chat.completions"
  const ImagesGenerate := "openai.images.generate"
}
