/**
 What the completion service can do in answer to the one request the handler
 sends. The network call and JSON parsing are foreign I/O, so the model takes
 their outcome as an abstract value: each constructor below stands for a class
 of concrete replies that the handler treats alike.
 */
module Upstream {

  /** The value of `choices[0].message.content` in a parsed reply. */
  datatype Content =
    | Missing            // null or undefined: reading its `length` throws
    | Text(text: string) // the care plan as a string
    | NonText            // any other non-null JSON value, passed through as is

  /** One element of the `choices` array. */
  datatype Choice =
    | NoMessage                      // null, or an object without a `message` object
    | WithMessage(content: Content)

  /** The parsed JSON body of a reply. */
  datatype Completion =
    | NoChoices                      // null, or no `choices` array to index
    | Choices(items: seq<Choice>)

  datatype ReplyBody =
    | Unparseable                    // `response.json()` rejects
    | Parsed(completion: Completion)

  datatype Outcome =
    | FetchFailed                    // `fetch` itself rejects (network failure)
    | Replied(status: int, body: ReplyBody)

  /** The Fetch standard's `ok` flag: the status is in the range 200 to 299. */
  predicate IsOk(status: int) {
    200 <= status <= 299
  }
}
