/**
 * The result mapping of `geminiAPI`: how the outcome of the one POST to the
 * generative-language endpoint becomes the answer string shown in the chat.
 * The request itself (URL, API key, JSON body) is not modelled; its outcome
 * is an abstract `Response`.
 */
module Gemini {
  import opened Wrappers

  /** What the parsed JSON body yields for `data.candidates?.[0]?.content?.parts?.[0]?.text`. */
  datatype Body =
    | Malformed                    // `response.json()` rejects
    | Null                         // the body parses to `null`, so `data.candidates` throws a TypeError
    | Json(answer: Option<string>) // any other value: the nested text, or None when the chain meets `undefined`

  /** The settled `fetch` call. */
  datatype Response =
    | TransportError                   // `fetch` itself rejects
    | Http(status: int, body: Body)

  /** What the `catch` clause of `geminiAPI` sees. */
  datatype Failure = NotOk(status: int) | ParseError | TypeError | NetworkError

  const ConnectionFailed: string := "Şu anda bağlantı Kurulamıyor."
  const NoAnswer: string := "Cvap veriliyor..."

  /** `response.ok` of the Fetch standard: a status in the range 200 to 299. */
  predicate IsOk(status: int)
  {
    200 <= status <= 299
  }

  /** The `try` block of `geminiAPI`: it throws on a failed transport, a non-OK status, an unreadable body or a `null` body, and otherwise returns `text || 'Cvap veriliyor...'`. */
  function Attempt(r: Response): (res: Result<string, Failure>)
    ensures res.Throw? <==> (r.TransportError? || !IsOk(r.status) || !r.body.Json?)
    ensures res.Success? ==> res.value != ""
  {
    match r
    case TransportError => Throw(NetworkError)
    case Http(status, body) =>
      if !IsOk(status) then Throw(NotOk(status))
      else match body
        case Malformed => Throw(ParseError)
        case Null => Throw(TypeError)
        case Json(text) =>
          // `text || fallback`: both `undefined` and the empty string are falsy
          if text.Some? && text.value != "" then Success(text.value) else Success(NoAnswer)
  }

  /** `geminiAPI`: every failure is caught and turned into the connection string, so the call never throws. */
  function Answer(r: Response): (a: string)
    ensures a != ""
    ensures (r.TransportError? || !IsOk(r.status) || !r.body.Json?) ==> a == ConnectionFailed
    ensures r.Http? && IsOk(r.status) && r.body.Json? ==>
      a == (if r.body.answer.Some? && r.body.answer.value != "" then r.body.answer.value else NoAnswer)
  {
    match Attempt(r)
    case Success(text) => text
    case Throw(_) => ConnectionFailed
  }

  /** The answer shown is one of the two canned strings or the text a readable OK response carried (when that text is shown is stated by `Answer`). */
  lemma AnswerIsTextOrCanned(r: Response)
    ensures Answer(r) == ConnectionFailed || Answer(r) == NoAnswer
         || (r.Http? && IsOk(r.status) && r.body.Json? && r.body.answer == Some(Answer(r)))
    ensures (r.Http? && IsOk(r.status) && r.body == Json(None)) ==> Answer(r) == NoAnswer
    ensures (r.Http? && IsOk(r.status) && r.body == Json(Some(""))) ==> Answer(r) == NoAnswer
  {
  }

  /** A non-OK status gives the connection string whatever the body holds, even a readable answer. */
  lemma StatusDecidesBeforeBody(status: int, b1: Body, b2: Body)
    requires !IsOk(status)
    ensures Answer(Http(status, b1)) == Answer(Http(status, b2)) == ConnectionFailed
  {
  }
}
