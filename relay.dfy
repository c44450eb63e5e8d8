/**
 * The chat relay: the `POST` handler of the `/api/chat` route.
 * It is stateless; one call maps the request body and the outcome of the
 * hosted model to one `{ reply }` response with an HTTP status.
 */
module Relay {
  import opened Wrappers

  /** What `req.json()` makes of the request body. */
  datatype Body =
    | Unparsable            // `req.json()` rejects: the body is not JSON
    | Null                  // the body is the JSON literal `null`; destructuring it throws
    | Parsed(message: Field) // any other JSON value, with what `const { message } = body` reads from it

  /** The value read from the `message` property of a parsed body. */
  datatype Field =
    | Missing               // `undefined`: no such property, or the body is not an object
    | Str(text: string)
    | NotString             // a number, boolean, null, array or object

  /** One call to the hosted model: model name, system instruction and the user prompt. */
  datatype ModelCall = ModelCall(model: string, systemInstruction: string, prompt: string)

  /** How `generateContent(prompt)` followed by `response.text()` ends. */
  datatype Upstream =
    | Generated(text: string)
    | Threw(cause: string)  // timeout, quota, authentication, blocked or malformed response, ...

  /** `NextResponse.json({ reply }, { status })`. */
  datatype Response = Response(status: int, reply: string)

  /** The response together with the model call the handler made, if it made one. */
  datatype Exchange = Exchange(call: Option<ModelCall>, response: Response)

  const ModelName := "gemini-3-flash-preview"
  const InvalidBodyReply := "Invalid JSON body."
  const InvalidMessageReply := "Invalid message."
  const UnavailableReply := "Sorry, I am currently unable to assist. Please try again later."
  const QuestionPrefix := "Student question: \""
  const QuestionSuffix := "\"\nAnswer strictly based on PWC Davao context."

  /** The prompt template: the raw message between the question framing and the instruction line. */
  function Prompt(message: string): (prompt: string) {
    QuestionPrefix + message + QuestionSuffix
  }

  /** The prompt starts with the framing, ends with the instruction and holds the message verbatim in between. */
  lemma PromptEmbedsMessage(message: string)
    ensures var p := Prompt(message);
            |p| == |QuestionPrefix| + |message| + |QuestionSuffix|
            && p[..|QuestionPrefix|] == QuestionPrefix
            && p[|QuestionPrefix|..|QuestionPrefix| + |message|] == message
            && p[|QuestionPrefix| + |message|..] == QuestionSuffix
  {
  }

  /** Different messages give different prompts: the model always sees exactly the message sent. */
  lemma PromptInjective(a: string, b: string)
    ensures Prompt(a) == Prompt(b) ==> a == b
  {
    if Prompt(a) == Prompt(b) {
      PromptEmbedsMessage(a);
      PromptEmbedsMessage(b);
    }
  }

  /** `!message || typeof message !== "string"` is false: the message is a non-empty string. */
  predicate ValidMessage(body: Body) {
    body.Parsed? && body.message.Str? && body.message.text != ""
  }

  /**
   * The handler. `policy` is the system instruction (the fixed institution
   * context) and `generate` is what the hosted model does with a call.
   */
  function Post(policy: string, body: Body, generate: ModelCall -> Upstream): (x: Exchange)
    ensures x.call.Some? <==> ValidMessage(body)
    ensures ValidMessage(body) ==> x.call == Some(ModelCall(ModelName, policy, Prompt(body.message.text)))
    ensures body.Unparsable? ==> x.response == Response(400, InvalidBodyReply)
    ensures body.Parsed? && !ValidMessage(body) ==> x.response == Response(400, InvalidMessageReply)
    ensures x.response.status == 200 <==> x.call.Some? && generate(x.call.value).Generated?
    ensures x.response.status == 200 ==> x.response.reply == generate(x.call.value).text
    ensures x.response.status == 500 <==> body.Null? || (x.call.Some? && generate(x.call.value).Threw?)
    ensures x.response.status == 500 ==> x.response.reply == UnavailableReply
    ensures x.response.status in {200, 400, 500}
  {
    match body
    case Unparsable => Exchange(None, Response(400, InvalidBodyReply))
    case Null => Exchange(None, Response(500, UnavailableReply))
    case Parsed(message) =>
      if !ValidMessage(body) then
        Exchange(None, Response(400, InvalidMessageReply))
      else
        var call := ModelCall(ModelName, policy, Prompt(message.text));
        match generate(call)
        case Generated(text) => Exchange(Some(call), Response(200, text))
        case Threw(_) => Exchange(Some(call), Response(500, UnavailableReply))
  }

  /** A request rejected by validation never reaches the model: the response does not depend on it. */
  lemma RejectedRequestIgnoresModel(policy: string, body: Body, g1: ModelCall -> Upstream, g2: ModelCall -> Upstream)
    requires !ValidMessage(body)
    ensures Post(policy, body, g1) == Post(policy, body, g2)
    ensures Post(policy, body, g1).response.status != 200
  {
  }

  /** Every upstream failure collapses to the same response, whatever its cause. */
  lemma FailureCauseHidden(policy: string, body: Body, g1: ModelCall -> Upstream, g2: ModelCall -> Upstream)
    requires ValidMessage(body)
    requires g1(Post(policy, body, g1).call.value).Threw?
    requires g2(Post(policy, body, g2).call.value).Threw?
    ensures Post(policy, body, g1) == Post(policy, body, g2)
  {
  }

  /** The behaviours listed for the endpoint, on concrete requests. */
  lemma EndpointExamples(policy: string)
    ensures Post(policy, Unparsable, _ => Threw("unused")).response == Response(400, "Invalid JSON body.")
    ensures Post(policy, Parsed(Missing), _ => Threw("unused")).response == Response(400, "Invalid message.")
    ensures Post(policy, Parsed(Str("")), _ => Generated("unused")).response == Response(400, "Invalid message.")
    ensures Post(policy, Null, _ => Generated("unused")).response
            == Response(500, "Sorry, I am currently unable to assist. Please try again later.")
    ensures Post(policy, Parsed(Str("Where is PWC Davao located?")), _ => Generated("Juna Subdivision, Matina, Davao City")).response
            == Response(200, "Juna Subdivision, Matina, Davao City")
  {
  }
}
