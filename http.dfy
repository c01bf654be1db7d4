/** What the API handlers share: the response object they write to, the replies they send, and the
    rules for turning a caught error into a message and a status. */
module Http {
  import opened Wrappers
  import opened Records
  import Strings

  /** A reply body: plain text from `res.end(text)`, or JSON from `res.json(...)`. */
  datatype Body<T> =
    | PlainText(text: string)
    | Message(message: string)
    | Data(data: T)
    | MessageWithTool(message: string, tool: T)

  datatype Reply<T> = Reply(status: nat, body: Body<T>)

  /** The `res` object: the headers set so far and the replies sent, in order. */
  class Response<T> {
    var headers: map<string, seq<string>>
    var sent: seq<Reply<T>>

    constructor()
      ensures headers == map[] && sent == []
    {
      headers := map[];
      sent := [];
    }

    /** `res.setHeader(name, values)`. */
    method SetHeader(name: string, values: seq<string>)
      modifies this
      ensures headers == old(headers)[name := values]
      ensures sent == old(sent)
    {
      headers := headers[name := values];
    }

    /** `res.status(s).json(...)` or `res.status(s).end(...)`. */
    method Send(reply: Reply<T>)
      modifies this
      ensures sent == old(sent) + [reply]
      ensures headers == old(headers)
    {
      sent := sent + [reply];
    }
  }

  /** The text of the 405 reply. */
  function MethodNotAllowed(httpMethod: string): (text: string)
    ensures Strings.Contains(text, httpMethod)
  {
    Strings.ContainsInfix("Method ", httpMethod, " Not Allowed");
    "Method " + httpMethod + " Not Allowed"
  }

  const UnknownError := "An unknown error occurred"
  const ApiKeyMarker := "API key not valid"

  /** `error.message || "An unknown error occurred"`; a missing message is the empty string. */
  function ErrorMessage(message: string): (r: string)
    ensures message != "" ==> r == message
    ensures message == "" ==> r == UnknownError
    ensures r != ""
  {
    if message != "" then message else UnknownError
  }

  /** The default message cannot be mistaken for a key error: it has no letter y. */
  lemma UnknownErrorIsNotKeyError()
    ensures !Strings.Contains(UnknownError, ApiKeyMarker)
  {
    assert ApiKeyMarker[6] == 'y';
    Strings.MissingCharacter(UnknownError, ApiKeyMarker, 'y');
  }

  /** `errorMessage.includes('API key not valid')`: a key error is recognised from the thrown
      message alone, the default message never counts as one. */
  predicate IsKeyError(message: string)
  {
    Strings.Contains(ErrorMessage(message), ApiKeyMarker)
  }

  lemma KeyErrorFromMessage(message: string)
    ensures IsKeyError(message) <==> Strings.Contains(message, ApiKeyMarker)
  {
    if message == "" {
      UnknownErrorIsNotKeyError();
      assert !Strings.Contains(message, ApiKeyMarker);
    }
  }

  /** The catch block of the provider handlers: 401 with `keyMessage` for a key error, otherwise
      500 with `prefix` and the message. */
  function ProviderFailure<T>(message: string, keyMessage: string, prefix: string): (r: Reply<T>)
    ensures r.status == 401 <==> Strings.Contains(message, ApiKeyMarker)
    ensures r.status == 401 ==> r.body == Message(keyMessage)
    ensures r.status != 401 ==> r == Reply(500, Message(prefix + ErrorMessage(message)))
  {
    KeyErrorFromMessage(message);
    if IsKeyError(message) then Reply(401, Message(keyMessage))
    else Reply(500, Message(prefix + ErrorMessage(message)))
  }

  /** `${value}` in a template literal; `undefined` renders as the word. */
  function TemplateValue(v: Option<FieldValue>): (text: string)
    ensures v.None? ==> text == "undefined"
    ensures v.Some? && v.value.Text? ==> text == v.value.s
  {
    if v.None? then "undefined" else Display(v.value)
  }

  /** What `fetch` delivered from the research endpoint: the `ok` flag and the parsed JSON body
      (an `Err` when `response.json()` throws). */
  datatype ResearchReply = ResearchReply(ok: bool, json: Result<Record>)

  /** The outcome of a handler: the one reply, whether the `Allow` header was set, and the calls
      made to stores and providers, in order. */
  datatype Decision<T, C> = Decision(reply: Reply<T>, allowHeader: bool, calls: seq<C>)
}
