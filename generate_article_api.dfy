/** The article-generation endpoint: guards, one provider call and the mapping of its outcome to
    one reply. */
module GenerateArticleApi {
  import opened Wrappers
  import opened Http
  import Strings

  /** The one call the handler can make: the request's fields, forwarded unchanged. */
  datatype Call = Generate(topic: string, model: Option<string>, articleType: Option<string>)

  const TopicRequired := "A topic is required to generate content."
  const KeyInvalid := "API key is not valid or missing. Please check your environment variables."
  const ProviderPrefix := "Failed to get data from AI provider: "

  /** The handler's decision for a request with body fields `topic`, `model` and `articleType`
      (`None` when absent), given what the provider returns. */
  function Decide<T>(httpMethod: string, topic: Option<string>, model: Option<string>,
    articleType: Option<string>, generate: (string, Option<string>, Option<string>) -> Result<T>)
    : (d: Decision<T, Call>)
    ensures httpMethod != "POST" ==>
      d == Decision(Reply(405, PlainText(MethodNotAllowed(httpMethod))), true, [])
    ensures httpMethod == "POST" && (topic.None? || topic.value == "") ==>
      d == Decision(Reply(400, Message(TopicRequired)), false, [])
    // The provider is reached only past both guards, with the fields as received.
    ensures d.calls != [] <==> httpMethod == "POST" && topic.Some? && topic.value != ""
    ensures d.calls != [] ==> d.calls == [Generate(topic.value, model, articleType)]
    ensures d.allowHeader <==> httpMethod != "POST"
    ensures d.calls != [] ==>
      var r := generate(topic.value, model, articleType);
      (r.Ok? ==> d.reply == Reply(200, Data(r.value)))
      && (r.Err? ==> d.reply == ProviderFailure(r.message, KeyInvalid, ProviderPrefix))
  {
    if httpMethod != "POST" then
      Decision(Reply(405, PlainText(MethodNotAllowed(httpMethod))), true, [])
    else if topic.None? || topic.value == "" then
      Decision(Reply(400, Message(TopicRequired)), false, [])
    else
      var calls := [Generate(topic.value, model, articleType)];
      match generate(topic.value, model, articleType)
      case Ok(data) => Decision(Reply(200, Data(data)), false, calls)
      case Err(m) => Decision(ProviderFailure(m, KeyInvalid, ProviderPrefix), false, calls)
  }

  /** A 401 is sent exactly when the provider failed with a message naming an invalid key. */
  lemma UnauthorisedExactlyOnKeyError<T>(httpMethod: string, topic: Option<string>, model: Option<string>,
    articleType: Option<string>, generate: (string, Option<string>, Option<string>) -> Result<T>)
    ensures Decide(httpMethod, topic, model, articleType, generate).reply.status == 401 <==>
      httpMethod == "POST" && topic.Some? && topic.value != ""
      && generate(topic.value, model, articleType).Err?
      && Strings.Contains(generate(topic.value, model, articleType).message, ApiKeyMarker)
  {
    if httpMethod == "POST" && topic.Some? && topic.value != "" {
      var r := generate(topic.value, model, articleType);
      if r.Err? {
        assert Decide(httpMethod, topic, model, articleType, generate).reply
          == ProviderFailure<T>(r.message, KeyInvalid, ProviderPrefix);
      }
    }
  }

  /** The handler, writing to `res` with early returns; it sends exactly one reply. */
  method Handle<T>(res: Response<T>, httpMethod: string, topic: Option<string>, model: Option<string>,
    articleType: Option<string>, generate: (string, Option<string>, Option<string>) -> Result<T>)
    returns (calls: seq<Call>)
    modifies res
    ensures res.sent == old(res.sent) + [Decide(httpMethod, topic, model, articleType, generate).reply]
    ensures res.headers == if httpMethod != "POST" then old(res.headers)["Allow" := ["POST"]] else old(res.headers)
    ensures calls == Decide(httpMethod, topic, model, articleType, generate).calls
  {
    if httpMethod != "POST" {
      res.SetHeader("Allow", ["POST"]);
      res.Send(Reply(405, PlainText(MethodNotAllowed(httpMethod))));
      return [];
    }
    if topic.None? || topic.value == "" {
      res.Send(Reply(400, Message(TopicRequired)));
      return [];
    }
    calls := [Generate(topic.value, model, articleType)];
    var outcome := generate(topic.value, model, articleType);
    if outcome.Ok? {
      res.Send(Reply(200, Data(outcome.value)));
    } else {
      res.Send(ProviderFailure(outcome.message, KeyInvalid, ProviderPrefix));
    }
  }
}
