/** The research endpoint backed by OpenRouter: guards, the category lookup, the provider call and
    the mapping of each outcome to one reply. */
module ResearchApi {
  import opened Wrappers
  import opened Http

  /** The calls the handler makes, in order. */
  datatype Call =
    | FetchCategories
    | Generate(toolName: string, model: Option<string>, categoryNames: seq<string>)

  const NameRequired := "toolName is required"
  const NoCategories := "Could not find any tool categories in the database. Please add categories before researching."
  const CategoriesFailed := "Failed to fetch tool categories from the database. Please check the Airtable connection."
  const KeyInvalid := "API key is not valid or missing. Please check your environment variables."
  const ProviderPrefix := "Failed to get data from AI provider: "

  /** The handler's decision for a request with method `httpMethod` and body fields `toolName` and
      `model` (`None` when absent), given what the category store returns and what the provider
      returns for each call. */
  function Decide<T>(httpMethod: string, toolName: Option<string>, model: Option<string>,
    categories: Result<seq<string>>, generate: (string, Option<string>, seq<string>) -> Result<T>)
    : (d: Decision<T, Call>)
    // The guards, in order; none of them reaches a store or the provider.
    ensures httpMethod != "POST" ==>
      d == Decision(Reply(405, PlainText(MethodNotAllowed(httpMethod))), true, [])
    ensures httpMethod == "POST" && (toolName.None? || toolName.value == "") ==>
      d == Decision(Reply(400, Message(NameRequired)), false, [])
    // Only a request that passed the guards reaches the store, and only a non-empty category
    // list reaches the provider, with the request's name and model unchanged.
    ensures |d.calls| > 0 ==>
      (httpMethod == "POST" && toolName.Some? && toolName.value != "" && d.calls[0] == FetchCategories)
    ensures |d.calls| == 2 <==> d.calls != [] && categories.Ok? && categories.value != []
    ensures |d.calls| == 2 ==> d.calls[1] == Generate(toolName.value, model, categories.value)
    ensures |d.calls| <= 2 && (d.allowHeader <==> httpMethod != "POST")
    ensures d.calls == [FetchCategories] ==>
      d.reply == Reply(500, Message(if categories.Err? then CategoriesFailed else NoCategories))
    // The provider's outcome decides the rest: its data unchanged, or the catch block's reply.
    ensures |d.calls| == 2 ==>
      var r := generate(toolName.value, model, categories.value);
      (r.Ok? ==> d.reply == Reply(200, Data(r.value)))
      && (r.Err? ==> d.reply == ProviderFailure(r.message, KeyInvalid, ProviderPrefix))
    ensures d.reply.status == 200 <==> |d.calls| == 2 && generate(toolName.value, model, categories.value).Ok?
  {
    if httpMethod != "POST" then
      Decision(Reply(405, PlainText(MethodNotAllowed(httpMethod))), true, [])
    else if toolName.None? || toolName.value == "" then
      Decision(Reply(400, Message(NameRequired)), false, [])
    else if categories.Err? then
      Decision(Reply(500, Message(CategoriesFailed)), false, [FetchCategories])
    else if categories.value == [] then
      Decision(Reply(500, Message(NoCategories)), false, [FetchCategories])
    else
      var calls := [FetchCategories, Generate(toolName.value, model, categories.value)];
      match generate(toolName.value, model, categories.value)
      case Ok(data) => Decision(Reply(200, Data(data)), false, calls)
      case Err(m) => Decision(ProviderFailure(m, KeyInvalid, ProviderPrefix), false, calls)
  }

  /** The handler, writing to `res` with early returns; it sends exactly one reply and makes the
      calls the decision lists. */
  method Handle<T>(res: Response<T>, httpMethod: string, toolName: Option<string>, model: Option<string>,
    categories: Result<seq<string>>, generate: (string, Option<string>, seq<string>) -> Result<T>)
    returns (calls: seq<Call>)
    modifies res
    ensures res.sent == old(res.sent) + [Decide(httpMethod, toolName, model, categories, generate).reply]
    ensures res.headers == if httpMethod != "POST" then old(res.headers)["Allow" := ["POST"]] else old(res.headers)
    ensures calls == Decide(httpMethod, toolName, model, categories, generate).calls
  {
    if httpMethod != "POST" {
      res.SetHeader("Allow", ["POST"]);
      res.Send(Reply(405, PlainText(MethodNotAllowed(httpMethod))));
      return [];
    }
    if toolName.None? || toolName.value == "" {
      res.Send(Reply(400, Message(NameRequired)));
      return [];
    }
    calls := [FetchCategories];
    if categories.Err? {
      res.Send(Reply(500, Message(CategoriesFailed)));
      return;
    }
    var categoryNames := categories.value;
    if categoryNames == [] {
      res.Send(Reply(500, Message(NoCategories)));
      return;
    }
    calls := calls + [Generate(toolName.value, model, categoryNames)];
    var outcome := generate(toolName.value, model, categoryNames);
    if outcome.Ok? {
      res.Send(Reply(200, Data(outcome.value)));
    } else {
      res.Send(ProviderFailure(outcome.message, KeyInvalid, ProviderPrefix));
    }
  }
}
