/** The research endpoint backed by Gemini: its response schema, guards, the category lookup, the
    model call, the empty-response branch and the JSON parse. */
module ToolsResearchApi {
  import opened Wrappers
  import opened Http
  import Strings
  import Providers

  // --- Response schema ---

  /** The SDK's schema type tags. */
  datatype SchemaType = STRING | ARRAY | OBJECT

  datatype GeminiItems = GeminiItems(typeName: SchemaType, enumValues: Option<seq<string>>)
  datatype GeminiField = GeminiField(typeName: SchemaType, items: Option<GeminiItems>, description: string)

  /** An object schema; it has no `required` list, whether a field is required is said only in its
      description. */
  datatype GeminiSchema = GeminiSchema(typeName: SchemaType, properties: seq<(string, GeminiField)>)

  /** `getToolResearchSchema(categoryNames)`; `pricingOptions` stands for `PRICING_OPTIONS`. */
  function ToolResearchSchema(categoryNames: seq<string>, pricingOptions: seq<string>): GeminiSchema
  {
    var text := GeminiField(STRING, None, "");
    var list := GeminiField(ARRAY, Some(GeminiItems(STRING, None)), "");
    GeminiSchema(OBJECT, [
      ("Name", text.(description := Providers.NameDescription)),
      ("Domain", text.(description := Providers.DomainDescription)),
      ("Website", text.(description := Providers.WebsiteDescription)),
      ("Why", text.(description := Providers.WhyDescription)),
      ("Description", text.(description := Providers.DescriptionDescription)),
      ("Details", text.(description := Providers.DetailsDescription)),
      ("Features", list.(description := Providers.FeaturesDescription)),
      ("Cautions", list.(description := Providers.CautionsDescription)),
      ("Buyer", text.(description := Providers.BuyerDescription)),
      ("Pricing", GeminiField(ARRAY, Some(GeminiItems(STRING, Some(pricingOptions))), Providers.PricingDescription)),
      ("Base_Model", text.(description := Providers.BaseModelDescription)),
      ("Tags", list.(description := Providers.TagsDescription)),
      ("Categories", GeminiField(ARRAY, Some(GeminiItems(STRING, Some(categoryNames))), Providers.CategoriesDescription))
    ])
  }

  /** The spelling the OpenRouter base schema uses for each tag. */
  function SpelledAs(t: SchemaType): string
  {
    match t
    case STRING => "STRING"
    case ARRAY => "ARRAY"
    case OBJECT => "OBJECT"
  }

  /** A Gemini field says what a base-schema field says. */
  predicate SameField(g: GeminiField, f: Providers.FieldDef)
  {
    && SpelledAs(g.typeName) == f.typeName
    && Some(g.description) == f.description
    && g.items.Some? == f.items.Some?
    && (g.items.Some? ==> SpelledAs(g.items.value.typeName) == f.items.value.typeName
                          && g.items.value.enumValues == f.items.value.enumValues)
    && f.enumValues == None
  }

  /** The two provider schemas agree field by field: the same names in the same order, the same
      types, descriptions and item enums (Categories from `categoryNames`, Pricing from the pricing
      options). */
  lemma {:induction false} SameAsBaseSchema(categoryNames: seq<string>, pricingOptions: seq<string>)
    ensures var g := ToolResearchSchema(categoryNames, pricingOptions).properties;
      var b := Providers.BaseSchema(categoryNames, pricingOptions);
      && |g| == |b| == 13
      && forall i :: 0 <= i < 13 ==> g[i].0 == b[i].0 && SameField(g[i].1, b[i].1)
  {
    var g := ToolResearchSchema(categoryNames, pricingOptions).properties;
    var b := Providers.BaseSchema(categoryNames, pricingOptions);
    forall i | 0 <= i < 13
      ensures g[i].0 == b[i].0 && SameField(g[i].1, b[i].1)
    {
    }
  }

  /** A Gemini field whose description marks it required, by the rule the OpenRouter conversion
      applies. */
  predicate MarkedRequired(g: GeminiField)
  {
    Providers.IsRequired(Providers.FieldDef(SpelledAs(g.typeName), Some(g.description), None, None))
  }

  /** So the Gemini schema marks exactly the ten "Required - " fields as required: all but Pricing
      (9), Tags (11) and Categories (12). */
  lemma {:induction false} SameRequiredFields(categoryNames: seq<string>, pricingOptions: seq<string>)
    ensures var g := ToolResearchSchema(categoryNames, pricingOptions).properties;
      forall i :: 0 <= i < |g| ==> (MarkedRequired(g[i].1) <==> i != 9 && i != 11 && i != 12)
  {
    var g := ToolResearchSchema(categoryNames, pricingOptions).properties;
    var b := Providers.BaseSchema(categoryNames, pricingOptions);
    SameAsBaseSchema(categoryNames, pricingOptions);
    Providers.BaseSchemaMarks(categoryNames, pricingOptions);
    forall i | 0 <= i < |g|
      ensures MarkedRequired(g[i].1) <==> i != 9 && i != 11 && i != 12
    {
      assert Some(g[i].1.description) == b[i].1.description;
      assert MarkedRequired(g[i].1) == Providers.IsRequired(b[i].1);
    }
  }

  // --- Handler ---

  const ModelName := "gemini-1.5-flash-latest"
  const ResponseMimeType := "application/json"
  const GeminiClosing := ". Return the information in the structured JSON format you have been given. It is critical that all 'Required' fields in the schema are filled accurately and not left empty."

  /** The model call: the model, the JSON answer format with its schema, and the prompt. */
  datatype GeminiRequest = GeminiRequest(model: string, responseMimeType: string, schema: GeminiSchema, prompt: string)

  /** The parts of `result.response` the handler reads: the number of candidates (`None` when the
      member is missing), `promptFeedback.blockReason`, and what `response.text()` returns or
      throws. */
  datatype GeminiResponse = GeminiResponse(candidates: Option<nat>, blockReason: Option<string>, text: Result<string>)

  datatype Call = FetchCategories | GenerateContent(request: GeminiRequest)

  const NameRequired := "toolName is required"
  const NoCategories := "Could not find any tool categories in the database. Please add categories before researching."
  const CategoriesFailed := "Failed to fetch tool categories from the database. Please check the Airtable connection."
  const EmptyResponse := "The Gemini API returned an empty or invalid response. Please try again."
  const KeyInvalid := "Gemini API key is not valid or missing. Please check your environment variables."
  const GeminiPrefix := "Failed to get data from Gemini API: "

  /** The request the handler sends for a tool and its categories. */
  function RequestFor(toolName: string, categoryNames: seq<string>, pricingOptions: seq<string>): (q: GeminiRequest)
    ensures Strings.Contains(q.prompt, Strings.Join(categoryNames, ", "))
    ensures Strings.Contains(q.prompt, toolName)
  {
    GeminiRequest(ModelName, ResponseMimeType, ToolResearchSchema(categoryNames, pricingOptions),
      Providers.Prompt(toolName, categoryNames, GeminiClosing))
  }

  /** The message for a prompt the API blocked; it names the reason. */
  function BlockedMessage(reason: string): (m: string)
    ensures Strings.Contains(m, reason)
  {
    var head := "The request was blocked by the Gemini API for being ";
    var tail := ". Please try a different tool name.";
    Strings.ContainsInfix(head, reason, tail);
    head + reason + tail
  }

  /** The reply for a response with no candidates: it names the block reason when there is one. */
  function EmptyReply<T>(response: Option<GeminiResponse>): (r: Reply<T>)
    ensures r.status == 500
    ensures response.Some? && response.value.blockReason.Some? && response.value.blockReason.value != "" ==>
      r.body == Message(BlockedMessage(response.value.blockReason.value))
    ensures response.None? || response.value.blockReason.None? || response.value.blockReason.value == "" ==>
      r.body == Message(EmptyResponse)
  {
    if response.Some? && response.value.blockReason.Some? && response.value.blockReason.value != "" then
      Reply(500, Message(BlockedMessage(response.value.blockReason.value)))
    else Reply(500, Message(EmptyResponse))
  }

  /** `!response || !response.candidates || response.candidates.length === 0`. */
  predicate NoCandidates(response: Option<GeminiResponse>)
  {
    response.None? || response.value.candidates.None? || response.value.candidates.value == 0
  }

  /** The reply once the model has been called: the empty-response branch, or the parsed text with
      200, or the catch block for anything thrown by the call, by `text()` or by the parse. */
  function Answer<T>(outcome: Result<Option<GeminiResponse>>, parse: string -> Result<T>): (r: Reply<T>)
    ensures outcome.Err? ==> r == ProviderFailure(outcome.message, KeyInvalid, GeminiPrefix)
    ensures outcome.Ok? && NoCandidates(outcome.value) ==> r == EmptyReply(outcome.value)
    ensures r.status == 200 <==>
      (outcome.Ok? && !NoCandidates(outcome.value)
        && outcome.value.value.text.Ok? && parse(outcome.value.value.text.value).Ok?)
    ensures r.status == 200 ==> r == Reply(200, Data(parse(outcome.value.value.text.value).value))
    ensures outcome.Ok? && !NoCandidates(outcome.value) && outcome.value.value.text.Err? ==>
      r == ProviderFailure(outcome.value.value.text.message, KeyInvalid, GeminiPrefix)
    ensures (outcome.Ok? && !NoCandidates(outcome.value) && outcome.value.value.text.Ok?
      && parse(outcome.value.value.text.value).Err?) ==>
      r == ProviderFailure(parse(outcome.value.value.text.value).message, KeyInvalid, GeminiPrefix)
  {
    match outcome
    case Err(m) => ProviderFailure(m, KeyInvalid, GeminiPrefix)
    case Ok(response) =>
      if NoCandidates(response) then EmptyReply(response)
      else
        match response.value.text
        case Err(m) => ProviderFailure(m, KeyInvalid, GeminiPrefix)
        case Ok(text) =>
          match parse(text)
          case Err(m) => ProviderFailure(m, KeyInvalid, GeminiPrefix)
          case Ok(data) => Reply(200, Data(data))
  }

  /** The handler's decision; `generate` is `model.generateContent`. */
  function Decide<T>(httpMethod: string, toolName: Option<string>, categories: Result<seq<string>>,
    pricingOptions: seq<string>, generate: GeminiRequest -> Result<Option<GeminiResponse>>,
    parse: string -> Result<T>) : (d: Decision<T, Call>)
    ensures httpMethod != "POST" ==>
      d == Decision(Reply(405, PlainText(MethodNotAllowed(httpMethod))), true, [])
    ensures httpMethod == "POST" && (toolName.None? || toolName.value == "") ==>
      d == Decision(Reply(400, Message(NameRequired)), false, [])
    // Every guard runs before the model is called.
    ensures |d.calls| > 0 ==>
      (httpMethod == "POST" && toolName.Some? && toolName.value != "" && d.calls[0] == FetchCategories)
    ensures |d.calls| == 2 <==> d.calls != [] && categories.Ok? && categories.value != []
    ensures d.calls == [FetchCategories] ==>
      d.reply == Reply(500, Message(if categories.Err? then CategoriesFailed else NoCategories))
    ensures |d.calls| <= 2 && (d.allowHeader <==> httpMethod != "POST")
    ensures |d.calls| == 2 ==>
      var q := RequestFor(toolName.value, categories.value, pricingOptions);
      d.calls[1] == GenerateContent(q) && d.reply == Answer(generate(q), parse)
  {
    if httpMethod != "POST" then
      Decision(Reply(405, PlainText(MethodNotAllowed(httpMethod))), true, [])
    else if toolName.None? || toolName.value == "" then
      Decision(Reply(400, Message(NameRequired)), false, [])
    else if categories.Err? then
      Decision(Reply(500, Message(CategoriesFailed)), false, [FetchCategories])
    else if categories.value == [] then
      Decision(Reply(500, Message(NoCategories)), false, [FetchCategories])
    else
      var q := RequestFor(toolName.value, categories.value, pricingOptions);
      Decision(Answer(generate(q), parse), false, [FetchCategories, GenerateContent(q)])
  }

  /** The handler, writing to `res` with early returns; it sends exactly one reply. */
  method Handle<T>(res: Response<T>, httpMethod: string, toolName: Option<string>,
    categories: Result<seq<string>>, pricingOptions: seq<string>,
    generate: GeminiRequest -> Result<Option<GeminiResponse>>, parse: string -> Result<T>)
    returns (calls: seq<Call>)
    modifies res
    ensures res.sent == old(res.sent) + [Decide(httpMethod, toolName, categories, pricingOptions, generate, parse).reply]
    ensures res.headers == if httpMethod != "POST" then old(res.headers)["Allow" := ["POST"]] else old(res.headers)
    ensures calls == Decide(httpMethod, toolName, categories, pricingOptions, generate, parse).calls
  {
    if httpMethod != "POST" {
      res.SetHeader("Allow", ["POST"]);
      res.Send(Reply(405, PlainText(MethodNotAllowed(httpMethod))));
      return [];
    }
    if toolName.None? || toolName.value == "" {
      res.Send(Reply(400, Message(NameRequired)));
      return [];
    }
    calls := [FetchCategories];
    if categories.Err? {
      res.Send(Reply(500, Message(CategoriesFailed)));
      return;
    }
    var categoryNames := categories.value;
    if categoryNames == [] {
      res.Send(Reply(500, Message(NoCategories)));
      return;
    }
    var request := RequestFor(toolName.value, categoryNames, pricingOptions);
    calls := calls + [GenerateContent(request)];
    var result := generate(request);
    if result.Err? {
      res.Send(ProviderFailure(result.message, KeyInvalid, GeminiPrefix));
      return;
    }
    var response := result.value;
    if NoCandidates(response) {
      res.Send(EmptyReply(response));
      return;
    }
    var responseText := response.value.text;
    if responseText.Err? {
      res.Send(ProviderFailure(responseText.message, KeyInvalid, GeminiPrefix));
      return;
    }
    var toolData := parse(responseText.value);
    if toolData.Err? {
      res.Send(ProviderFailure(toolData.message, KeyInvalid, GeminiPrefix));
      return;
    }
    res.Send(Reply(200, Data(toolData.value)));
  }
}
