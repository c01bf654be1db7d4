/** The OpenRouter research provider: the base field schema, its conversion into a
    function-calling tool definition, the request sent, the guard on the returned tool call, and
    the default model. The HTTP client and `JSON.parse` are parameters. */
module Providers {
  import opened Wrappers
  import Strings

  // --- Schema definitions ---

  /** The `items` object of an array field: `{ type, enum? }`. */
  datatype ItemsDef = ItemsDef(typeName: string, enumValues: Option<seq<string>>)

  /** One field of a schema definition: `{ type, items?, enum?, description? }`. */
  datatype FieldDef = FieldDef(
    typeName: string,
    description: Option<string>,
    items: Option<ItemsDef>,
    enumValues: Option<seq<string>>)

  /** A schema object as `Object.entries` enumerates it: its (key, field) pairs, in order. */
  type Schema = seq<(string, FieldDef)>

  /** An object literal never repeats a key. */
  predicate DistinctKeys(schema: Schema)
  {
    forall i, j :: 0 <= i < j < |schema| ==> schema[i].0 != schema[j].0
  }

  function StringField(description: string): FieldDef
  {
    FieldDef("STRING", Some(description), None, None)
  }

  function ArrayField(description: string, itemEnum: Option<seq<string>>): FieldDef
  {
    FieldDef("ARRAY", Some(description), Some(ItemsDef("STRING", itemEnum)), None)
  }

  /** The marker that, by convention, opens the description of a field the model must fill. */
  const RequiredMarker := "Required - "

  // The field descriptions of the base schema. Each is spelled as a short lead followed by the
  // rest of the text (the concatenation is the source's string), so that the verifier reads the
  // first characters without unfolding the whole literal. The three unmarked descriptions are cut
  // after their first words for the same reason.
  const NameRest := "The official name of the tool."
  const NameDescription := RequiredMarker + NameRest
  const DomainRest := "The main domain of the tool's website (e.g., figma.com)."
  const DomainDescription := RequiredMarker + DomainRest
  const WebsiteRest := "The official website of the tool."
  const WebsiteDescription := RequiredMarker + WebsiteRest
  const WhyRest := "A concise single sentence explaining why someone should care about this tool."
  const WhyDescription := RequiredMarker + WhyRest
  const DescriptionRest := "A very short paragraph, 2 sentences, on why someone would use this tool."
  const DescriptionDescription := RequiredMarker + DescriptionRest
  const DetailsRest := "A more in-depth paragraph about the tool's capabilities."
  const DetailsDescription := RequiredMarker + DetailsRest
  const FeaturesRest := "An array of 5 separate strings. Each string should be a distinct key feature as a short sentence."
  const FeaturesDescription := RequiredMarker + FeaturesRest
  const CautionsRest := "An array of 3 separate strings. Each string should be a distinct caution as a short sentence."
  const CautionsDescription := RequiredMarker + CautionsRest
  const BuyerRest := "A short paragraph about who would best benefit from purchasing this tool."
  const BuyerDescription := RequiredMarker + BuyerRest
  const PricingDescription := "One or more " + "of these predefined price models."
  const BaseModelRest := "Identify the underlying AI or Machine Learning technology. If it's a known LLM (like GPT-4), name it. If not, describe the type of AI used (e.g., 'Proprietary computer vision model', 'Diffusion model'). This field must not be empty."
  const BaseModelDescription := RequiredMarker + BaseModelRest
  const TagsDescription := "An array " + "of seperate strings, with each string being a tag for a tag cloud (3 to 7 cloud tags total)."
  const CategoriesDescription := "Select one " + "or more professions the tool is designed for from the provided categoryNames list."

  /** The property names of the base schema, in declaration order. */
  const BaseKeys: seq<string> := ["Name", "Domain", "Website", "Why", "Description", "Details",
    "Features", "Cautions", "Buyer", "Pricing", "Base_Model", "Tags", "Categories"]

  /** `getBaseSchema(categoryNames)`; `pricingOptions` stands for `PRICING_OPTIONS`. */
  function BaseSchema(categoryNames: seq<string>, pricingOptions: seq<string>): Schema
  {
    [ ("Name", StringField(NameDescription)),
      ("Domain", StringField(DomainDescription)),
      ("Website", StringField(WebsiteDescription)),
      ("Why", StringField(WhyDescription)),
      ("Description", StringField(DescriptionDescription)),
      ("Details", StringField(DetailsDescription)),
      ("Features", ArrayField(FeaturesDescription, None)),
      ("Cautions", ArrayField(CautionsDescription, None)),
      ("Buyer", StringField(BuyerDescription)),
      ("Pricing", ArrayField(PricingDescription, Some(pricingOptions))),
      ("Base_Model", StringField(BaseModelDescription)),
      ("Tags", ArrayField(TagsDescription, None)),
      ("Categories", ArrayField(CategoriesDescription, Some(categoryNames)))
    ]
  }

  // --- Schema converter ---

  datatype ItemsProperty = ItemsProperty(typeName: Option<string>, enumValues: Option<seq<string>>)

  /** A JSON-Schema property; `None` stands for a member that is `undefined` or not set. */
  datatype Property = Property(
    typeName: Option<string>,
    description: Option<string>,
    items: Option<ItemsProperty>,
    enumValues: Option<seq<string>>)

  datatype Parameters = Parameters(typeName: string, properties: map<string, Property>, required: seq<string>)
  datatype FunctionDef = FunctionDef(name: string, description: string, parameters: Parameters)
  datatype ToolDefinition = ToolDefinition(typeName: string, func: FunctionDef)

  const ToolName := "format_tool_research"
  const ToolDescription := "Formats the research findings for the specified AI tool."

  /** `typeMap[t]`: only the two schema types have a JSON-Schema spelling. */
  function TypeMap(t: string): Option<string>
  {
    if t == "STRING" then Some("string") else if t == "ARRAY" then Some("array") else None
  }

  /** The property the loop body writes for one field. */
  function ConvertField(f: FieldDef): Property
  {
    Property(
      TypeMap(f.typeName),
      f.description,
      if f.items.Some? then Some(ItemsProperty(TypeMap(f.items.value.typeName), f.items.value.enumValues)) else None,
      f.enumValues)
  }

  /** A field is required when its description is present and, lower-cased, starts with "required". */
  predicate IsRequired(f: FieldDef)
  {
    f.description.Some? && f.description.value != ""
    && Strings.StartsWith(Strings.ToLower(f.description.value), "required")
  }

  predicate HasKey(schema: Schema, k: string)
  {
    exists i :: 0 <= i < |schema| && schema[i].0 == k
  }

  /** The `properties` dictionary after the loop has visited every entry of `schema`. */
  function PropertiesOf(schema: Schema): map<string, Property>
  {
    if |schema| == 0 then map[]
    else PropertiesOf(schema[..|schema| - 1])[schema[|schema| - 1].0 := ConvertField(schema[|schema| - 1].1)]
  }

  /** The `required` list after the loop has visited every entry of `schema`. */
  function RequiredKeys(schema: Schema): seq<string>
  {
    if |schema| == 0 then []
    else
      var last := schema[|schema| - 1];
      RequiredKeys(schema[..|schema| - 1]) + if IsRequired(last.1) then [last.0] else []
  }

  /** `properties` has exactly the schema's keys, and each key holds its field, converted. */
  lemma {:induction false} PropertiesOfSpec(schema: Schema)
    requires DistinctKeys(schema)
    ensures forall k :: k in PropertiesOf(schema) <==> HasKey(schema, k)
    ensures forall i :: 0 <= i < |schema| ==>
      schema[i].0 in PropertiesOf(schema) && PropertiesOf(schema)[schema[i].0] == ConvertField(schema[i].1)
    decreases |schema|
  {
    if |schema| > 0 {
      var init := schema[..|schema| - 1];
      assert forall i :: 0 <= i < |init| ==> init[i] == schema[i];
      PropertiesOfSpec(init);
      forall k | HasKey(schema, k) ensures HasKey(init, k) || k == schema[|schema| - 1].0 {
        var i :| 0 <= i < |schema| && schema[i].0 == k;
        if i < |init| { assert init[i].0 == k; }
      }
    }
  }

  /** `required` lists exactly the keys of the fields whose description marks them required. */
  lemma {:induction false} RequiredKeysMembers(schema: Schema)
    ensures forall k :: k in RequiredKeys(schema) <==>
      exists i :: 0 <= i < |schema| && schema[i].0 == k && IsRequired(schema[i].1)
    decreases |schema|
  {
    if |schema| > 0 {
      var init := schema[..|schema| - 1];
      assert forall i :: 0 <= i < |init| ==> init[i] == schema[i];
      RequiredKeysMembers(init);
    }
  }

  /** Every earlier entry of `keys` is the key of an earlier schema entry than every later one. */
  predicate InSchemaOrder(keys: seq<string>, schema: Schema)
  {
    forall a, b :: 0 <= a < b < |keys| ==> KeyPrecedes(schema, keys[a], keys[b])
  }

  /** Key `x` is held by an earlier entry of the schema than key `y`. */
  predicate KeyPrecedes(schema: Schema, x: string, y: string)
  {
    exists i, j :: 0 <= i < j < |schema| && schema[i].0 == x && schema[j].0 == y
  }

  /** `required` keeps the schema's order. */
  lemma {:induction false} RequiredKeysOrdered(schema: Schema)
    ensures InSchemaOrder(RequiredKeys(schema), schema)
    decreases |schema|
  {
    if |schema| > 0 {
      var init := schema[..|schema| - 1];
      var last := schema[|schema| - 1];
      assert forall i :: 0 <= i < |init| ==> init[i] == schema[i];
      RequiredKeysOrdered(init);
      RequiredKeysMembers(init);
      var r := RequiredKeys(init);
      var r' := RequiredKeys(schema);
      assert r' == r + if IsRequired(last.1) then [last.0] else [];
      forall a, b | 0 <= a < b < |r'|
        ensures KeyPrecedes(schema, r'[a], r'[b])
      {
        if b < |r| {
          assert KeyPrecedes(init, r[a], r[b]);
          var i, j :| 0 <= i < j < |init| && init[i].0 == r[a] && init[j].0 == r[b];
          assert schema[i].0 == r'[a] && schema[j].0 == r'[b];
        } else {
          assert r'[a] == r[a] && r[a] in r;
          var i :| 0 <= i < |init| && init[i].0 == r'[a] && IsRequired(init[i].1);
          assert schema[i].0 == r'[a] && schema[|schema| - 1].0 == r'[b];
        }
      }
    } else {
      assert RequiredKeys(schema) == [];
    }
  }

  /** With distinct schema keys, no key is listed twice in `required`. */
  lemma {:induction false} RequiredKeysDistinct(schema: Schema)
    requires DistinctKeys(schema)
    ensures forall a, b :: 0 <= a < b < |RequiredKeys(schema)| ==> RequiredKeys(schema)[a] != RequiredKeys(schema)[b]
    decreases |schema|
  {
    if |schema| > 0 {
      var init := schema[..|schema| - 1];
      var last := schema[|schema| - 1];
      assert forall i :: 0 <= i < |init| ==> init[i] == schema[i];
      RequiredKeysDistinct(init);
      RequiredKeysMembers(init);
      var r := RequiredKeys(init);
      assert forall a :: 0 <= a < |r| ==> r[a] in r;
      assert last.0 !in r;
    }
  }

  lemma RequiredStep(schema: Schema, k: nat)
    requires k < |schema|
    ensures RequiredKeys(schema[..k + 1]) ==
      RequiredKeys(schema[..k]) + if IsRequired(schema[k].1) then [schema[k].0] else []
  {
    assert schema[..k + 1][..k] == schema[..k];
  }

  /** The tool definition `convertToOpenAITool(schema)` returns. */
  function ToolFor(schema: Schema): ToolDefinition
  {
    ToolDefinition("function", FunctionDef(ToolName, ToolDescription,
      Parameters("object", PropertiesOf(schema), RequiredKeys(schema))))
  }

  /** `convertToOpenAITool`: one pass over the schema's entries fills `properties` and pushes
      the required keys. */
  method ConvertToOpenAITool(schema: Schema) returns (tool: ToolDefinition)
    ensures tool == ToolFor(schema)
  {
    var properties: map<string, Property> := map[];
    var required: seq<string> := [];
    var i := 0;
    while i < |schema|
      invariant 0 <= i <= |schema|
      invariant properties == PropertiesOf(schema[..i])
      invariant required == RequiredKeys(schema[..i])
    {
      var (key, value) := schema[i];
      assert schema[..i + 1][..i] == schema[..i];
      RequiredStep(schema, i);
      properties := properties[key := ConvertField(value)];
      if value.description.Some? && value.description.value != ""
        && Strings.StartsWith(Strings.ToLower(value.description.value), "required")
      {
        required := required + [key];
      }
      i := i + 1;
    }
    assert schema[..i] == schema;
    tool := ToolDefinition("function", FunctionDef(ToolName, ToolDescription,
      Parameters("object", properties, required)));
  }

  /** Every required key names a property (for any schema, even one with a repeated key). */
  lemma {:induction false} RequiredAreProperties(schema: Schema)
    ensures forall k :: k in RequiredKeys(schema) ==> k in PropertiesOf(schema)
    decreases |schema|
  {
    if |schema| > 0 {
      RequiredAreProperties(schema[..|schema| - 1]);
    }
  }

  /** Enum placement: an item-level enum lands on `items`, a top-level enum on the property. */
  lemma EnumPlacement(schema: Schema, i: nat)
    requires DistinctKeys(schema) && i < |schema|
    ensures schema[i].0 in PropertiesOf(schema)
    ensures var p := PropertiesOf(schema)[schema[i].0];
      && p.typeName == TypeMap(schema[i].1.typeName)
      && p.description == schema[i].1.description
      && p.enumValues == schema[i].1.enumValues
      && (schema[i].1.items.Some? <==> p.items.Some?)
      && (schema[i].1.items.Some? ==> p.items.value.typeName == TypeMap(schema[i].1.items.value.typeName))
      && (schema[i].1.items.Some? ==> p.items.value.enumValues == schema[i].1.items.value.enumValues)
  {
    PropertiesOfSpec(schema);
  }

  lemma RequiredPrefix(d: string)
    requires |d| >= 8
    ensures Strings.StartsWith(Strings.ToLower(d), "required") <==>
      forall k :: 0 <= k < 8 ==> Strings.LowerChar(d[k]) == "required"[k]
  {
    var low := Strings.ToLower(d);
    if forall k :: 0 <= k < 8 ==> Strings.LowerChar(d[k]) == "required"[k] {
      assert low[..8] == "required";
    }
  }

  /** A description that opens with the marker makes its field required. */
  lemma MarkedIsRequired(f: FieldDef, rest: string)
    requires f.description == Some(RequiredMarker + rest)
    ensures IsRequired(f)
  {
    RequiredPrefix(RequiredMarker + rest);
  }

  /** A description that is absent, empty, or whose first letter is not an r in either case,
      leaves its field optional. */
  lemma UnmarkedIsOptional(f: FieldDef)
    requires f.description.Some? && f.description.value != "" ==>
      Strings.LowerChar(f.description.value[0]) != 'r'
    ensures !IsRequired(f)
  {
    if f.description.Some? && f.description.value != "" {
      var low := Strings.ToLower(f.description.value);
      if |low| >= 8 {
        assert low[..8][0] == low[0] != 'r';
      }
    }
  }

  /** The ten marked descriptions make their fields required, whatever the item enum. */
  lemma MarkedFieldsRequired(itemEnum: Option<seq<string>>)
    ensures IsRequired(StringField(NameDescription)) && IsRequired(StringField(DomainDescription))
    ensures IsRequired(StringField(WebsiteDescription)) && IsRequired(StringField(WhyDescription))
    ensures IsRequired(StringField(DescriptionDescription)) && IsRequired(StringField(DetailsDescription))
    ensures IsRequired(ArrayField(FeaturesDescription, itemEnum))
    ensures IsRequired(ArrayField(CautionsDescription, itemEnum))
    ensures IsRequired(StringField(BuyerDescription)) && IsRequired(StringField(BaseModelDescription))
  {
    MarkedIsRequired(StringField(NameDescription), NameRest);
    MarkedIsRequired(StringField(DomainDescription), DomainRest);
    MarkedIsRequired(StringField(WebsiteDescription), WebsiteRest);
    MarkedIsRequired(StringField(WhyDescription), WhyRest);
    MarkedIsRequired(StringField(DescriptionDescription), DescriptionRest);
    MarkedIsRequired(StringField(DetailsDescription), DetailsRest);
    MarkedIsRequired(ArrayField(FeaturesDescription, itemEnum), FeaturesRest);
    MarkedIsRequired(ArrayField(CautionsDescription, itemEnum), CautionsRest);
    MarkedIsRequired(StringField(BuyerDescription), BuyerRest);
    MarkedIsRequired(StringField(BaseModelDescription), BaseModelRest);
  }

  /** Pricing, Tags and Categories open with an O, an A and an S, so they stay optional. */
  lemma UnmarkedFieldsOptional(itemEnum: Option<seq<string>>)
    ensures !IsRequired(ArrayField(PricingDescription, itemEnum))
    ensures !IsRequired(ArrayField(TagsDescription, itemEnum))
    ensures !IsRequired(ArrayField(CategoriesDescription, itemEnum))
  {
    assert PricingDescription[0] == 'O' && TagsDescription[0] == 'A' && CategoriesDescription[0] == 'S';
    UnmarkedIsOptional(ArrayField(PricingDescription, itemEnum));
    UnmarkedIsOptional(ArrayField(TagsDescription, itemEnum));
    UnmarkedIsOptional(ArrayField(CategoriesDescription, itemEnum));
  }

  /** The required list of a thirteen-entry schema shaped like the base schema: names in the
      base order, with entries 9, 11 and 12 optional and the rest required. */
  lemma {:induction false} BaseShapedRequired(s: Schema)
    requires |s| == 13
    requires forall i :: 0 <= i < 13 ==> s[i].0 == BaseKeys[i]
    requires forall i :: 0 <= i < 13 ==> (IsRequired(s[i].1) <==> i != 9 && i != 11 && i != 12)
    ensures RequiredKeys(s) ==
      ["Name", "Domain", "Website", "Why", "Description", "Details", "Features", "Cautions", "Buyer", "Base_Model"]
  {
    assert s[..0] == [];
    RequiredStep(s, 0);
    assert RequiredKeys(s[..1]) == ["Name"];
    RequiredStep(s, 1);
    assert RequiredKeys(s[..2]) == ["Name", "Domain"];
    RequiredStep(s, 2);
    assert RequiredKeys(s[..3]) == ["Name", "Domain", "Website"];
    RequiredStep(s, 3);
    assert RequiredKeys(s[..4]) == ["Name", "Domain", "Website", "Why"];
    RequiredStep(s, 4);
    assert RequiredKeys(s[..5]) == ["Name", "Domain", "Website", "Why", "Description"];
    RequiredStep(s, 5);
    assert RequiredKeys(s[..6]) == ["Name", "Domain", "Website", "Why", "Description", "Details"];
    RequiredStep(s, 6);
    assert RequiredKeys(s[..7]) == ["Name", "Domain", "Website", "Why", "Description", "Details", "Features"];
    RequiredStep(s, 7);
    assert RequiredKeys(s[..8]) == ["Name", "Domain", "Website", "Why", "Description", "Details", "Features", "Cautions"];
    RequiredStep(s, 8);
    assert RequiredKeys(s[..9]) == ["Name", "Domain", "Website", "Why", "Description", "Details", "Features", "Cautions", "Buyer"];
    RequiredStep(s, 9);
    assert RequiredKeys(s[..10]) == ["Name", "Domain", "Website", "Why", "Description", "Details", "Features", "Cautions", "Buyer"];
    RequiredStep(s, 10);
    assert RequiredKeys(s[..11]) == ["Name", "Domain", "Website", "Why", "Description", "Details", "Features", "Cautions", "Buyer", "Base_Model"];
    RequiredStep(s, 11);
    assert RequiredKeys(s[..12]) == ["Name", "Domain", "Website", "Why", "Description", "Details", "Features", "Cautions", "Buyer", "Base_Model"];
    RequiredStep(s, 12);
    assert RequiredKeys(s[..13]) == ["Name", "Domain", "Website", "Why", "Description", "Details", "Features", "Cautions", "Buyer", "Base_Model"];
    assert s[..13] == s;
  }

  /** For the base schema, the required list is exactly the ten "Required - " fields, in schema
      order; Pricing, Tags and Categories are optional. */
  lemma {:induction false} BaseSchemaRequired(categoryNames: seq<string>, pricingOptions: seq<string>)
    ensures ToolFor(BaseSchema(categoryNames, pricingOptions)).func.parameters.required ==
      ["Name", "Domain", "Website", "Why", "Description", "Details", "Features", "Cautions", "Buyer", "Base_Model"]
  {
    BaseSchemaMarks(categoryNames, pricingOptions);
    BaseShapedRequired(BaseSchema(categoryNames, pricingOptions));
  }

  /** Field by field: the base schema has the 13 keys in order, and exactly Pricing (9), Tags (11)
      and Categories (12) are not marked required. */
  lemma {:induction false} BaseSchemaMarks(categoryNames: seq<string>, pricingOptions: seq<string>)
    ensures |BaseSchema(categoryNames, pricingOptions)| == 13
    ensures forall i :: 0 <= i < 13 ==> BaseSchema(categoryNames, pricingOptions)[i].0 == BaseKeys[i]
    ensures forall i :: 0 <= i < 13 ==>
      (IsRequired(BaseSchema(categoryNames, pricingOptions)[i].1) <==> i != 9 && i != 11 && i != 12)
  {
    BaseSchemaMarked(categoryNames, pricingOptions);
    BaseSchemaUnmarked(categoryNames, pricingOptions);
  }

  lemma {:induction false} BaseSchemaMarked(categoryNames: seq<string>, pricingOptions: seq<string>)
    ensures |BaseSchema(categoryNames, pricingOptions)| == 13
    ensures forall i :: 0 <= i < 13 ==> BaseSchema(categoryNames, pricingOptions)[i].0 == BaseKeys[i]
    ensures forall i :: 0 <= i < 13 && i != 9 && i != 11 && i != 12 ==>
      IsRequired(BaseSchema(categoryNames, pricingOptions)[i].1)
  {
    MarkedFieldsRequired(None);
  }

  lemma {:induction false} BaseSchemaUnmarked(categoryNames: seq<string>, pricingOptions: seq<string>)
    ensures |BaseSchema(categoryNames, pricingOptions)| == 13
    ensures !IsRequired(BaseSchema(categoryNames, pricingOptions)[9].1)
    ensures !IsRequired(BaseSchema(categoryNames, pricingOptions)[11].1)
    ensures !IsRequired(BaseSchema(categoryNames, pricingOptions)[12].1)
  {
    UnmarkedFieldsOptional(None);
    UnmarkedFieldsOptional(Some(pricingOptions));
    UnmarkedFieldsOptional(Some(categoryNames));
  }

  /** For the base schema, Categories' item enum is `categoryNames` and Pricing's is
      `pricingOptions`, both on `items` and neither on the property itself. */
  lemma BaseSchemaEnums(categoryNames: seq<string>, pricingOptions: seq<string>)
    ensures DistinctKeys(BaseSchema(categoryNames, pricingOptions))
    ensures var props := ToolFor(BaseSchema(categoryNames, pricingOptions)).func.parameters.properties;
      && "Categories" in props && "Pricing" in props
      && props["Categories"].typeName == Some("array") && props["Categories"].enumValues == None
      && props["Categories"].items == Some(ItemsProperty(Some("string"), Some(categoryNames)))
      && props["Pricing"].typeName == Some("array") && props["Pricing"].enumValues == None
      && props["Pricing"].items == Some(ItemsProperty(Some("string"), Some(pricingOptions)))
  {
    var s := BaseSchema(categoryNames, pricingOptions);
    PropertiesOfSpec(s);
    assert s[9].0 == "Pricing" && s[12].0 == "Categories";
  }

  // --- OpenRouter call ---

  /** The parts of a chat-completion response that the guard reads; `None` is a missing member. */
  datatype FunctionCall = FunctionCall(name: string, arguments: string)
  datatype ToolCall = ToolCall(func: FunctionCall)
  datatype Message = Message(toolCalls: Option<seq<ToolCall>>)
  datatype Choice = Choice(message: Option<Message>)
  datatype ChatResponse = ChatResponse(choices: seq<Choice>)

  /** The request sent to the chat-completion endpoint. */
  datatype ChatRequest = ChatRequest(model: string, prompt: string, tools: seq<ToolDefinition>, toolChoice: string)

  const ToolCallError := "OpenRouter did not return the expected tool call."
  const DefaultModel := "anthropic/claude-3-haiku:beta"

  /** `response.choices[0]?.message?.tool_calls?.[0]`: any missing link gives `None`. */
  function FirstToolCall(response: ChatResponse): (r: Option<ToolCall>)
    ensures r.Some? <==>
      |response.choices| > 0 && response.choices[0].message.Some?
      && response.choices[0].message.value.toolCalls.Some?
      && |response.choices[0].message.value.toolCalls.value| > 0
    ensures r.Some? ==> r.value == response.choices[0].message.value.toolCalls.value[0]
  {
    if |response.choices| == 0 then None
    else match response.choices[0].message
      case None => None
      case Some(m) =>
        match m.toolCalls
        case None => None
        case Some(calls) => if |calls| == 0 then None else Some(calls[0])
  }

  /** The guard: only a first tool call naming `format_tool_research` is accepted, and its
      arguments go to `parse` (the JSON parser) with no further check. */
  function AcceptToolCall<T>(response: ChatResponse, parse: string -> Result<T>): (r: Result<T>)
    ensures FirstToolCall(response).None? ==> r == Err(ToolCallError)
    ensures FirstToolCall(response).Some? && FirstToolCall(response).value.func.name != ToolName ==>
      r == Err(ToolCallError)
    ensures FirstToolCall(response).Some? && FirstToolCall(response).value.func.name == ToolName ==>
      r == parse(FirstToolCall(response).value.func.arguments)
  {
    match FirstToolCall(response)
    case None => Err(ToolCallError)
    case Some(call) =>
      if call.func.name != ToolName then Err(ToolCallError) else parse(call.func.arguments)
  }

  const PromptHead: string := "You are an expert AI tool researcher. Research the tool named \""
  const PromptMiddle: string := "\". Based on your research, identify the most relevant professional categories for this tool. Available Categories: "
  const PromptTail: string := ". It is critical that all 'Required' fields in the schema are filled accurately and not left empty. Then, call the 'format_tool_research' function with the results."

  /** A research prompt with the given closing sentences: it names the tool in quotes and lists
      the categories joined with ", ". */
  function Prompt(toolName: string, categoryNames: seq<string>, closing: string): (p: string)
    ensures Strings.Contains(p, toolName)
    ensures Strings.Contains(p, Strings.Join(categoryNames, ", "))
    ensures Strings.StartsWith(p, PromptHead)
  {
    var joined := Strings.Join(categoryNames, ", ");
    Strings.ContainsInfix(PromptHead, toolName, PromptMiddle + joined + closing);
    assert PromptHead + toolName + PromptMiddle + joined + closing
      == PromptHead + toolName + (PromptMiddle + joined + closing);
    Strings.ContainsInfix(PromptHead + toolName + PromptMiddle, joined, closing);
    assert (PromptHead + toolName + PromptMiddle + joined + closing)[..|PromptHead|] == PromptHead;
    PromptHead + toolName + PromptMiddle + joined + closing
  }

  /** The OpenRouter prompt, which ends by asking for the `format_tool_research` call. */
  function ResearchPrompt(toolName: string, categoryNames: seq<string>): string
  {
    Prompt(toolName, categoryNames, PromptTail)
  }

  /** `generateWithOpenRouter`: builds the one-tool request with the forced tool choice, sends it
      through `complete` (the chat-completion endpoint) and applies the guard to the reply.
      `pricingOptions` stands for `PRICING_OPTIONS`. */
  method GenerateWithOpenRouter<T>(toolName: string, modelName: string, categoryNames: seq<string>,
    pricingOptions: seq<string>, complete: ChatRequest -> Result<ChatResponse>, parse: string -> Result<T>)
    returns (r: Result<T>, request: ChatRequest)
    ensures request.model == modelName
    ensures request.tools == [ToolFor(BaseSchema(categoryNames, pricingOptions))]
    ensures request.toolChoice == request.tools[0].func.name == ToolName
    ensures request.prompt == ResearchPrompt(toolName, categoryNames)
    ensures complete(request).Err? ==> r == Err(complete(request).message)
    ensures complete(request).Ok? ==> r == AcceptToolCall(complete(request).value, parse)
  {
    var tool := ConvertToOpenAITool(BaseSchema(categoryNames, pricingOptions));
    request := ChatRequest(modelName, ResearchPrompt(toolName, categoryNames), [tool], ToolName);
    var response := complete(request);
    if response.Err? {
      r := Err(response.message);
    } else {
      r := AcceptToolCall(response.value, parse);
    }
  }

  /** `modelName || DefaultModel`: the default replaces exactly the falsy names. */
  function EffectiveModel(modelName: Option<string>): (m: string)
    ensures modelName.None? || modelName.value == "" ==> m == DefaultModel
    ensures modelName.Some? && modelName.value != "" ==> m == modelName.value
    ensures m != ""
  {
    if modelName.Some? && modelName.value != "" then modelName.value else DefaultModel
  }

  /** `generateToolResearch`: the OpenRouter call with the effective model. */
  method GenerateToolResearch<T>(toolName: string, modelName: Option<string>, categoryNames: seq<string>,
    pricingOptions: seq<string>, complete: ChatRequest -> Result<ChatResponse>, parse: string -> Result<T>)
    returns (r: Result<T>, request: ChatRequest)
    ensures request.model == EffectiveModel(modelName)
    ensures request.toolChoice == ToolName && request.tools == [ToolFor(BaseSchema(categoryNames, pricingOptions))]
    ensures request.prompt == ResearchPrompt(toolName, categoryNames)
    ensures complete(request).Err? ==> r == Err(complete(request).message)
    ensures complete(request).Ok? ==> r == AcceptToolCall(complete(request).value, parse)
  {
    r, request := GenerateWithOpenRouter(toolName, EffectiveModel(modelName), categoryNames,
      pricingOptions, complete, parse);
  }
}
