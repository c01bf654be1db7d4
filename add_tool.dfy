/** The add-tool endpoint: it reads the tool form, asks the research endpoint about the named tool
    and answers with the form merged with the research. */
module AddToolApi {
  import opened Wrappers
  import opened Records
  import opened Http
  import Strings
  import FormHelpers

  /** The one call the handler can make: POST to the research endpoint with a body holding only
      `toolName`. */
  datatype Call = ResearchRequest(toolName: FieldValue)

  const NameRequired := "Tool name is required from the form."
  const ResearchPrefix := "Failed to research the tool: "
  const Created := "Tool created successfully!"
  const InternalError := "An internal server error occurred."

  /** `{...formData, ...researchedData}`: the research wins on shared keys, form-only keys are kept
      and research-only keys are added. */
  function Merge(formData: Record, researched: Record): (merged: Record)
    ensures merged.Keys == formData.Keys + researched.Keys
    ensures forall k :: k in researched ==> merged[k] == researched[k]
    ensures forall k :: k in formData && k !in researched ==> merged[k] == formData[k]
  {
    formData + researched
  }

  /** The handler's decision for the parsed form, given what `fetch` delivers (an `Err` when the
      request itself throws). */
  function Decide(httpMethod: string, formData: Record, research: FieldValue -> Result<ResearchReply>)
    : (d: Decision<Record, Call>)
    ensures httpMethod != "POST" ==>
      d == Decision(Reply(405, PlainText(MethodNotAllowed(httpMethod))), true, [])
    ensures httpMethod == "POST" && !Truthy(Get(formData, "Name")) ==>
      d == Decision(Reply(400, Message(NameRequired)), false, [])
    // The research endpoint is reached only past both guards, with the form's Name alone.
    ensures d.calls != [] <==> httpMethod == "POST" && Truthy(Get(formData, "Name"))
    ensures d.calls != [] ==> d.calls == [ResearchRequest(formData["Name"])]
    ensures d.allowHeader <==> httpMethod != "POST"
    ensures d.calls != [] ==>
      var r := research(formData["Name"]);
      && (r.Err? ==> d.reply == Reply(500, Message(InternalError)))
      && (r.Ok? && r.value.json.Err? ==> d.reply == Reply(500, Message(InternalError)))
      && (r.Ok? && !r.value.ok && r.value.json.Ok? ==>
            d.reply == Reply(502, Message(ResearchPrefix + TemplateValue(Get(r.value.json.value, "message")))))
      && (r.Ok? && r.value.ok && r.value.json.Ok? ==>
            d.reply == Reply(200, MessageWithTool(Created, Merge(formData, r.value.json.value))))
  {
    if httpMethod != "POST" then
      Decision(Reply(405, PlainText(MethodNotAllowed(httpMethod))), true, [])
    else if !Truthy(Get(formData, "Name")) then
      Decision(Reply(400, Message(NameRequired)), false, [])
    else
      var calls := [ResearchRequest(formData["Name"])];
      match research(formData["Name"])
      case Err(_) => Decision(Reply(500, Message(InternalError)), false, calls)
      case Ok(ResearchReply(ok, json)) =>
        match json
        case Err(_) => Decision(Reply(500, Message(InternalError)), false, calls)
        case Ok(body) =>
          if !ok then
            Decision(Reply(502, Message(ResearchPrefix + TemplateValue(Get(body, "message")))), false, calls)
          else
            Decision(Reply(200, MessageWithTool(Created, Merge(formData, body))), false, calls)
  }

  /** A failed research reply with no message names it "undefined". */
  lemma MissingResearchMessage(formData: Record, research: FieldValue -> Result<ResearchReply>, body: Record)
    requires Truthy(Get(formData, "Name")) && "message" !in body
    requires research(formData["Name"]) == Ok(ResearchReply(false, Ok(body)))
    ensures Decide("POST", formData, research).reply == Reply(502, Message(ResearchPrefix + "undefined"))
  {
  }

  /** The handler: reads the form from `chunks` (decoded by `decode`), then follows the decision,
      sending exactly one reply. */
  method Handle(res: Response<Record>, httpMethod: string, chunks: seq<string>,
    decode: string -> seq<FormHelpers.Pair>, research: FieldValue -> Result<ResearchReply>)
    returns (calls: seq<Call>)
    modifies res
    ensures var formData := FormHelpers.ToolFormRecord(decode(Strings.Concat(chunks)));
      && res.sent == old(res.sent) + [Decide(httpMethod, formData, research).reply]
      && calls == Decide(httpMethod, formData, research).calls
    ensures res.headers == if httpMethod != "POST" then old(res.headers)["Allow" := ["POST"]] else old(res.headers)
  {
    if httpMethod != "POST" {
      res.SetHeader("Allow", ["POST"]);
      res.Send(Reply(405, PlainText(MethodNotAllowed(httpMethod))));
      return [];
    }
    var formData := FormHelpers.ParseToolForm(chunks, decode);
    if !Truthy(Get(formData, "Name")) {
      res.Send(Reply(400, Message(NameRequired)));
      return [];
    }
    var toolName := formData["Name"];
    calls := [ResearchRequest(toolName)];
    var response := research(toolName);
    if response.Err? || response.value.json.Err? {
      res.Send(Reply(500, Message(InternalError)));
      return;
    }
    if !response.value.ok {
      var errorData := response.value.json.value;
      res.Send(Reply(502, Message(ResearchPrefix + TemplateValue(Get(errorData, "message")))));
      return;
    }
    var researchedData := response.value.json.value;
    var finalToolData := Merge(formData, researchedData);
    res.Send(Reply(200, MessageWithTool(Created, finalToolData)));
  }
}
