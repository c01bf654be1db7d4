/** The new-tool page: coercing the submitted form into the record that is stored, the page's
    answer to a submission, and the research assistant's busy-flag discipline. */
module NewToolPage {
  import opened Wrappers
  import opened Records
  import Strings
  import FormHelpers
  import opened Http
  import ToolFormView

  // --- Field coercion ---

  /** Pricing, Categories and Articles: a list is kept, a non-empty string becomes a one-element
      list, and an absent or empty value becomes []. */
  function AsList(v: Option<FieldValue>): (r: FieldValue)
    requires v.None? || !v.value.Flag?
    ensures r.List?
    ensures v.Some? && v.value.List? ==> r == v.value
    ensures v.Some? && v.value.Text? && v.value.s != "" ==> r == List([v.value.s])
    ensures !Truthy(v) ==> r == List([])
  {
    if Truthy(v) then (if v.value.List? then v.value else List([v.value.s])) else List([])
  }

  /** `.map(tag => tag.trim()).filter(Boolean)`. */
  function CleanTags(pieces: seq<string>): (tags: seq<string>)
    ensures |tags| <= |pieces|
    ensures forall k :: 0 <= k < |tags| ==> tags[k] != "" && Strings.IsTrimmed(tags[k])
  {
    if |pieces| == 0 then []
    else
      var t := Strings.Trim(pieces[0]);
      var rest := CleanTags(pieces[1..]);
      if t == "" then rest
      else
        assert forall k :: 0 < k < |rest| + 1 ==> ([t] + rest)[k] == rest[k - 1];
        [t] + rest
  }

  /** Cleaning goes piece by piece: the tags of two runs of pieces follow one another. */
  lemma {:induction false} CleanTagsAppend(a: seq<string>, b: seq<string>)
    ensures CleanTags(a + b) == CleanTags(a) + CleanTags(b)
    decreases |a|
  {
    if a == [] {
      assert a + b == b;
    } else {
      assert (a + b)[1..] == a[1..] + b;
      CleanTagsAppend(a[1..], b);
    }
  }

  /** A further piece adds its trimmed text as the last tag, or nothing when it trims to "". With
      `CleanTags([]) == []` this pins the tags as the trimmed non-empty pieces, in order. */
  lemma {:induction false} CleanTagsSnoc(pieces: seq<string>, p: string)
    ensures CleanTags(pieces + [p]) ==
      CleanTags(pieces) + (if Strings.Trim(p) == "" then [] else [Strings.Trim(p)])
  {
    var last := if Strings.Trim(p) == "" then [] else [Strings.Trim(p)];
    assert CleanTags([p]) == last by {
      assert [p][0] == p && [p][1..] == [];
      assert CleanTags([p][1..]) == [];
    }
    CleanTagsAppend(pieces, [p]);
  }

  /** `tags.split(',').map(tag => tag.trim()).filter(Boolean)`. */
  function TagPieces(s: string): seq<string>
  {
    CleanTags(Strings.Split(s, ','))
  }

  /** The Tags rule: a non-empty string is split into clean tags, an absent or empty value becomes
      [], and anything else is left as it is. */
  function NormalTags(v: Option<FieldValue>): (r: FieldValue)
    ensures !Truthy(v) ==> r == List([])
    ensures v.Some? && v.value.Text? && v.value.s != "" ==> r == List(TagPieces(v.value.s))
    ensures v.Some? && v.value.Text? && v.value.s != "" ==>
      r.List? && forall k :: 0 <= k < |r.items| ==> r.items[k] != "" && Strings.IsTrimmed(r.items[k])
    ensures v.Some? && v.value.List? ==> r == v.value
  {
    if Truthy(v) && v.value.Text? then List(TagPieces(v.value.s))
    else if !Truthy(v) then List([])
    else v.value
  }

  /** The fields the page rewrites. */
  const Rewritten: set<string> := {"Active", "Featured", "Pricing", "Tags", "Categories", "Articles"}

  /** The record `getServerSideProps` stores for a submitted form. */
  function Normalised(formData: Record): (toolData: Record)
    requires FormShaped(formData)
    ensures toolData.Keys == formData.Keys + Rewritten
    ensures toolData["Active"] == Flag(Get(formData, "Active") == Some(Text("on")))
    ensures toolData["Featured"] == Flag(Get(formData, "Featured") == Some(Text("on")))
    ensures toolData["Pricing"].List? && toolData["Categories"].List? && toolData["Articles"].List?
    ensures toolData["Pricing"] == AsList(Get(formData, "Pricing"))
    ensures toolData["Categories"] == AsList(Get(formData, "Categories"))
    ensures toolData["Articles"] == AsList(Get(formData, "Articles"))
    ensures toolData["Tags"] == NormalTags(Get(formData, "Tags"))
    ensures (Get(formData, "Tags").None? || Get(formData, "Tags").value.Text?) ==>
      toolData["Tags"].List? &&
      forall k :: 0 <= k < |toolData["Tags"].items| ==>
        toolData["Tags"].items[k] != "" && Strings.IsTrimmed(toolData["Tags"].items[k])
    ensures forall k :: k in formData && k !in Rewritten ==> toolData[k] == formData[k]
  {
    formData
      ["Active" := Flag(Get(formData, "Active") == Some(Text("on")))]
      ["Featured" := Flag(Get(formData, "Featured") == Some(Text("on")))]
      ["Pricing" := AsList(Get(formData, "Pricing"))]
      ["Tags" := NormalTags(Get(formData, "Tags"))]
      ["Categories" := AsList(Get(formData, "Categories"))]
      ["Articles" := AsList(Get(formData, "Articles"))]
  }

  /** One `if (toolData.key) { ... } else { toolData.key = []; }` step for a list field. */
  method CoerceList(toolData: Record, key: string) returns (r: Record)
    requires key !in toolData || !toolData[key].Flag?
    ensures r == toolData[key := AsList(Get(toolData, key))]
  {
    if Truthy(Get(toolData, key)) {
      r := toolData[key := if toolData[key].List? then toolData[key] else List([toolData[key].s])];
    } else {
      r := toolData[key := List([])];
    }
  }

  /** The Tags step. */
  method CoerceTags(toolData: Record) returns (r: Record)
    ensures r == toolData["Tags" := NormalTags(Get(toolData, "Tags"))]
  {
    r := toolData;
    if Truthy(Get(toolData, "Tags")) && toolData["Tags"].Text? {
      r := toolData["Tags" := List(TagPieces(toolData["Tags"].s))];
    } else if !Truthy(Get(toolData, "Tags")) {
      r := toolData["Tags" := List([])];
    } else {
      assert r == toolData["Tags" := toolData["Tags"]];
    }
  }

  /** The coercion steps of `getServerSideProps`, each reassigning one field of `toolData`. */
  method NormaliseToolData(formData: Record) returns (toolData: Record)
    requires FormShaped(formData)
    ensures toolData == Normalised(formData)
  {
    toolData := formData["Active" := Flag(Get(formData, "Active") == Some(Text("on")))];
    toolData := toolData["Featured" := Flag(Get(formData, "Featured") == Some(Text("on")))];
    assert Get(toolData, "Pricing") == Get(formData, "Pricing");
    toolData := CoerceList(toolData, "Pricing");
    assert Get(toolData, "Tags") == Get(formData, "Tags");
    toolData := CoerceTags(toolData);
    assert Get(toolData, "Categories") == Get(formData, "Categories");
    toolData := CoerceList(toolData, "Categories");
    assert Get(toolData, "Articles") == Get(formData, "Articles");
    toolData := CoerceList(toolData, "Articles");
  }

  /** As written, two checked pricing options reach the store as a one-element list: the form
      parse has already dropped the first, so the `Array.isArray` branch never sees a list. */
  lemma SubmittedPricingKeepsLastOnly()
    ensures Normalised(FormHelpers.ToolFormRecord([("Pricing", "Free"), ("Pricing", "Paid")]))["Pricing"]
      == List(["Paid"])
  {
    FormHelpers.PricingKeepsLastOnly();
  }

  /** With every checkbox group collected, the normalisation stores every checked pricing option,
      category and article, in submission order. */
  lemma CorrectedFormKeepsEveryChoice(pairs: seq<FormHelpers.Pair>)
    ensures var toolData := Normalised(FormHelpers.ToolFormRecordAll(pairs));
      && toolData["Pricing"] == List(FormHelpers.GetAll(pairs, "Pricing"))
      && toolData["Categories"] == List(FormHelpers.GetAll(pairs, "Categories"))
      && toolData["Articles"] == List(FormHelpers.GetAll(pairs, "Articles"))
  {
    FormHelpers.ToolFormRecordAllSpec(pairs);
  }

  // --- Tags round trip through the form ---

  /** Each tag with a space in front. */
  function SpaceEach(ts: seq<string>): (r: seq<string>)
    ensures |r| == |ts|
    ensures forall k :: 0 <= k < |ts| ==> r[k] == " " + ts[k]
  {
    seq(|ts|, k requires 0 <= k < |ts| => " " + ts[k])
  }

  /** Joining with ", " is joining the space-prefixed tail with ",". */
  lemma {:induction false} JoinSpaced(ts: seq<string>)
    requires |ts| >= 1
    ensures " " + Strings.Join(ts, ", ") == Strings.Join(SpaceEach(ts), ",")
    decreases |ts|
  {
    if |ts| > 1 {
      JoinSpaced(ts[1..]);
      assert SpaceEach(ts)[1..] == SpaceEach(ts[1..]);
      assert " " + Strings.Join(ts, ", ") == (" " + ts[0]) + "," + (" " + Strings.Join(ts[1..], ", "));
    }
  }

  /** Trimming and filtering the space-prefixed tags gives the tags back. */
  lemma {:induction false} CleanSpaced(ts: seq<string>)
    requires forall k :: 0 <= k < |ts| ==> ts[k] != "" && Strings.IsTrimmed(ts[k])
    ensures CleanTags(SpaceEach(ts)) == ts
    decreases |ts|
  {
    if |ts| > 0 {
      Strings.TrimAfterSpace(ts[0]);
      assert SpaceEach(ts)[1..] == SpaceEach(ts[1..]);
      CleanSpaced(ts[1..]);
    }
  }

  /** The first tag and the space-prefixed others, as the form's Tags text splits on commas. */
  function ShownPieces(tags: seq<string>): (pieces: seq<string>)
    requires |tags| > 0
    ensures |pieces| == |tags| && pieces[0] == tags[0]
    ensures forall k :: 0 < k < |tags| ==> pieces[k] == " " + tags[k]
  {
    [tags[0]] + SpaceEach(tags[1..])
  }

  /** Joining with ", " is joining those pieces with ",". */
  lemma {:induction false} JoinShownPieces(tags: seq<string>)
    requires |tags| > 0
    ensures Strings.Join(tags, ", ") == Strings.Join(ShownPieces(tags), ",")
  {
    var pieces := ShownPieces(tags);
    if |tags| > 1 {
      var head, tail := tags[0], Strings.Join(tags[1..], ", ");
      assert Strings.Join(pieces, ",") == head + "," + (" " + tail) by {
        assert pieces[1..] == SpaceEach(tags[1..]);
        JoinSpaced(tags[1..]);
      }
      assert head + ", " + tail == head + "," + (" " + tail) by {
        assert ", " == "," + " ";
      }
    }
  }

  /** The form's Tags text splits on commas into those pieces. */
  lemma {:induction false} ShownTagsSplit(tags: seq<string>)
    requires |tags| > 0
    requires forall k :: 0 <= k < |tags| ==> ',' !in tags[k]
    ensures Strings.Split(Strings.Join(tags, ", "), ',') == ShownPieces(tags)
  {
    var pieces := ShownPieces(tags);
    JoinShownPieces(tags);
    forall k | 0 <= k < |pieces| ensures ',' !in pieces[k] {
      if k > 0 {
        assert pieces[k] == " " + tags[k];
      }
    }
    assert "," == [','];
    Strings.SplitJoin(pieces, ',');
  }

  /** Cleaning those pieces gives the clean tags back. */
  lemma {:induction false} CleanShownTags(tags: seq<string>)
    requires |tags| > 0
    requires forall k :: 0 <= k < |tags| ==> tags[k] != "" && Strings.IsTrimmed(tags[k])
    ensures CleanTags(ShownPieces(tags)) == tags
  {
    var spaced := ShownPieces(tags);
    Strings.TrimTrimmed(tags[0]);
    CleanSpaced(tags[1..]);
    assert spaced[1..] == SpaceEach(tags[1..]);
    assert CleanTags(spaced) == [tags[0]] + tags[1..];
    assert tags == [tags[0]] + tags[1..];
  }

  /** A stored tag list that is clean (no empty tag, no outer whitespace, no comma) survives being
      shown in the form as `join(', ')` and submitted again. */
  lemma {:induction false} TagsRoundTrip(tool: Record, tags: seq<string>)
    requires Get(tool, "Tags") == Some(List(tags))
    requires forall k :: 0 <= k < |tags| ==> tags[k] != "" && Strings.IsTrimmed(tags[k]) && ',' !in tags[k]
    ensures NormalTags(Some(Text(ToolFormView.TagsDefault(Some(tool))))) == List(tags)
  {
    var shown := ToolFormView.TagsDefault(Some(tool));
    assert shown == Strings.Join(tags, ", ");
    if |tags| > 0 {
      assert |shown| >= |tags[0]| > 0;
      ShownTagsSplit(tags);
      CleanShownTags(tags);
    }
  }

  // --- Submission ---

  /** What the page does with a request: send the browser to the tool list, or render the form
      (with an error message after a failed submission). */
  datatype PageOutcome = Redirect(location: string) | Render(error: Option<string>)

  const DefaultSubmitError := "Something went wrong."

  /** `getServerSideProps`: a POST is parsed, coerced and handed to `createTool`; a success
      redirects with 302 to /tools, a failure re-renders with the error's message. Any other
      method renders the empty form. */
  method GetServerSideProps(httpMethod: string, chunks: seq<string>,
    decode: string -> seq<FormHelpers.Pair>, createTool: Record -> Result<()>)
    returns (outcome: PageOutcome, submitted: Option<Record>)
    ensures httpMethod != "POST" ==> outcome == Render(None) && submitted == None
    ensures httpMethod == "POST" ==>
      submitted == Some(Normalised(FormHelpers.ToolFormRecord(decode(Strings.Concat(chunks)))))
    ensures httpMethod == "POST" && createTool(submitted.value).Ok? ==> outcome == Redirect("/tools")
    ensures httpMethod == "POST" && createTool(submitted.value).Err? ==>
      outcome == Render(Some(if createTool(submitted.value).message != "" then createTool(submitted.value).message
                             else DefaultSubmitError))
  {
    if httpMethod == "POST" {
      var formData := FormHelpers.ParseToolForm(chunks, decode);
      var toolData := NormaliseToolData(formData);
      submitted := Some(toolData);
      var created := createTool(toolData);
      if created.Ok? {
        outcome := Redirect("/tools");
      } else {
        outcome := Render(Some(if created.message != "" then created.message else DefaultSubmitError));
      }
    } else {
      outcome := Render(None);
      submitted := None;
    }
  }

  // --- Research assistant ---

  const ResearchFailed := "Research failed."
  const InitialModel := "anthropic/claude-3.5-haiku"

  /** The data to load into the form, or the message `clientError` takes. A rejected fetch or an
      unreadable body gives its own message; a non-ok reply gives its `message` field, or "Research
      failed." when that is missing or empty. */
  function ResearchOutcome(reply: Result<ResearchReply>): (r: Result<Record>)
    ensures r.Ok? <==> reply.Ok? && reply.value.ok && reply.value.json.Ok?
    ensures r.Ok? ==> r.value == reply.value.json.value
    ensures reply.Err? ==> r == Err(reply.message)
    ensures reply.Ok? && reply.value.json.Err? ==> r == Err(reply.value.json.message)
    ensures reply.Ok? && !reply.value.ok && reply.value.json.Ok? ==>
      var e := reply.value.json.value;
      r == Err(if Truthy(Get(e, "message")) then Display(e["message"]) else ResearchFailed)
  {
    match reply
    case Err(m) => Err(m)
    case Ok(ResearchReply(ok, json)) =>
      match json
      case Err(m) => Err(m)
      case Ok(body) =>
        if !ok then Err(if Truthy(Get(body, "message")) then Display(body["message"]) else ResearchFailed)
        else Ok(body)
  }

  /** The React state `handleResearch` steps through. */
  class ResearchAssistant {
    var researchTerm: string
    var isResearching: bool
    var toolData: Option<Record>
    var formKey: int
    var clientError: Option<string>
    var selectedModel: string

    constructor(now: int)
      ensures researchTerm == "" && !isResearching && toolData == None
      ensures formKey == now && clientError == None && selectedModel == InitialModel
    {
      researchTerm := "";
      isResearching := false;
      toolData := None;
      formKey := now;
      clientError := None;
      selectedModel := InitialModel;
    }

    /** `handleResearch`: nothing happens for an empty term. Otherwise the busy flag is raised and
        the error cleared before the request `(toolName, model)` goes out, the outcome either loads
        the data with a fresh form key or records the error, and the busy flag is always lowered. */
    method HandleResearch(fetch: (string, string) -> Result<ResearchReply>, now: int)
      returns (request: Option<(string, string)>, busyDuringRequest: bool)
      modifies this
      ensures old(researchTerm) == "" ==> request == None && unchanged(this)
      ensures old(researchTerm) != "" ==>
        && request == Some((old(researchTerm), old(selectedModel)))
        && busyDuringRequest
        && !isResearching
        && researchTerm == old(researchTerm) && selectedModel == old(selectedModel)
        && (ResearchOutcome(fetch(request.value.0, request.value.1)).Ok? ==>
              toolData == Some(ResearchOutcome(fetch(request.value.0, request.value.1)).value)
              && formKey == now && clientError == None)
        && (ResearchOutcome(fetch(request.value.0, request.value.1)).Err? ==>
              toolData == old(toolData) && formKey == old(formKey)
              && clientError == Some(ResearchOutcome(fetch(request.value.0, request.value.1)).message))
    {
      if researchTerm == "" {
        request := None;
        busyDuringRequest := false;
        return;
      }
      isResearching := true;
      clientError := None;
      request := Some((researchTerm, selectedModel));
      busyDuringRequest := isResearching;
      var outcome := ResearchOutcome(fetch(researchTerm, selectedModel));
      if outcome.Ok? {
        toolData := Some(outcome.value);
        formKey := now;
      } else {
        clientError := Some(outcome.message);
      }
      isResearching := false;
    }
  }
}
