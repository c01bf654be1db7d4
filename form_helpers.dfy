/** Reading a urlencoded request body and shaping its name/value pairs into a record. */
module FormHelpers {
  import opened Wrappers
  import opened Records
  import Strings

  /** One decoded `name=value` pair, in body order. */
  type Pair = (string, string)

  /** The names that occur in a pair list. */
  function Names(pairs: seq<Pair>): set<string>
  {
    set i | 0 <= i < |pairs| :: pairs[i].0
  }

  /** `Object.fromEntries(pairs)`: each pair in turn sets its name, so a later pair overwrites an
      earlier one with the same name. */
  function FromEntries(pairs: seq<Pair>): Record
  {
    if |pairs| == 0 then map[]
    else FromEntries(pairs[..|pairs| - 1])[pairs[|pairs| - 1].0 := Text(pairs[|pairs| - 1].1)]
  }

  /** Pair `i` is the last one carrying its name. */
  predicate LastOfName(pairs: seq<Pair>, i: int)
  {
    0 <= i < |pairs| && forall j :: i < j < |pairs| ==> pairs[j].0 != pairs[i].0
  }

  /** Dropping the last pair drops at most its name. */
  lemma NamesStep(pairs: seq<Pair>)
    requires |pairs| > 0
    ensures Names(pairs) == Names(pairs[..|pairs| - 1]) + {pairs[|pairs| - 1].0}
  {
    var init := pairs[..|pairs| - 1];
    forall k | k in Names(pairs) ensures k in Names(init) + {pairs[|pairs| - 1].0} {
      var i :| 0 <= i < |pairs| && pairs[i].0 == k;
      if i < |pairs| - 1 {
        assert init[i].0 == k;
      }
    }
    forall k | k in Names(init) ensures k in Names(pairs) {
      var i :| 0 <= i < |init| && init[i].0 == k;
      assert pairs[i].0 == k;
    }
  }

  /** The record has exactly the submitted names, always holding strings. */
  lemma {:induction false} FromEntriesKeys(pairs: seq<Pair>)
    ensures FromEntries(pairs).Keys == Names(pairs)
    ensures forall k :: k in FromEntries(pairs) ==> FromEntries(pairs)[k].Text?
    decreases |pairs|
  {
    if |pairs| > 0 {
      FromEntriesKeys(pairs[..|pairs| - 1]);
      NamesStep(pairs);
    }
  }

  /** Each name holds the value of its last occurrence. */
  lemma {:induction false} FromEntriesLast(pairs: seq<Pair>)
    ensures forall i :: LastOfName(pairs, i) ==>
      pairs[i].0 in FromEntries(pairs) && FromEntries(pairs)[pairs[i].0] == Text(pairs[i].1)
    decreases |pairs|
  {
    if |pairs| > 0 {
      var init := pairs[..|pairs| - 1];
      FromEntriesLast(init);
      forall i | LastOfName(pairs, i)
        ensures pairs[i].0 in FromEntries(pairs) && FromEntries(pairs)[pairs[i].0] == Text(pairs[i].1)
      {
        if i < |pairs| - 1 {
          assert LastOfName(init, i);
        }
      }
    }
  }

  /** Both facts about `Object.fromEntries`. */
  lemma FromEntriesSpec(pairs: seq<Pair>)
    ensures FromEntries(pairs).Keys == Names(pairs)
    ensures forall i :: LastOfName(pairs, i) ==> FromEntries(pairs)[pairs[i].0] == Text(pairs[i].1)
    ensures forall k :: k in FromEntries(pairs) ==> FromEntries(pairs)[k].Text?
  {
    FromEntriesKeys(pairs);
    FromEntriesLast(pairs);
  }

  /** `params.getAll(name)`: the values of every pair with that name, in body order. */
  function GetAll(pairs: seq<Pair>, name: string): seq<string>
  {
    if |pairs| == 0 then []
    else
      var last := pairs[|pairs| - 1];
      GetAll(pairs[..|pairs| - 1], name) + if last.0 == name then [last.1] else []
  }

  /** A value is collected exactly when some pair carries it under that name. */
  lemma {:induction false} GetAllMembers(pairs: seq<Pair>, name: string)
    ensures forall v :: v in GetAll(pairs, name) <==> (name, v) in pairs
    decreases |pairs|
  {
    if |pairs| > 0 {
      var init := pairs[..|pairs| - 1];
      GetAllMembers(init, name);
      assert pairs == init + [pairs[|pairs| - 1]];
    }
  }

  /** Collecting is compositional: the values of a longer body extend those of its prefix, so the
      order of the body is kept. */
  lemma {:induction false} GetAllAppend(a: seq<Pair>, b: seq<Pair>, name: string)
    ensures GetAll(a + b, name) == GetAll(a, name) + GetAll(b, name)
    decreases |b|
  {
    if |b| == 0 {
      assert a + b == a;
    } else {
      var initB := b[..|b| - 1];
      GetAllAppend(a, initB, name);
      assert (a + b)[..|a + b| - 1] == a + initB;
    }
  }

  /** The body is the chunks in arrival order, whatever the chunk boundaries. */
  lemma {:induction false} ConcatAppend(a: seq<string>, b: seq<string>)
    ensures Strings.Concat(a + b) == Strings.Concat(a) + Strings.Concat(b)
    decreases |b|
  {
    if |b| == 0 {
      assert a + b == a;
    } else {
      var initB, last := b[..|b| - 1], b[|b| - 1];
      ConcatAppend(a, initB);
      assert (a + b)[..|a + b| - 1] == a + initB && (a + b)[|a + b| - 1] == last;
      assert Strings.Concat(a + b) == Strings.Concat(a + initB) + last;
      assert Strings.Concat(b) == Strings.Concat(initB) + last;
    }
  }

  /** The request stream as the two helpers see it: data events append to the buffered text, and
      the first end event resolves the promise with the text received so far. */
  class BodyReader {
    var data: string
    var resolved: Option<string>

    constructor()
      ensures data == "" && resolved == None
    {
      data := "";
      resolved := None;
    }

    /** `req.on("data", chunk => data += chunk)`. */
    method OnData(chunk: string)
      modifies this
      ensures data == old(data) + chunk
      ensures resolved == old(resolved)
    {
      data := data + chunk;
    }

    /** `req.on("end", () => resolve(data))`; a promise settles only once. */
    method OnEnd()
      modifies this
      ensures data == old(data)
      ensures resolved == if old(resolved).None? then Some(old(data)) else old(resolved)
    {
      if resolved.None? {
        resolved := Some(data);
      }
    }
  }

  /** Delivers `chunks` as data events and then the end event; the body is what the promise
      resolves to. */
  method ReadBody(chunks: seq<string>) returns (body: string)
    ensures body == Strings.Concat(chunks)
  {
    var reader := new BodyReader();
    var i := 0;
    while i < |chunks|
      invariant 0 <= i <= |chunks|
      invariant reader.data == Strings.Concat(chunks[..i])
      invariant reader.resolved == None
    {
      assert chunks[..i + 1][..i] == chunks[..i];
      reader.OnData(chunks[i]);
      i := i + 1;
    }
    assert chunks[..i] == chunks;
    reader.OnEnd();
    body := reader.resolved.value;
  }

  /** `parseFormBody`: the record of the decoded body. `decode` is `URLSearchParams` parsing. */
  method ParseFormBody(chunks: seq<string>, decode: string -> seq<Pair>) returns (record: Record)
    ensures var pairs := decode(Strings.Concat(chunks));
      && record.Keys == Names(pairs)
      && (forall i :: LastOfName(pairs, i) ==> record[pairs[i].0] == Text(pairs[i].1))
      && FormShaped(record)
  {
    var body := ReadBody(chunks);
    record := FromEntries(decode(body));
    FromEntriesSpec(decode(body));
  }

  /** The record `parseToolForm` builds from the decoded pairs: last value wins, except that
      `Categories` is the list of all its values. */
  function ToolFormRecord(pairs: seq<Pair>): (toolData: Record)
    ensures FormShaped(toolData)
  {
    FromEntriesKeys(pairs);
    FromEntries(pairs)["Categories" := List(GetAll(pairs, "Categories"))]
  }

  /** `parseToolForm` keeps every submitted Categories value in order (none gives []); any other
      name keeps its last value; the keys are the submitted names plus Categories. */
  lemma ToolFormRecordSpec(pairs: seq<Pair>)
    ensures ToolFormRecord(pairs).Keys == Names(pairs) + {"Categories"}
    ensures ToolFormRecord(pairs)["Categories"] == List(GetAll(pairs, "Categories"))
    ensures forall v :: v in ToolFormRecord(pairs)["Categories"].items <==> ("Categories", v) in pairs
    ensures forall i :: LastOfName(pairs, i) && pairs[i].0 != "Categories" ==>
      ToolFormRecord(pairs)[pairs[i].0] == Text(pairs[i].1)
  {
    FromEntriesSpec(pairs);
    GetAllMembers(pairs, "Categories");
  }

  /** `parseToolForm`: reads the body, builds the record and then sets `Categories`. */
  method ParseToolForm(chunks: seq<string>, decode: string -> seq<Pair>) returns (toolData: Record)
    ensures toolData == ToolFormRecord(decode(Strings.Concat(chunks)))
  {
    var body := ReadBody(chunks);
    var params := decode(body);
    toolData := FromEntries(params);
    toolData := toolData["Categories" := List(GetAll(params, "Categories"))];
  }

  /** Pricing and Articles are checkbox groups too, but `parseToolForm` keeps only their last
      checked value: two checked pricing options arrive as the second alone. */
  lemma PricingKeepsLastOnly()
    ensures ToolFormRecord([("Pricing", "Free"), ("Pricing", "Paid")])["Pricing"] == Text("Paid")
  {
    var pairs := [("Pricing", "Free"), ("Pricing", "Paid")];
    assert pairs[..1] == [("Pricing", "Free")];
    assert pairs[..1][..0] == [];
  }

  /** The multi-value checkbox groups of the tool form. */
  const MultiValued: set<string> := {"Categories", "Pricing", "Articles"}

  /** The tool-form record with every checkbox group collected, as `Categories` already is. */
  function ToolFormRecordAll(pairs: seq<Pair>): (toolData: Record)
    ensures FormShaped(toolData)
  {
    FromEntriesKeys(pairs);
    FromEntries(pairs)["Categories" := List(GetAll(pairs, "Categories"))]
      ["Pricing" := List(GetAll(pairs, "Pricing"))]["Articles" := List(GetAll(pairs, "Articles"))]
  }

  /** Every checked value of every group is kept, in submission order (`GetAll`); single-value
      fields keep their last value as before. */
  lemma ToolFormRecordAllSpec(pairs: seq<Pair>)
    ensures ToolFormRecordAll(pairs).Keys == Names(pairs) + MultiValued
    ensures forall g :: g in MultiValued ==> ToolFormRecordAll(pairs)[g] == List(GetAll(pairs, g))
    ensures forall g, v :: g in MultiValued ==>
      ToolFormRecordAll(pairs)[g].List? && (v in ToolFormRecordAll(pairs)[g].items <==> (g, v) in pairs)
    ensures forall i :: LastOfName(pairs, i) && pairs[i].0 !in MultiValued ==>
      ToolFormRecordAll(pairs)[pairs[i].0] == Text(pairs[i].1)
  {
    FromEntriesSpec(pairs);
    GetAllMembers(pairs, "Categories");
    GetAllMembers(pairs, "Pricing");
    GetAllMembers(pairs, "Articles");
  }

  /** `prepareArticleData`: the form with `Published` set to whether the checkbox was "on". */
  function PrepareArticleData(formData: Record): (articleData: Record)
    ensures articleData.Keys == formData.Keys + {"Published"}
    ensures articleData["Published"] == Flag(Get(formData, "Published") == Some(Text("on")))
    ensures "Published" !in formData ==> articleData["Published"] == Flag(false)
    ensures forall k :: k in formData && k != "Published" ==> articleData[k] == formData[k]
  {
    formData["Published" := Flag(Get(formData, "Published") == Some(Text("on")))]
  }
}
