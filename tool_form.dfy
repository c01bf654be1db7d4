/** What the tool form shows before the user types: default texts, pre-checked boxes, the
    shortened article titles and the submit label. */
module ToolFormView {
  import opened Wrappers
  import opened Records
  import Strings

  /** `tool?.key`: `undefined` when there is no tool or it has no such field. */
  function Field(tool: Option<Record>, key: string): Option<FieldValue>
  {
    if tool.None? then None else Get(tool.value, key)
  }

  /** `tool?.key || ''`, the default of a single-line or free-text control. */
  function TextDefault(tool: Option<Record>, key: string): (r: string)
    ensures !Truthy(Field(tool, key)) ==> r == ""
    ensures Field(tool, key).Some? && Field(tool, key).value.Text? ==> r == Field(tool, key).value.s
    ensures Truthy(Field(tool, key)) ==> r == Display(Field(tool, key).value)
  {
    if Truthy(Field(tool, key)) then Display(Field(tool, key).value) else ""
  }

  /** `Array.isArray(tool?.key) ? tool.key.join(sep) : tool?.key || ''`. */
  function ListDefault(tool: Option<Record>, key: string, sep: string): (r: string)
    ensures Field(tool, key).Some? && Field(tool, key).value.List? ==>
      r == Strings.Join(Field(tool, key).value.items, sep)
    ensures Field(tool, key).Some? && Field(tool, key).value.Text? ==> r == Field(tool, key).value.s
    ensures Field(tool, key).None? ==> r == ""
  {
    var v := Field(tool, key);
    if v.Some? && v.value.List? then Strings.Join(v.value.items, sep) else TextDefault(tool, key)
  }

  /** One feature per line. */
  function FeaturesDefault(tool: Option<Record>): (r: string)
    ensures forall xs :: Field(tool, "Features") == Some(List(xs)) ==> r == Strings.Join(xs, "\n")
  {
    ListDefault(tool, "Features", "\n")
  }

  /** One caution per line. */
  function CautionsDefault(tool: Option<Record>): (r: string)
    ensures forall xs :: Field(tool, "Cautions") == Some(List(xs)) ==> r == Strings.Join(xs, "\n")
  {
    ListDefault(tool, "Cautions", "\n")
  }

  /** Tags separated by a comma and a space. */
  function TagsDefault(tool: Option<Record>): (r: string)
    ensures forall xs :: Field(tool, "Tags") == Some(List(xs)) ==> r == Strings.Join(xs, ", ")
  {
    ListDefault(tool, "Tags", ", ")
  }

  /** The lines of the Features or Cautions text are the stored entries, when no entry holds a line
      break. */
  lemma {:induction false} LinesRoundTrip(tool: Option<Record>, key: string, items: seq<string>)
    requires Field(tool, key) == Some(List(items))
    requires |items| >= 1 && forall k :: 0 <= k < |items| ==> '\n' !in items[k]
    ensures Strings.Split(ListDefault(tool, key, "\n"), '\n') == items
  {
    Strings.SplitJoin(items, '\n');
  }

  /** `v.includes(x)` for a stored field: membership for a list, substring for a string, `false`
      when absent (the `?.` stops); `None` is the TypeError a boolean field raises. */
  function Includes(v: Option<FieldValue>, x: string): (r: Option<bool>)
    ensures r.None? <==> v.Some? && v.value.Flag?
    ensures r == Some(true) <==>
      v.Some? && ((v.value.List? && x in v.value.items) || (v.value.Text? && Strings.Contains(v.value.s, x)))
  {
    match v
    case None => Some(false)
    case Some(List(items)) => Some(x in items)
    case Some(Text(s)) => Some(Strings.Contains(s, x))
    case Some(Flag(_)) => None
  }

  /** `tool?.Pricing?.includes(option)`: a stored list checks exactly its own options. */
  function PricingChecked(tool: Option<Record>, option: string): (r: Option<bool>)
    ensures Field(tool, "Pricing").None? ==> r == Some(false)
    ensures forall xs :: Field(tool, "Pricing") == Some(List(xs)) ==> r == Some(option in xs)
    ensures r.None? <==> Field(tool, "Pricing").Some? && Field(tool, "Pricing").value.Flag?
  {
    Includes(Field(tool, "Pricing"), option)
  }

  /** `tool?.Articles?.includes(article.id)`: a stored list checks exactly its own articles. */
  function ArticleChecked(tool: Option<Record>, articleId: string): (r: Option<bool>)
    ensures Field(tool, "Articles").None? ==> r == Some(false)
    ensures forall xs :: Field(tool, "Articles") == Some(List(xs)) ==> r == Some(articleId in xs)
    ensures r.None? <==> Field(tool, "Articles").Some? && Field(tool, "Articles").value.Flag?
  {
    Includes(Field(tool, "Articles"), articleId)
  }

  /** `tool?.Categories?.some(c => c === cat.id || c === cat.Name)`: only a list has `some`; a
      string or a boolean raises a TypeError (`None`). */
  function CategoryChecked(tool: Option<Record>, categoryId: string, categoryName: string): (r: Option<bool>)
    ensures Field(tool, "Categories").None? ==> r == Some(false)
    ensures r == Some(true) <==> exists items :: (Field(tool, "Categories") == Some(List(items))
      && (categoryId in items || categoryName in items))
    ensures r.None? <==> Field(tool, "Categories").Some? && !Field(tool, "Categories").value.List?
  {
    match Field(tool, "Categories")
    case None => Some(false)
    case Some(List(items)) => Some(categoryId in items || categoryName in items)
    case Some(_) => None
  }

  /** An article title longer than 25 characters is cut to 25 and marked with "...". */
  function ShortTitle(title: string): (shown: string)
    ensures |title| <= 25 ==> shown == title
    ensures |title| > 25 ==> shown == title[..25] + "..."
    ensures |shown| <= 28
    ensures Strings.StartsWith(shown, title[..if |title| <= 25 then |title| else 25])
  {
    if |title| > 25 then title[..25] + "..." else title
  }

  /** `!tool?.id`: the form creates a tool when there is none or it has no id. */
  predicate IsNew(tool: Option<Record>)
  {
    !Truthy(Field(tool, "id"))
  }

  /** The submit button's label. */
  function SubmitLabel(tool: Option<Record>): (caption: string)
    ensures caption == "Create Tool" <==> IsNew(tool)
    ensures caption == "Update Tool" <==> !IsNew(tool)
  {
    if IsNew(tool) then "Create Tool" else "Update Tool"
  }

  /** `tool?.Active || false` and `tool?.Featured || false` as `defaultChecked`: unchecked when
      absent, and following a stored boolean otherwise. */
  function BoxChecked(tool: Option<Record>, key: string): (checked: bool)
    ensures Field(tool, key).None? ==> !checked
    ensures forall b :: Field(tool, key) == Some(Flag(b)) ==> (checked <==> b)
    ensures checked <==> Truthy(Field(tool, key))
  {
    Field(tool, key).Some? && Truthy(Field(tool, key))
  }
}
