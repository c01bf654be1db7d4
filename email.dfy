/** The image-ideas email: whether mail is configured, and the subject, HTML body and console lines
    built from an article title and its ordered image ideas. */
module Email {
  import opened Wrappers
  import Strings

  /** The three environment variables (`None` when unset). */
  datatype EmailConfig = EmailConfig(gmailUser: Option<string>, gmailPass: Option<string>, gmailTo: Option<string>)

  /** A variable counts as set when it is present and not empty. */
  predicate IsSet(v: Option<string>)
  {
    v.Some? && v.value != ""
  }

  /** `GMAIL_USER && GMAIL_PASS && EMAIL_TO`; the transporter exists exactly when this holds. */
  function IsEmailConfigured(config: EmailConfig): (enabled: bool)
    ensures enabled <==> IsSet(config.gmailUser) && IsSet(config.gmailPass) && IsSet(config.gmailTo)
    ensures !IsSet(config.gmailUser) ==> !enabled
  {
    match config.gmailUser
    case None => false
    case Some(user) =>
      user != "" && config.gmailPass.Some? && config.gmailPass.value != ""
      && config.gmailTo.Some? && config.gmailTo.value != ""
  }

  // --- Subject ---

  const SubjectHead := "Image Ideas for Article: \""

  /** The subject names the title in double quotes after a fixed lead. */
  function Subject(articleTitle: string): (subject: string)
    ensures Strings.StartsWith(subject, SubjectHead)
    ensures |subject| == |SubjectHead| + |articleTitle| + 1
    ensures subject[|SubjectHead|..|subject| - 1] == articleTitle
    ensures subject[|subject| - 1] == '"'
  {
    var subject := SubjectHead + articleTitle + "\"";
    assert subject[..|SubjectHead|] == SubjectHead;
    assert subject[|SubjectHead|..|subject| - 1] == articleTitle;
    subject
  }

  /** Distinct titles give distinct subjects: the title can be read back from the subject. */
  lemma SubjectInjective(a: string, b: string)
    requires Subject(a) == Subject(b)
    ensures a == b
  {
    var s := Subject(a);
    assert a == s[|SubjectHead|..|s| - 1];
  }

  // --- HTML body ---

  /** One idea as a list item, inserted without escaping. */
  function Item(idea: string): (item: string)
    ensures Strings.Contains(item, idea)
    ensures |item| == |idea| + 9
  {
    Strings.ContainsInfix("<li>", idea, "</li>");
    "<li>" + idea + "</li>"
  }

  /** `imageIdeas.map(idea => `<li>${idea}</li>`).join('')`. */
  function ListItems(ideas: seq<string>): string
  {
    if ideas == [] then "" else Item(ideas[0]) + ListItems(ideas[1..])
  }

  /** The items of two lists of ideas follow one another. */
  lemma {:induction false} ListItemsAppend(a: seq<string>, b: seq<string>)
    ensures ListItems(a + b) == ListItems(a) + ListItems(b)
    decreases |a|
  {
    if a == [] {
      assert a + b == b;
    } else {
      assert (a + b)[1..] == a[1..] + b;
      ListItemsAppend(a[1..], b);
    }
  }

  /** Each idea's item sits between the items of the ideas before it and those after it, so the
      items keep the order of the ideas. */
  lemma {:induction false} ListItemsAt(ideas: seq<string>, k: nat)
    requires k < |ideas|
    ensures ListItems(ideas) == ListItems(ideas[..k]) + Item(ideas[k]) + ListItems(ideas[k + 1..])
  {
    var from := ideas[k..];
    assert ListItems(from) == Item(ideas[k]) + ListItems(ideas[k + 1..]) by {
      assert from[0] == ideas[k] && from[1..] == ideas[k + 1..];
    }
    assert ideas == ideas[..k] + from;
    ListItemsAppend(ideas[..k], from);
  }

  /** The number of characters the items take: nine per idea plus the ideas themselves, so no
      separator is added between items. */
  function TotalLength(ideas: seq<string>): nat
  {
    if ideas == [] then 0 else |ideas[0]| + TotalLength(ideas[1..])
  }

  lemma {:induction false} ListItemsLength(ideas: seq<string>)
    ensures |ListItems(ideas)| == TotalLength(ideas) + 9 * |ideas|
    decreases |ideas|
  {
    if ideas != [] {
      ListItemsLength(ideas[1..]);
    }
  }

  const HeadingOpen := "<h1>Image Ideas for \""
  const Intro := "\"</h1><p>Here are the AI-generated image ideas:</p><ul>"

  /** The fixed heading naming the title, the intro line, and the list of ideas. */
  function HtmlBody(articleTitle: string, ideas: seq<string>): (html: string)
    ensures Strings.StartsWith(html, HeadingOpen)
    ensures Strings.Contains(html, articleTitle)
  {
    Strings.ContainsInfix(HeadingOpen, articleTitle, Intro + ListItems(ideas) + "</ul>");
    var html := HeadingOpen + articleTitle + Intro + ListItems(ideas) + "</ul>";
    assert html == HeadingOpen + articleTitle + (Intro + ListItems(ideas) + "</ul>");
    assert html[..|HeadingOpen|] == HeadingOpen;
    html
  }

  /** Every idea appears in the body, verbatim, as its own list item. */
  lemma HtmlBodyListsEachIdea(articleTitle: string, ideas: seq<string>, k: nat)
    requires k < |ideas|
    ensures Strings.Contains(HtmlBody(articleTitle, ideas), Item(ideas[k]))
  {
    var before := HeadingOpen + articleTitle + Intro + ListItems(ideas[..k]);
    var after := ListItems(ideas[k + 1..]) + "</ul>";
    ListItemsAt(ideas, k);
    assert HtmlBody(articleTitle, ideas) == before + Item(ideas[k]) + after;
    Strings.ContainsInfix(before, Item(ideas[k]), after);
  }

  // --- Console lines when mail is disabled ---

  const DisabledNotice := "Email sending is disabled. Would have sent the following image ideas for article: "

  /** The first console line: the notice and the quoted title, joined by `console.log`'s space. */
  function NoticeLine(articleTitle: string): (line: string)
    ensures Strings.StartsWith(line, DisabledNotice)
    ensures Strings.Contains(line, articleTitle)
  {
    Strings.ContainsInfix(DisabledNotice + "\"", articleTitle, "\"");
    var line := DisabledNotice + "\"" + articleTitle + "\"";
    assert line[..|DisabledNotice|] == DisabledNotice;
    line
  }

  /** `imageIdeas.map(idea => `- ${idea}`)`. */
  function Bullets(ideas: seq<string>): (lines: seq<string>)
    ensures |lines| == |ideas|
    ensures forall k :: 0 <= k < |ideas| ==> lines[k] == "- " + ideas[k]
  {
    seq(|ideas|, k requires 0 <= k < |ideas| => "- " + ideas[k])
  }

  /** The second console line: the bullets joined with newlines. */
  function LogText(ideas: seq<string>): string
  {
    Strings.Join(Bullets(ideas), "\n")
  }

  /** When no idea holds a newline, the logged text splits back into one bullet per idea, in order,
      and dropping each bullet's "- " gives back the ideas. */
  lemma LogTextRoundTrip(ideas: seq<string>)
    requires ideas != []
    requires forall k :: 0 <= k < |ideas| ==> '\n' !in ideas[k]
    ensures var lines := Strings.Split(LogText(ideas), '\n');
      && |lines| == |ideas|
      && forall k :: 0 <= k < |ideas| ==> lines[k] == "- " + ideas[k] && lines[k][2..] == ideas[k]
  {
    var bullets := Bullets(ideas);
    forall k | 0 <= k < |bullets|
      ensures '\n' !in bullets[k]
    {
      assert bullets[k] == "- " + ideas[k];
    }
    assert "\n" == ['\n'];
    Strings.SplitJoin(bullets, '\n');
  }

  // --- Sending ---

  /** What `sendImageIdeasEmail` does: two console lines, or one message through the transporter. */
  datatype Delivery =
    | Logged(lines: seq<string>)
    | Mail(from: string, to: string, subject: string, html: string)

  /** The sender as the mail header writes it, with the display name and the authenticated user. */
  function Sender(user: string): (from: string)
    ensures Strings.Contains(from, user)
  {
    Strings.ContainsInfix("\"AI Content Admin\" <", user, ">");
    "\"AI Content Admin\" <" + user + ">"
  }

  /** What `sendImageIdeasEmail(articleTitle, imageIdeas)` produces: with no transporter the two
      console lines, otherwise the message handed to `sendMail`. */
  function Compose(config: EmailConfig, articleTitle: string, ideas: seq<string>): (d: Delivery)
    ensures d.Mail? <==> IsEmailConfigured(config)
    ensures d.Logged? ==> d.lines == [NoticeLine(articleTitle), LogText(ideas)]
    // The sender is GMAIL_USER and the recipient GMAIL_TO.
    ensures d.Mail? ==> && d.from == Sender(config.gmailUser.value) && d.to == config.gmailTo.value
                        && d.subject == Subject(articleTitle) && d.html == HtmlBody(articleTitle, ideas)
  {
    if !IsEmailConfigured(config) then Logged([NoticeLine(articleTitle), LogText(ideas)])
    else Mail(Sender(config.gmailUser.value), config.gmailTo.value, Subject(articleTitle), HtmlBody(articleTitle, ideas))
  }

  /** `sendImageIdeasEmail(articleTitle, imageIdeas)`, with `transporter.sendMail` as `sendMail`:
      logging always succeeds, and the awaited `sendMail` is not caught, so its rejection is the
      call's own. */
  function SendImageIdeasEmail(config: EmailConfig, articleTitle: string, ideas: seq<string>,
    sendMail: Delivery -> Result<()>): (r: Result<Delivery>)
    ensures r.Ok? ==> r.value == Compose(config, articleTitle, ideas)
    ensures !IsEmailConfigured(config) ==> r.Ok?
    ensures IsEmailConfigured(config) ==> (r.Err? <==> sendMail(Compose(config, articleTitle, ideas)).Err?)
    ensures r.Err? ==> r.message == sendMail(Compose(config, articleTitle, ideas)).message
  {
    var d := Compose(config, articleTitle, ideas);
    if d.Logged? then Ok(d)
    else
      match sendMail(d)
      case Ok(_) => Ok(d)
      case Err(m) => Err(m)
  }

  /** Mail needs all three variables: with any of them unset or empty the ideas are only logged,
      and the transport is never reached. */
  lemma UnsetVariableOnlyLogs(config: EmailConfig, articleTitle: string, ideas: seq<string>,
    sendMail: Delivery -> Result<()>)
    requires !IsSet(config.gmailUser) || !IsSet(config.gmailPass) || !IsSet(config.gmailTo)
    ensures SendImageIdeasEmail(config, articleTitle, ideas, sendMail)
      == Ok(Logged([NoticeLine(articleTitle), LogText(ideas)]))
  {
  }
}
