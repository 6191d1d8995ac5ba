/**
 * `EmailProcessing` (core/email_processing.py): turning an HTML body into
 * plain text, and handing the result to the normalizer.
 */
module EmailProcessing {
  import opened Wrappers
  import opened Text
  import opened EmailNormalizer

  // ---------------------------------------------------------------------
  // Tag removal: `re.sub(r'<[^>]+>', '', s)`

  /** The first position of `c` in `s`. */
  function IndexOf(s: string, c: char): (r: Option<nat>)
    ensures r.Some? ==> r.value < |s| && s[r.value] == c && forall k :: 0 <= k < r.value ==> s[k] != c
    ensures r.None? <==> c !in s
  {
    if s == [] then None
    else if s[0] == c then Some(0)
    else match IndexOf(s[1..], c)
      case Some(j) => Some(j + 1)
      case None => None
  }

  /**
   * Where a match of `<[^>]+>` starting at the front of `s` ends: at a `<`,
   * the greedy `[^>]+` runs to just before the first later `>`, and the
   * match needs at least one character between the two. None when no match
   * starts there: not a `<`, a `<` directly followed by `>`, or a `<` with
   * no `>` after it.
   */
  function TagAt(s: string): (r: Option<nat>)
    requires |s| > 0
    ensures r.Some? ==> 3 <= r.value <= |s| && s[0] == '<' && s[r.value - 1] == '>'
                        && forall k :: 1 <= k < r.value - 1 ==> s[k] != '>'
    ensures r.None? <==> s[0] != '<' || (|s| > 1 && s[1] == '>') || '>' !in s[1..]
  {
    if s[0] != '<' then None
    else match IndexOf(s[1..], '>')
      case Some(j) => if j >= 1 then Some(j + 2) else None
      case None => None
  }

  /** `re.sub(r'<[^>]+>', '', s)`: matches scanned left to right and removed. */
  function StripTags(s: string): (r: string)
    ensures |r| <= |s|
    ensures '>' !in s ==> r == s
    ensures '<' !in s ==> r == s
    ensures |s| > 0 && s[0] == '>' ==> |r| > 0 && r[0] == '>'
    decreases |s|
  {
    if s == [] then []
    else match TagAt(s)
      case Some(e) => StripTags(s[e..])
      case None => [s[0]] + StripTags(s[1..])
  }

  /** No substring of `s` matches `<[^>]+>`: every `<` is followed directly by `>` or by no `>` at all. */
  predicate NoTag(s: string) {
    forall i :: 0 <= i < |s| && s[i] == '<' ==> (i + 1 < |s| && s[i + 1] == '>') || '>' !in s[i + 1..]
  }

  lemma NoTagCons(c: char, s: string)
    requires NoTag(s)
    requires c == '<' ==> (|s| > 0 && s[0] == '>') || '>' !in s
    ensures NoTag([c] + s)
  {
    var t := [c] + s;
    forall i | 0 <= i < |t| && t[i] == '<'
      ensures (i + 1 < |t| && t[i + 1] == '>') || '>' !in t[i + 1..]
    {
      if i > 0 {
        assert t[i] == s[i - 1] && t[i + 1..] == s[i..];
      } else {
        assert t[1..] == s;
      }
    }
  }

  lemma NoTagTail(s: string)
    requires |s| > 0 && NoTag(s)
    ensures NoTag(s[1..])
  {
    var t := s[1..];
    forall i | 0 <= i < |t| && t[i] == '<'
      ensures (i + 1 < |t| && t[i + 1] == '>') || '>' !in t[i + 1..]
    {
      assert s[i + 1] == t[i] && s[i + 2..] == t[i + 1..];
    }
  }

  /** After tag removal no tag is left. */
  lemma {:induction false} StripTagsLeavesNoTag(s: string)
    ensures NoTag(StripTags(s))
    decreases |s|
  {
    if s != [] {
      match TagAt(s)
      case Some(e) =>
        StripTagsLeavesNoTag(s[e..]);
      case None =>
        StripTagsLeavesNoTag(s[1..]);
        if s[0] == '<' && '>' in s[1..] {
          assert s[1..][0] == '>';
        }
        NoTagCons(s[0], StripTags(s[1..]));
    }
  }

  /** A text without tags is left as it is. */
  lemma {:induction false} StripTagsFixesNoTag(s: string)
    requires NoTag(s)
    ensures StripTags(s) == s
    decreases |s|
  {
    if s != [] {
      NoTagTail(s);
      StripTagsFixesNoTag(s[1..]);
      assert s[0 + 1..] == s[1..];
    }
  }

  /** Removing tags twice removes no more than removing them once. */
  lemma StripTagsIdempotent(s: string)
    ensures StripTags(StripTags(s)) == StripTags(s)
  {
    StripTagsLeavesNoTag(s);
    StripTagsFixesNoTag(StripTags(s));
  }

  /** Text before the first `<` is kept as it is: tag removal works on the rest. */
  lemma {:induction false} StripTagsKeepsPlainPrefix(a: string, b: string)
    requires '<' !in a
    ensures StripTags(a + b) == a + StripTags(b)
    decreases |a|
  {
    if a != [] {
      var s := a + b;
      assert s[0] == a[0];
      assert TagAt(s).None?;
      assert s[1..] == a[1..] + b;
      StripTagsKeepsPlainPrefix(a[1..], b);
      assert a == [a[0]] + a[1..];
    } else {
      assert a + b == b;
    }
  }

  /** A leading tag `<t>` with a non-empty name is removed whole, up to its first `>`. */
  lemma StripTagsRemovesTag(t: string, b: string)
    requires |t| > 0 && '>' !in t
    ensures StripTags("<" + t + ">" + b) == StripTags(b)
  {
    var s := "<" + t + ">" + b;
    assert s[1..] == t + ">" + b;
    var i := IndexOf(s[1..], '>');
    assert s[1..][|t|] == '>';
    assert i.Some?;
    assert i.value == |t|;
    assert TagAt(s) == Some(|t| + 2);
    assert s[|t| + 2..] == b;
  }

  // ---------------------------------------------------------------------
  // Entity decoding

  /** An entity and the text it stands for. */
  datatype Entity = Entity(name: string, text: string)

  /** The entities `extract_plain_text_from_html` decodes, in the order it decodes them. */
  const HtmlEntities: seq<Entity> := [
    Entity("&nbsp;", " "),
    Entity("&amp;", "&"),
    Entity("&lt;", "<"),
    Entity("&gt;", ">"),
    Entity("&quot;", "\""),
    Entity("&#39;", "'"),
    Entity("&apos;", "'")
  ]

  /** Every entity name is non-empty and starts with `&`. */
  predicate WellFormedEntities(table: seq<Entity>) {
    forall i :: 0 <= i < |table| ==> |table[i].name| > 0 && table[i].name[0] == '&'
  }

  lemma HtmlEntitiesWellFormed()
    ensures WellFormedEntities(HtmlEntities)
  {
  }

  /** Replacing every entity of `table`, one after another, each over the whole text. */
  function DecodeWith(s: string, table: seq<Entity>): string
    requires WellFormedEntities(table)
    decreases |table|
  {
    if table == [] then s
    else DecodeWith(ReplaceAll(s, table[0].name, table[0].text), table[1..])
  }

  function DecodeEntities(s: string): string {
    HtmlEntitiesWellFormed();
    DecodeWith(s, HtmlEntities)
  }

  /** A pattern that starts with `&` does not occur in a text without `&`. */
  lemma AmpersandFree(p: string, s: string)
    requires |p| > 0 && p[0] == '&' && '&' !in s
    ensures !IsSubstring(p, s)
  {
  }

  /** Decoding a text without `&` changes nothing. */
  lemma {:induction false} DecodeWithoutAmpersand(s: string, table: seq<Entity>)
    requires WellFormedEntities(table) && '&' !in s
    ensures DecodeWith(s, table) == s
    decreases |table|
  {
    if table != [] {
      AmpersandFree(table[0].name, s);
      ReplaceAbsent(s, table[0].name, table[0].text);
      DecodeWithoutAmpersand(s, table[1..]);
    }
  }

  /** The loop of `extract_plain_text_from_html` over an entity table. */
  method DecodeLoop(s: string, table: seq<Entity>) returns (text: string)
    requires WellFormedEntities(table)
    ensures text == DecodeWith(s, table)
  {
    text := s;
    var k := 0;
    while k < |table|
      invariant 0 <= k <= |table|
      invariant DecodeWith(text, table[k..]) == DecodeWith(s, table)
    {
      assert table[k..][1..] == table[k + 1..];
      text := ReplaceAll(text, table[k].name, table[k].text);
      k := k + 1;
    }
  }

  // ---------------------------------------------------------------------
  // extract_plain_text_from_html

  /** The plain text of an HTML body: tags removed, entities decoded, whitespace standardized. */
  function PlainText(html: string): (r: string)
    ensures WhitespaceNormal(r)
    ensures html == [] ==> r == []
  {
    if html == [] then [] else Standardize(DecodeEntities(StripTags(html)))
  }

  /** `extract_plain_text_from_html`. */
  method ExtractPlainTextFromHtml(html: string) returns (text: string)
    ensures text == PlainText(html)
  {
    if html == [] {
      return [];
    }
    text := StripTags(html);
    HtmlEntitiesWellFormed();
    text := DecodeLoop(text, HtmlEntities);
    text := Standardize(text);
  }

  /** Text without markup and entities only has its whitespace standardized. */
  lemma PlainTextOfPlainText(s: string)
    requires '<' !in s && '&' !in s
    ensures PlainText(s) == Standardize(s)
  {
    if s != [] {
      HtmlEntitiesWellFormed();
      DecodeWithoutAmpersand(s, HtmlEntities);
    }
  }

  lemma DecodeStep(s: string, table: seq<Entity>, k: nat)
    requires WellFormedEntities(table) && k < |table|
    ensures WellFormedEntities(table[k..]) && WellFormedEntities(table[k + 1..])
    ensures DecodeWith(s, table[k..]) == DecodeWith(ReplaceAll(s, table[k].name, table[k].text), table[k + 1..])
  {
    assert table[k..][1..] == table[k + 1..];
  }

  lemma EscapedStep0() ensures ReplaceAll("&lt;b&gt;", "&nbsp;", " ") == "&lt;b&gt;" {
    MissingCharAbsent("&nbsp;", "&lt;b&gt;", 'n');
    ReplaceAbsent("&lt;b&gt;", "&nbsp;", " ");
  }
  lemma EscapedStep1() ensures ReplaceAll("&lt;b&gt;", "&amp;", "&") == "&lt;b&gt;" {
    MissingCharAbsent("&amp;", "&lt;b&gt;", 'a');
    ReplaceAbsent("&lt;b&gt;", "&amp;", "&");
  }
  lemma EscapedStep2() ensures ReplaceAll("&lt;b&gt;", "&lt;", "<") == "<b&gt;" {
    var s := "&lt;b&gt;";
    assert s[..4] == "&lt;" && s[4..] == "b&gt;";
    var t := "b&gt;";
    assert t[..4] != "&lt;" by { assert t[..4][0] == 'b'; }
    assert t[1..] == "&gt;";
    assert "&gt;"[..4] != "&lt;" by { assert "&gt;"[..4][1] == 'g'; }
  }
  lemma EscapedStep3() ensures ReplaceAll("<b&gt;", "&gt;", ">") == "<b>" {}

  lemma DecodeEscapedTagHead()
    ensures WellFormedEntities(HtmlEntities[3..])
    ensures DecodeEntities("&lt;b&gt;") == DecodeWith("<b&gt;", HtmlEntities[3..])
  {
    var t := HtmlEntities;
    HtmlEntitiesWellFormed();
    EscapedStep0();
    EscapedStep1();
    EscapedStep2();
    assert t[0..] == t;
    assert t[0].name == "&nbsp;" && t[1].name == "&amp;" && t[2].name == "&lt;";
    assert t[0].text == " " && t[1].text == "&" && t[2].text == "<";
    DecodeStep("&lt;b&gt;", t, 0);
    DecodeStep("&lt;b&gt;", t, 1);
    DecodeStep("&lt;b&gt;", t, 2);
  }

  lemma DecodeEscapedTagTail()
    ensures WellFormedEntities(HtmlEntities[3..])
    ensures DecodeWith("<b&gt;", HtmlEntities[3..]) == "<b>"
  {
    var t := HtmlEntities;
    HtmlEntitiesWellFormed();
    EscapedStep3();
    assert t[3].name == "&gt;" && t[3].text == ">";
    DecodeStep("<b&gt;", t, 3);
    DecodeWithoutAmpersand("<b>", t[4..]);
  }

  /** A body without `<` whose decoded text is already standardized comes out as that decoded text. */
  lemma PlainTextWithoutTags(s: string)
    requires s != [] && '<' !in s && WhitespaceNormal(DecodeEntities(s))
    ensures PlainText(s) == DecodeEntities(s)
  {
    StandardizeFixesNormal(DecodeEntities(s));
  }

  /** Entities are decoded after tags are removed, so an escaped tag survives as a tag. */
  lemma EscapedTagSurvives()
    ensures PlainText("&lt;b&gt;") == "<b>"
  {
    DecodeEscapedTagHead();
    DecodeEscapedTagTail();
    EscapedTagShape();
    PlainTextWithoutTags("&lt;b&gt;");
  }

  lemma EscapedTagShape()
    ensures '<' !in "&lt;b&gt;" && WhitespaceNormal("<b>")
  {
    var s := "&lt;b&gt;";
    assert forall i :: 0 <= i < |s| ==> s[i] != '<';
    assert !IsSpace('<') && !IsSpace('b') && !IsSpace('>');
  }

  lemma DoubleStep0() ensures ReplaceAll("&amp;lt;", "&nbsp;", " ") == "&amp;lt;" {
    MissingCharAbsent("&nbsp;", "&amp;lt;", 'n');
    ReplaceAbsent("&amp;lt;", "&nbsp;", " ");
  }
  lemma DoubleStep1() ensures ReplaceAll("&amp;lt;", "&amp;", "&") == "&lt;" {
    var s := "&amp;lt;";
    assert s[..5] == "&amp;" && s[5..] == "lt;";
  }
  lemma DoubleStep2() ensures ReplaceAll("&lt;", "&lt;", "<") == "<" {
    var u := "&lt;";
    assert u[..4] == "&lt;" && u[4..] == "";
  }

  lemma DecodeDoubleEscapeHead()
    ensures WellFormedEntities(HtmlEntities[2..])
    ensures DecodeEntities("&amp;lt;") == DecodeWith("&lt;", HtmlEntities[2..])
  {
    var t := HtmlEntities;
    HtmlEntitiesWellFormed();
    DoubleStep0();
    DoubleStep1();
    assert t[0..] == t;
    assert t[0].name == "&nbsp;" && t[1].name == "&amp;";
    assert t[0].text == " " && t[1].text == "&";
    DecodeStep("&amp;lt;", t, 0);
    DecodeStep("&amp;lt;", t, 1);
  }

  lemma DecodeDoubleEscapeTail()
    ensures WellFormedEntities(HtmlEntities[2..])
    ensures DecodeWith("&lt;", HtmlEntities[2..]) == "<"
  {
    var t := HtmlEntities;
    HtmlEntitiesWellFormed();
    DoubleStep2();
    assert t[2].name == "&lt;" && t[2].text == "<";
    DecodeStep("&lt;", t, 2);
    DecodeWithoutAmpersand("<", t[3..]);
  }

  lemma DoubleEscapeShape()
    ensures '<' !in "&amp;lt;" && WhitespaceNormal("<")
  {
    var s := "&amp;lt;";
    assert forall i :: 0 <= i < |s| ==> s[i] != '<';
    assert !IsSpace('<');
  }

  /** `&amp;` is decoded before `&lt;`, so a doubly escaped `<` comes out as `<`. */
  lemma DoubleEscapeDecodedTwice()
    ensures PlainText("&amp;lt;") == "<"
  {
    DecodeDoubleEscapeHead();
    DecodeDoubleEscapeTail();
    DoubleEscapeShape();
    PlainTextWithoutTags("&amp;lt;");
  }
  // ---------------------------------------------------------------------
  // clean_email_body and process_email_body

  /** `clean_email_body`: an empty body stays empty; any other is replaced by the normalizer's final text. */
  function CleanEmailBody(body: string, st: Stages): (r: string)
    ensures WhitespaceNormal(r)
    ensures body == [] ==> r == []
    ensures body != [] ==> r == NormalizeEmailBody(body, st).textoNormalizado
  {
    if body == [] then [] else NormalizeEmailBody(body, st).textoNormalizado
  }

  /** `process_email_body`: an HTML body (the type compared case-insensitively) is first turned into plain text. */
  function ProcessEmailBody(content: string, bodyType: string, st: Stages): (r: string)
    ensures WhitespaceNormal(r)
    ensures content == [] ==> r == []
    ensures Lower(bodyType) == "html" ==> r == CleanEmailBody(PlainText(content), st)
    ensures Lower(bodyType) != "html" ==> r == CleanEmailBody(content, st)
  {
    var plain := if Lower(bodyType) == "html" then PlainText(content) else content;
    CleanEmailBody(plain, st)
  }

  /** The body type is compared case-insensitively: `"HTML"` is treated as `"html"`. */
  lemma BodyTypeIgnoresCase(content: string, st: Stages)
    ensures ProcessEmailBody(content, "HTML", st) == ProcessEmailBody(content, "html", st)
  {
    LowerHtml();
    SameLoweredType(content, "HTML", "html", st);
  }

  /** Only the lower-cased body type matters. */
  lemma SameLoweredType(content: string, t1: string, t2: string, st: Stages)
    requires Lower(t1) == Lower(t2)
    ensures ProcessEmailBody(content, t1, st) == ProcessEmailBody(content, t2, st)
  {
  }

  lemma LowerHtml()
    ensures Lower("HTML") == "html"
  {
    assert Lower("L") == "l" by { assert "L"[1..] == []; }
    assert Lower("ML") == "m" + Lower("L") by { assert "ML"[1..] == "L"; }
    assert Lower("TML") == "t" + Lower("ML") by { assert "TML"[1..] == "ML"; }
    assert Lower("HTML") == "h" + Lower("TML") by { assert "HTML"[1..] == "TML"; }
  }

  /**
   * On a body without markup, entities or irregular whitespace, the HTML
   * path and the plain-text path give the same result.
   */
  lemma PlainBodyEitherType(content: string, st: Stages)
    requires '<' !in content && '&' !in content && WhitespaceNormal(content)
    ensures ProcessEmailBody(content, "html", st) == ProcessEmailBody(content, "text", st)
  {
    assert Lower("html") == "html";
    assert Lower("text") != "html" by { assert Lower("text")[0] == 't'; }
    PlainTextOfPlainText(content);
    StandardizeFixesNormal(content);
  }
}
