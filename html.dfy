/**
 * The HTML side of step 7: the patch applied to an existing file
 * (index.js:138), a string-pattern `replace` that rewrites only the first
 * `</head>`, and the page written when the file does not exist
 * (`createHtmlFile`, index.js:31-51).
 */
module Html {
  import opened Wrappers
  import opened Text
  import opened Names

  const HeadClose := "</head>"

  /** The stylesheet link both the patch and the template use; it points at the build output. */
  const LinkTag := "<link href=\"./" + OutputPath + "\" rel=\"stylesheet\">"

  /** What the patch puts in front of the first `</head>`. */
  const LinkLine := "  " + LinkTag + "\n"

  /** The replacement text of the `replace` call; it holds no `$`, so it is inserted literally. */
  const Replacement := LinkLine + HeadClose

  /**
   * `html.replace('</head>', Replacement)`: without `</head>` the text is
   * returned as it is; otherwise the link line is inserted right before the
   * first `</head>`, and everything from that `</head>` on is kept.
   */
  function Patch(html: string): (r: string)
    ensures Absent(html, HeadClose) ==> r == html
    ensures IndexOf(html, HeadClose).Some? ==>
      var i := IndexOf(html, HeadClose).value;
      r == html[..i] + LinkLine + html[i..]
  {
    match IndexOf(html, HeadClose)
    case None => html
    case Some(i) =>
      assert html[i..] == HeadClose + html[i + |HeadClose|..];
      html[..i] + Replacement + html[i + |HeadClose|..]
  }

  /**
   * Cut at its first `</head>`, a page `before + "</head>" + after` becomes
   * `before`, the link line, `"</head>"` and `after`: the text before and
   * after the first occurrence is unchanged, later `</head>`s included.
   */
  lemma PatchAtFirstHead(before: string, after: string)
    requires forall j | 0 <= j < |before| :: !OccursAt(before + HeadClose + after, HeadClose, j)
    ensures Patch(before + HeadClose + after) == before + LinkLine + HeadClose + after
  {
    var html := before + HeadClose + after;
    assert html[|before|..|before| + |HeadClose|] == HeadClose;
    IndexOfIsFirst(html, HeadClose, |before|);
    assert html[..|before|] == before;
    assert html[|before|..] == HeadClose + after;
  }

  /** The patch changes a page exactly when the page has a `</head>`. */
  lemma PatchChangesIffHead(html: string)
    ensures Patch(html) == html <==> Absent(html, HeadClose)
  {
    if !Absent(html, HeadClose) {
      var i := IndexOf(html, HeadClose).value;
      assert |Patch(html)| == |html| + |LinkLine|;
    }
  }

  /**
   * Nothing checks for a link already there: every patch of a page with a
   * `</head>` makes it longer by exactly the link line.
   */
  lemma PatchGrowsByLinkLine(html: string)
    requires !Absent(html, HeadClose)
    ensures |Patch(html)| == |html| + |LinkLine|
  {
  }

  /**
   * Patching twice inserts the link line twice, both right before the first
   * `</head>` of the original page.
   */
  lemma PatchTwiceAddsTwoLinks(html: string)
    requires !Absent(html, HeadClose)
    ensures var i := IndexOf(html, HeadClose).value;
      Patch(Patch(html)) == html[..i] + LinkLine + LinkLine + html[i..]
  {
    var i := IndexOf(html, HeadClose).value;
    var before, after := html[..i], html[i + |HeadClose|..];
    CutAtFirstHead(html, i);
    PatchAtFirstHead(before, after);
    AbsentBeforeFirst(html, HeadClose, i);
    PatchAgain(before, after);
  }

  /** A page with a `</head>` is the text before its first one, that `</head>`, and the rest. */
  lemma CutAtFirstHead(html: string, i: nat)
    requires IndexOf(html, HeadClose) == Some(i)
    ensures html[i..] == HeadClose + html[i + |HeadClose|..]
      && html == html[..i] + HeadClose + html[i + |HeadClose|..]
  {
    assert html[i..] == HeadClose + html[i + |HeadClose|..];
    assert html == html[..i] + html[i..];
  }

  /** Patching an already patched page puts a second link line right after the first. */
  lemma PatchAgain(before: string, after: string)
    requires Absent(before, HeadClose)
    ensures Patch(before + LinkLine + HeadClose + after) == before + LinkLine + LinkLine + HeadClose + after
  {
    LinkLineHasNoHead();
    AbsentConcat(before, LinkLine, HeadClose);
    NoneBefore(before + LinkLine, HeadClose + after, HeadClose);
    assert before + LinkLine + HeadClose + after == (before + LinkLine) + (HeadClose + after);
    PatchAtFirstHead(before + LinkLine, after);
  }

  /**
   * In a patched page the stylesheet link sits two spaces after where the
   * first `</head>` was, and the first `</head>` of the patched page follows
   * the link line.
   */
  lemma PatchedLinkBeforeHead(html: string)
    requires !Absent(html, HeadClose)
    ensures var i := IndexOf(html, HeadClose).value;
      && OccursAt(Patch(html), LinkTag, i + 2)
      && IndexOf(Patch(html), HeadClose) == Some(i + |LinkLine|)
  {
    var i := IndexOf(html, HeadClose).value;
    var before, after := html[..i], html[i + |HeadClose|..];
    CutAtFirstHead(html, i);
    PatchAtFirstHead(before, after);
    AbsentBeforeFirst(html, HeadClose, i);
    LinkInPatched(before, after);
    FirstHeadInPatched(before, after);
  }

  /** The page holds the stylesheet link, and the link ends before the page's first `</head>`. */
  predicate LinkedBeforeHead(page: string)
  {
    exists i | 0 <= i :: OccursAt(page, LinkTag, i) && IndexOf(page, HeadClose).Some?
      && i + |LinkTag| < IndexOf(page, HeadClose).value
  }

  /** A page with a `</head>` links the build output once patched. */
  lemma PatchLinksBeforeHead(html: string)
    requires !Absent(html, HeadClose)
    ensures LinkedBeforeHead(Patch(html))
  {
    PatchedLinkBeforeHead(html);
    var i := IndexOf(html, HeadClose).value;
    assert OccursAt(Patch(html), LinkTag, i + 2);
  }

  lemma LinkInPatched(before: string, after: string)
    ensures OccursAt(before + LinkLine + HeadClose + after, LinkTag, |before| + 2)
  {
    assert before + LinkLine + HeadClose + after == (before + "  ") + LinkTag + ("\n" + HeadClose + after);
    OccursBetween(before + "  ", LinkTag, "\n" + HeadClose + after);
  }

  lemma FirstHeadInPatched(before: string, after: string)
    requires Absent(before, HeadClose)
    ensures IndexOf(before + LinkLine + HeadClose + after, HeadClose) == Some(|before| + |LinkLine|)
  {
    LinkLineHasNoHead();
    AbsentConcat(before, LinkLine, HeadClose);
    NoneBefore(before + LinkLine, HeadClose + after, HeadClose);
    assert before + LinkLine + HeadClose + after == (before + LinkLine) + (HeadClose + after);
    OccursBetween(before + LinkLine, HeadClose, after);
    IndexOfIsFirst(before + LinkLine + HeadClose + after, HeadClose, |before| + |LinkLine|);
  }

  /** The link line holds no `</head>` (it has no `<` followed by `/`). */
  lemma LinkLineHasNoHead()
    ensures Absent(LinkLine, HeadClose)
  {
    AbsentByPair(LinkLine, "</");
    AbsentByPrefix(LinkLine, HeadClose, "</");
  }

  // ---- The page createHtmlFile writes (index.js:32-48) ----

  const Head1 := "\n<!DOCTYPE html>\n"
  const Head2 := "<html lang=\"en\">\n"
  const Head3 := "<head>\n"
  const Head4 := "    <meta charset=\"UTF-8\">\n"
  const Head5 := "    <meta name=\"viewport\" "
  const Head6 := "content=\"width=device-width, "
  const Head7 := "initial-scale=1.0\">\n"
  const Head8 := "    <title>Tailwind CSS Test</title>\n"
  const Body1 := "\n<body class=\"bg-gray-100\">\n"
  const Body2 := "    <div class=\"max-w-2xl "
  const Body3 := "mx-auto mt-10\">\n"
  const Body4 := "        <h1 class=\"text-3xl "
  const Body5 := "font-bold text-center "
  const Body6 := "text-blue-500\">Tailwind "
  const Body7 := "CSS is working!</h1>\n"
  const Body8 := "        <p class=\"text-center "
  const Body9 := "text-gray-600 mt-4\">"
  const Body10 := "This is a basic "
  const Body11 := "HTML template styled with Tailwind "
  const Body12 := "CSS.</p>\n"
  const Body13 := "    </div>\n</body>\n</html>\n    "

  /** The page up to the line with the link. */
  const TemplateHead := Head1 + Head2 + Head3 + Head4 + Head5 + Head6 + Head7 + Head8

  /** The page after its `</head>`: the demo body and the closing tags. */
  const TemplateBody := Body1 + Body2 + Body3 + Body4 + Body5 + Body6 + Body7 + Body8 + Body9 + Body10 + Body11 + Body12 + Body13

  /** The template's link line, indented by four spaces. */
  const TemplateLinkLine := "    " + LinkTag + "\n"

  /** The whole page, starting with a newline and ending with the four spaces before the closing backtick. */
  const Template := TemplateHead + TemplateLinkLine + HeadClose + TemplateBody

  /** Where the template's link and its `</head>` start. */
  const TemplateLinkAt := |TemplateHead| + 4
  const TemplateHeadAt := |TemplateHead| + |TemplateLinkLine|

  /**
   * The template has exactly one stylesheet link and exactly one `</head>`,
   * the link ends before the `</head>` starts, and that `</head>` is the
   * one the patch would look for.
   */
  lemma TemplateHasOneLinkBeforeHead()
    ensures forall j :: OccursAt(Template, LinkTag, j) <==> j == TemplateLinkAt
    ensures forall j :: OccursAt(Template, HeadClose, j) <==> j == TemplateHeadAt
    ensures TemplateLinkAt + |LinkTag| < TemplateHeadAt
    ensures IndexOf(Template, HeadClose) == Some(TemplateHeadAt)
  {
    HeadClosesOnce();
    LinkOnce();
    IndexOfIsFirst(Template, HeadClose, TemplateHeadAt);
  }

  /** The template links the build output before its `</head>`. */
  lemma TemplateLinksBeforeHead()
    ensures LinkedBeforeHead(Template)
  {
    TemplateHasOneLinkBeforeHead();
    assert OccursAt(Template, LinkTag, TemplateLinkAt);
  }

  lemma HeadClosesOnce()
    ensures forall j :: OccursAt(Template, HeadClose, j) <==> j == TemplateHeadAt
  {
    var p := "</he";
    HeadWithout(p);
    BodyWithout(p);
    AbsentByPair(TemplateLinkLine, "</");
    AbsentByPrefix(TemplateLinkLine, p, "</");
    AbsentConcat(TemplateHead, TemplateLinkLine, p);
    AbsentByPrefix(TemplateHead + TemplateLinkLine, HeadClose, p);
    AbsentByPrefix(TemplateBody, HeadClose, p);
    SoleOccurrence(TemplateHead + TemplateLinkLine, HeadClose, TemplateBody);
  }

  lemma LinkOnce()
    ensures forall j :: OccursAt(Template, LinkTag, j) <==> j == TemplateLinkAt
  {
    LinkTagStartsOnce();
    TextBeforeLinkWithout();
    TextAfterLinkWithout();
    Regroup(TemplateHead, "    ", LinkTag, "\n", HeadClose, TemplateBody);
    SoleOccurrence(TemplateHead + "    ", LinkTag, "\n" + HeadClose + TemplateBody);
  }

  lemma Regroup(h: string, indent: string, tag: string, nl: string, close: string, body: string)
    ensures h + (indent + tag + nl) + close + body == (h + indent) + tag + (nl + close + body)
  {
  }

  /** The link tag's `<` is its only one. */
  lemma LinkTagStartsOnce()
    ensures LinkTag != [] && forall k | 0 < k < |LinkTag| :: LinkTag[k] != LinkTag[0]
  {
    var x, y, z := "<link href=\"./", OutputPath, "\" rel=\"stylesheet\">";
    assert LinkTag == x + y + z;
    assert forall k | 0 < k < |x| :: x[k] != '<';
    assert forall k | 0 <= k < |y| :: y[k] != '<';
    assert forall k | 0 <= k < |z| :: z[k] != '<';
  }

  lemma TextBeforeLinkWithout()
    ensures Absent(TemplateHead + "    ", LinkTag)
  {
    HeadWithout("<l");
    AbsentByPair("    ", "<l");
    AbsentConcat(TemplateHead, "    ", "<l");
    AbsentByPrefix(TemplateHead + "    ", LinkTag, "<l");
  }

  lemma TextAfterLinkWithout()
    ensures Absent("\n" + HeadClose + TemplateBody, LinkTag)
  {
    BodyWithout("<l");
    AbsentByPair("\n" + HeadClose, "<l");
    AbsentConcat("\n" + HeadClose, TemplateBody, "<l");
    AbsentByPrefix("\n" + HeadClose + TemplateBody, LinkTag, "<l");
  }

  /** The template's head part has no `</he` and no `<l`: no piece has them, and no seam can cross them. */
  lemma HeadWithout(p: string)
    requires p == "</he" || p == "<l"
    ensures Absent(TemplateHead, p)
  {
    Head1Clean();
    Head2Clean();
    Head3Clean();
    Head4Clean();
    Head5Clean();
    Head6Clean();
    Head7Clean();
    Head8Clean();
    AbsentConcat(Head1, Head2, p);
    AbsentConcat(Head1 + Head2, Head3, p);
    AbsentConcat(Head1 + Head2 + Head3, Head4, p);
    AbsentConcat(Head1 + Head2 + Head3 + Head4, Head5, p);
    AbsentConcat(Head1 + Head2 + Head3 + Head4 + Head5, Head6, p);
    AbsentConcat(Head1 + Head2 + Head3 + Head4 + Head5 + Head6, Head7, p);
    AbsentConcat(Head1 + Head2 + Head3 + Head4 + Head5 + Head6 + Head7, Head8, p);
  }

  /** The template's body part has no `</he` and no `<l`: no piece has them, and no seam can cross them. */
  lemma BodyWithout(p: string)
    requires p == "</he" || p == "<l"
    ensures Absent(TemplateBody, p)
  {
    Body1Clean();
    Body2Clean();
    Body3Clean();
    Body4Clean();
    Body5Clean();
    Body6Clean();
    Body7Clean();
    Body8Clean();
    Body9Clean();
    Body10Clean();
    Body11Clean();
    Body12Clean();
    Body13Clean();
    AbsentConcat(Body1, Body2, p);
    AbsentConcat(Body1 + Body2, Body3, p);
    AbsentConcat(Body1 + Body2 + Body3, Body4, p);
    AbsentConcat(Body1 + Body2 + Body3 + Body4, Body5, p);
    AbsentConcat(Body1 + Body2 + Body3 + Body4 + Body5, Body6, p);
    AbsentConcat(Body1 + Body2 + Body3 + Body4 + Body5 + Body6, Body7, p);
    AbsentConcat(Body1 + Body2 + Body3 + Body4 + Body5 + Body6 + Body7, Body8, p);
    AbsentConcat(Body1 + Body2 + Body3 + Body4 + Body5 + Body6 + Body7 + Body8, Body9, p);
    AbsentConcat(Body1 + Body2 + Body3 + Body4 + Body5 + Body6 + Body7 + Body8 + Body9, Body10, p);
    AbsentConcat(Body1 + Body2 + Body3 + Body4 + Body5 + Body6 + Body7 + Body8 + Body9 + Body10, Body11, p);
    AbsentConcat(Body1 + Body2 + Body3 + Body4 + Body5 + Body6 + Body7 + Body8 + Body9 + Body10 + Body11, Body12, p);
    AbsentConcat(Body1 + Body2 + Body3 + Body4 + Body5 + Body6 + Body7 + Body8 + Body9 + Body10 + Body11 + Body12, Body13, p);
  }

  // Each piece of the template, checked character by character.

  lemma Head1Clean() ensures Absent(Head1, "</he") && Absent(Head1, "<l") { AbsentByQuad(Head1, "</he"); AbsentByPair(Head1, "<l"); }
  lemma Head2Clean() ensures Absent(Head2, "</he") && Absent(Head2, "<l") { AbsentByQuad(Head2, "</he"); AbsentByPair(Head2, "<l"); }
  lemma Head3Clean() ensures Absent(Head3, "</he") && Absent(Head3, "<l") { AbsentByQuad(Head3, "</he"); AbsentByPair(Head3, "<l"); }
  lemma Head4Clean() ensures Absent(Head4, "</he") && Absent(Head4, "<l") { AbsentByQuad(Head4, "</he"); AbsentByPair(Head4, "<l"); }
  lemma Head5Clean() ensures Absent(Head5, "</he") && Absent(Head5, "<l") { AbsentByQuad(Head5, "</he"); AbsentByPair(Head5, "<l"); }
  lemma Head6Clean() ensures Absent(Head6, "</he") && Absent(Head6, "<l") { AbsentByQuad(Head6, "</he"); AbsentByPair(Head6, "<l"); }
  lemma Head7Clean() ensures Absent(Head7, "</he") && Absent(Head7, "<l") { AbsentByQuad(Head7, "</he"); AbsentByPair(Head7, "<l"); }
  lemma Head8Clean() ensures Absent(Head8, "</he") && Absent(Head8, "<l") { AbsentByQuad(Head8, "</he"); AbsentByPair(Head8, "<l"); }
  lemma Body1Clean() ensures Absent(Body1, "</he") && Absent(Body1, "<l") { AbsentByQuad(Body1, "</he"); AbsentByPair(Body1, "<l"); }
  lemma Body2Clean() ensures Absent(Body2, "</he") && Absent(Body2, "<l") { AbsentByQuad(Body2, "</he"); AbsentByPair(Body2, "<l"); }
  lemma Body3Clean() ensures Absent(Body3, "</he") && Absent(Body3, "<l") { AbsentByQuad(Body3, "</he"); AbsentByPair(Body3, "<l"); }
  lemma Body4Clean() ensures Absent(Body4, "</he") && Absent(Body4, "<l") { AbsentByQuad(Body4, "</he"); AbsentByPair(Body4, "<l"); }
  lemma Body5Clean() ensures Absent(Body5, "</he") && Absent(Body5, "<l") { AbsentByQuad(Body5, "</he"); AbsentByPair(Body5, "<l"); }
  lemma Body6Clean() ensures Absent(Body6, "</he") && Absent(Body6, "<l") { AbsentByQuad(Body6, "</he"); AbsentByPair(Body6, "<l"); }
  lemma Body7Clean() ensures Absent(Body7, "</he") && Absent(Body7, "<l") { AbsentByQuad(Body7, "</he"); AbsentByPair(Body7, "<l"); }
  lemma Body8Clean() ensures Absent(Body8, "</he") && Absent(Body8, "<l") { AbsentByQuad(Body8, "</he"); AbsentByPair(Body8, "<l"); }
  lemma Body9Clean() ensures Absent(Body9, "</he") && Absent(Body9, "<l") { AbsentByQuad(Body9, "</he"); AbsentByPair(Body9, "<l"); }
  lemma Body10Clean() ensures Absent(Body10, "</he") && Absent(Body10, "<l") { AbsentByQuad(Body10, "</he"); AbsentByPair(Body10, "<l"); }
  lemma Body11Clean() ensures Absent(Body11, "</he") && Absent(Body11, "<l") { AbsentByQuad(Body11, "</he"); AbsentByPair(Body11, "<l"); }
  lemma Body12Clean() ensures Absent(Body12, "</he") && Absent(Body12, "<l") { AbsentByQuad(Body12, "</he"); AbsentByPair(Body12, "<l"); }
  lemma Body13Clean() ensures Absent(Body13, "</he") && Absent(Body13, "<l") { AbsentByQuad(Body13, "</he"); AbsentByPair(Body13, "<l"); }
}
