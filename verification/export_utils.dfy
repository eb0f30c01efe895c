/**
 * The two exporters of src/utils/exportUtils.ts: a Markdown-like text file
 * and a stand-alone HTML page, both filled in from a generated content
 * record, the city, the state and the keyword list.  The text file is the
 * concatenation of a list of parts, and the page is a template whose fixed
 * text alternates with holes for the interpolated pieces, so that where a
 * piece lands in the output follows from its position.
 */
module Export {
  import opened Text
  import opened Model

  /** `keywords[0]` inside a template literal: the first keyword, or the text
      `undefined` when the list is empty. */
  function Primary(keywords: seq<string>): (r: string)
    ensures |keywords| > 0 ==> r == keywords[0]
    ensures keywords == [] ==> r == "undefined"
  {
    if |keywords| > 0 then keywords[0] else "undefined"
  }

  /** `keywords.join(', ')`. */
  function KeywordsText(keywords: seq<string>): string {
    Join(keywords, ", ")
  }

  /** The page title shared by both exporters. */
  function Title(keywords: seq<string>, city: string, state: string): (r: string)
    ensures StartsWith(r, Primary(keywords) + " Services in ")
    ensures EndsWith(r, city + ", " + state)
  {
    Primary(keywords) + " Services in " + city + ", " + state
  }

  // ---------------------------------------------------------------- text

  /** One question as a third-level heading, its answer on the next line. */
  function FaqItemText(item: FaqItem): (r: string)
    ensures StartsWith(r, "### " + item.question + "\n")
    ensures EndsWith(r, item.answer + "\n")
  {
    "### " + item.question + "\n" + item.answer + "\n"
  }

  function FaqTexts(faq: seq<FaqItem>): (r: seq<string>)
    ensures |r| == |faq|
    ensures forall i :: 0 <= i < |faq| ==> r[i] == FaqItemText(faq[i])
  {
    if faq == [] then [] else [FaqItemText(faq[0])] + FaqTexts(faq[1..])
  }

  /** The question-and-answer blocks, separated by an empty line. */
  function FaqText(faq: seq<FaqItem>): (r: string)
    ensures faq == [] ==> r == ""
    ensures |faq| == 1 ==> r == FaqItemText(faq[0])
  {
    Join(FaqTexts(faq), "\n")
  }

  function TextParts(c: Content, city: string, state: string, keywords: seq<string>): seq<string> {
    var kw := KeywordsText(keywords);
    [ "# " + Title(keywords, city, state) + "\n",
      "\n",
      "Keywords: " + kw + "\n",
      "\n## Introduction\n" + c.introduction + "\n",
      "\n## Why Choose Us\n" + c.whyUs + "\n",
      "\n## Things to Do in " + city + ", " + state + "\n" + c.thingsToDo + "\n",
      "\n## Frequently Asked Questions\n\n",
      FaqText(c.faq),
      "\n\n",
      ClosingLine(kw, city, state)
    ]
  }

  /** The call to action that closes the text file. */
  function ClosingLine(kw: string, city: string, state: string): (r: string)
    ensures StartsWith(r, "Ready to Get Started? ")
    ensures EndsWith(r, city + ", " + state + ".\n")
  {
    "Ready to Get Started? " + ("Contact us today to discuss your " + kw + " needs in "
    + city + ", " + state + ".\n")
  }

  /** `generateTextFile`: it opens with the title heading and ends with the
      call to action. */
  function TextFile(c: Content, city: string, state: string, keywords: seq<string>): (f: string)
    ensures StartsWith(f, "# " + Title(keywords, city, state) + "\n")
    ensures EndsWith(f, ClosingLine(KeywordsText(keywords), city, state))
  {
    var parts := TextParts(c, city, state, keywords);
    ConcatStartsWith(parts);
    ConcatEndsWith(parts);
    Concat(parts)
  }

  /** The text file lists the keywords and holds every section with its
      heading, the questions in the order of the list. */
  lemma TextFileLayout(c: Content, city: string, state: string, keywords: seq<string>)
    ensures Contains(TextFile(c, city, state, keywords), "Keywords: " + KeywordsText(keywords) + "\n")
    ensures Contains(TextFile(c, city, state, keywords), "\n## Introduction\n" + c.introduction + "\n")
    ensures Contains(TextFile(c, city, state, keywords), "\n## Why Choose Us\n" + c.whyUs + "\n")
    ensures Contains(TextFile(c, city, state, keywords),
                     "\n## Things to Do in " + city + ", " + state + "\n" + c.thingsToDo + "\n")
    ensures Contains(TextFile(c, city, state, keywords), FaqText(c.faq))
  {
    var parts := TextParts(c, city, state, keywords);
    ConcatContains(parts, 2);
    ConcatContains(parts, 3);
    ConcatContains(parts, 4);
    ConcatContains(parts, 5);
    ConcatContains(parts, 7);
  }

  /** Every question and its answer appear in the text file. */
  lemma TextFileHasFaq(c: Content, city: string, state: string, keywords: seq<string>, k: nat)
    requires k < |c.faq|
    ensures Contains(TextFile(c, city, state, keywords), FaqItemText(c.faq[k]))
  {
    var parts := TextParts(c, city, state, keywords);
    ConcatContains(parts, 7);
    JoinContains(FaqTexts(c.faq), "\n", k);
    ContainsTrans(TextFile(c, city, state, keywords), FaqText(c.faq), FaqItemText(c.faq[k]));
  }

  /** One more question adds an empty line and its block at the end, so the
      blocks keep the order of the list. */
  lemma FaqTextAppend(faq: seq<FaqItem>, item: FaqItem)
    requires faq != []
    ensures FaqText(faq + [item]) == FaqText(faq) + "\n" + FaqItemText(item)
  {
    assert FaqTexts(faq + [item]) == FaqTexts(faq) + [FaqItemText(item)];
    JoinAppend(FaqTexts(faq), FaqItemText(item), "\n");
  }

  // ---------------------------------------------------------------- HTML

  /** `introduction.substring(0, 155)`: at most the first 155 characters. */
  function Description(introduction: string): (r: string)
    ensures |r| <= 155
    ensures |introduction| <= 155 ==> r == introduction
    ensures |introduction| > 155 ==> |r| == 155
    ensures r == introduction[..|r|]
  {
    if |introduction| <= 155 then introduction else introduction[..155]
  }

  /** One question block of the page: the question as an `h3`, the answer
      as a paragraph, inside a `faq-item` division. */
  function FaqItemHtml(item: FaqItem): (r: string)
    ensures StartsWith(r, "<div class=\"faq-item\">")
    ensures EndsWith(r, "</div>")
    ensures Contains(r, "<h3>" + item.question + "</h3>")
    ensures Contains(r, "<p>" + item.answer + "</p>")
  {
    var open := "<div class=\"faq-item\">\n        ";
    var question := "<h3>" + item.question + "</h3>";
    var between := "\n        ";
    var answer := "<p>" + item.answer + "</p>";
    var r := open + question + between + answer + "\n      </div>";
    assert OccursAt(r, question, |open|);
    assert OccursAt(r, answer, |open + question + between|);
    r
  }

  function FaqHtmls(faq: seq<FaqItem>): (r: seq<string>)
    ensures |r| == |faq|
    ensures forall i :: 0 <= i < |faq| ==> r[i] == FaqItemHtml(faq[i])
  {
    if faq == [] then [] else [FaqItemHtml(faq[0])] + FaqHtmls(faq[1..])
  }

  /** The question blocks of the page, with nothing between them. */
  function FaqHtml(faq: seq<FaqItem>): (r: string)
    ensures faq == [] ==> r == ""
    ensures |faq| == 1 ==> r == FaqItemHtml(faq[0])
  {
    Concat(FaqHtmls(faq))
  }

  /** The style sheet of the page. */
  const Style: string :=
    "  <style>\n"
    + "    body {\n"
    + "      font-family: Arial, sans-serif;\n"
    + "      line-height: 1.6;\n"
    + "      color: #333;\n"
    + "      max-width: 800px;\n"
    + "      margin: 0 auto;\n"
    + "      padding: 20px;\n"
    + "    }\n"
    + "    h1 {\n"
    + "      font-size: 2em;\n"
    + "      margin-bottom: 20px;\n"
    + "    }\n"
    + "    h2 {\n"
    + "      font-size: 1.5em;\n"
    + "      margin-top: 30px;\n"
    + "      border-bottom: 1px solid #eee;\n"
    + "      padding-bottom: 10px;\n"
    + "    }\n"
    + "    h3 {\n"
    + "      font-size: 1.2em;\n"
    + "    }\n"
    + "    section {\n"
    + "      margin-bottom: 40px;\n"
    + "    }\n"
    + "    .keywords {\n"
    + "      margin: 15px 0;\n"
    + "      color: #666;\n"
    + "    }\n"
    + "    .faq-item {\n"
    + "      margin-bottom: 20px;\n"
    + "    }\n"
    + "    .cta {\n"
    + "      background-color: #f9f9f9;\n"
    + "      padding: 20px;\n"
    + "      border-radius: 5px;\n"
    + "      text-align: center;\n"
    + "    }\n"
    + "  </style>\n"

  /** The copyright line: the year, then the first keyword's services. */
  function Footer(keywords: seq<string>, year: int): (r: string)
    ensures StartsWith(r, "<p>\U{A9} " + IntToText(year) + " ")
    ensures EndsWith(r, Primary(keywords) + " Services. All rights reserved.</p>")
  {
    "<p>\U{A9} " + IntToText(year) + " " + Primary(keywords) + " Services. All rights reserved.</p>"
  }

  const DocType: string := "<!DOCTYPE html>\n"
  const HtmlHead: string :=
    "<html lang=\"en\">\n<head>\n  <meta charset=\"UTF-8\">\n"
    + "  <meta name=\"viewport\" content=\"width=device-width, initial-scale=1.0\">\n  "
  const HtmlFoot: string := "\n  </footer>\n</body>\n"
  const HtmlEnd: string := "</html>"

  /** The fixed text of the page template, in order; the holes go between
      consecutive entries. */
  const HtmlFixed: seq<string> := [
    DocType + HtmlHead,
    "\n  \n  <!-- SEO Meta Tags -->\n  ",
    "\n  ",
    "\n  \n  <!-- Open Graph / Social Media Meta Tags -->\n  ",
    "\n  ",
    "\n  <meta property=\"og:type\" content=\"website\">\n  \n"
    + "  <!-- Local Business Schema.org Markup -->\n"
    + "  <script type=\"application/ld+json\">\n  {\n"
    + "    \"@context\": \"https://schema.org\",\n"
    + "    \"@type\": \"LocalBusiness\",\n    ",
    "\n    ",
    "\n    \"address\": {\n      \"@type\": \"PostalAddress\",\n      ",
    "\n      ",
    "\n    },\n    \"geo\": {\n      \"@type\": \"GeoCoordinates\"\n    }\n  }\n"
    + "  </script>\n  \n" + Style + "</head>\n<body>\n  <header>\n    ",
    "\n    ",
    "\n  </header>\n  \n  <section id=\"introduction\">\n    <h2>Introduction</h2>\n    ",
    "\n  </section>\n  \n  <section id=\"why-us\">\n    <h2>Why Choose Us</h2>\n    ",
    "\n  </section>\n  \n  <section id=\"things-to-do\">\n    ",
    "\n    ",
    "\n  </section>\n  \n  <section id=\"faq\">\n    <h2>Frequently Asked Questions</h2>\n    ",
    "\n  </section>\n  \n  <section id=\"cta\" class=\"cta\">\n    <h2>Ready to Get Started?</h2>\n    ",
    "\n  </section>\n  \n  <footer>\n    ",
    HtmlFoot + HtmlEnd
  ]

  /** The holes of the page template: every piece that depends on the
      inputs, each with the markup around it. */
  function HtmlHoles(c: Content, city: string, state: string, keywords: seq<string>, year: int): (r: seq<string>)
    ensures |r| + 1 == |HtmlFixed|
  {
    var title := Title(keywords, city, state);
    var kw := KeywordsText(keywords);
    var desc := Description(c.introduction);
    [ "<title>" + title + "</title>",
      "<meta name=\"description\" content=\"" + desc + "\">",
      "<meta name=\"keywords\" content=\"" + kw + ", " + city + ", " + state + "\">",
      "<meta property=\"og:title\" content=\"" + title + "\">",
      "<meta property=\"og:description\" content=\"" + desc + "\">",
      "\"name\": \"" + Primary(keywords) + " Services\",",
      "\"description\": \"" + desc + "\",",
      "\"addressLocality\": \"" + city + "\",",
      "\"addressRegion\": \"" + state + "\"",
      "<h1>" + title + "</h1>",
      "<div class=\"keywords\">Keywords: " + kw + "</div>",
      "<p>" + c.introduction + "</p>",
      "<p>" + c.whyUs + "</p>",
      "<h2>Things to Do in " + city + ", " + state + "</h2>",
      "<p>" + c.thingsToDo + "</p>",
      FaqHtml(c.faq),
      "<p>Contact us today to discuss your " + kw + " needs in " + city + ", " + state + ".</p>",
      Footer(keywords, year)
    ]
  }

  /** `generateHtmlFile`; the current year of `new Date().getFullYear()` is a
      parameter. */
  function HtmlFile(c: Content, city: string, state: string, keywords: seq<string>, year: int): (h: string)
    ensures StartsWith(h, DocType)
    ensures EndsWith(h, HtmlEnd)
  {
    var holes := HtmlHoles(c, city, state, keywords, year);
    TemplateStartsWithDocType(holes);
    TemplateEndsWithClosingTag(holes);
    Fill(HtmlFixed, holes)
  }

  lemma TemplateStartsWithDocType(holes: seq<string>)
    requires |holes| + 1 == |HtmlFixed|
    ensures StartsWith(Fill(HtmlFixed, holes), DocType)
  {
    FillStartsWith(HtmlFixed, holes);
    PrefixOfPrefix(Fill(HtmlFixed, holes), DocType, HtmlHead);
  }

  lemma TemplateEndsWithClosingTag(holes: seq<string>)
    requires |holes| + 1 == |HtmlFixed|
    ensures EndsWith(Fill(HtmlFixed, holes), HtmlEnd)
  {
    FillEndsWith(HtmlFixed, holes);
    SuffixOfSuffix(Fill(HtmlFixed, holes), HtmlFoot, HtmlEnd);
  }

  /** The title is the document title. */
  lemma HtmlTitleTag(c: Content, city: string, state: string, keywords: seq<string>, year: int)
    ensures Contains(HtmlFile(c, city, state, keywords, year), "<title>" + Title(keywords, city, state) + "</title>")
  {
    FillContains(HtmlFixed, HtmlHoles(c, city, state, keywords, year), 0);
  }

  /** The cut introduction is the meta description. */
  lemma HtmlMetaDescription(c: Content, city: string, state: string, keywords: seq<string>, year: int)
    ensures Contains(HtmlFile(c, city, state, keywords, year), "<meta name=\"description\" content=\"" + Description(c.introduction) + "\">")
  {
    FillContains(HtmlFixed, HtmlHoles(c, city, state, keywords, year), 1);
  }

  /** The keyword list, the city and the state make up the keywords meta tag. */
  lemma HtmlKeywordsMeta(c: Content, city: string, state: string, keywords: seq<string>, year: int)
    ensures Contains(HtmlFile(c, city, state, keywords, year), "<meta name=\"keywords\" content=\"" + KeywordsText(keywords) + ", " + city + ", " + state + "\">")
  {
    FillContains(HtmlFixed, HtmlHoles(c, city, state, keywords, year), 2);
  }

  /** The title is the Open Graph title. */
  lemma HtmlOgTitle(c: Content, city: string, state: string, keywords: seq<string>, year: int)
    ensures Contains(HtmlFile(c, city, state, keywords, year), "<meta property=\"og:title\" content=\"" + Title(keywords, city, state) + "\">")
  {
    FillContains(HtmlFixed, HtmlHoles(c, city, state, keywords, year), 3);
  }

  /** The cut introduction is the Open Graph description. */
  lemma HtmlOgDescription(c: Content, city: string, state: string, keywords: seq<string>, year: int)
    ensures Contains(HtmlFile(c, city, state, keywords, year), "<meta property=\"og:description\" content=\"" + Description(c.introduction) + "\">")
  {
    FillContains(HtmlFixed, HtmlHoles(c, city, state, keywords, year), 4);
  }

  /** The business name of the structured data is the first keyword followed by `Services`. */
  lemma HtmlSchemaName(c: Content, city: string, state: string, keywords: seq<string>, year: int)
    ensures Contains(HtmlFile(c, city, state, keywords, year), "\"name\": \"" + Primary(keywords) + " Services\",")
  {
    FillContains(HtmlFixed, HtmlHoles(c, city, state, keywords, year), 5);
  }

  /** The cut introduction is the structured-data description. */
  lemma HtmlSchemaDescription(c: Content, city: string, state: string, keywords: seq<string>, year: int)
    ensures Contains(HtmlFile(c, city, state, keywords, year), "\"description\": \"" + Description(c.introduction) + "\",")
  {
    FillContains(HtmlFixed, HtmlHoles(c, city, state, keywords, year), 6);
  }

  /** The city is the locality of the structured-data address. */
  lemma HtmlLocality(c: Content, city: string, state: string, keywords: seq<string>, year: int)
    ensures Contains(HtmlFile(c, city, state, keywords, year), "\"addressLocality\": \"" + city + "\",")
  {
    FillContains(HtmlFixed, HtmlHoles(c, city, state, keywords, year), 7);
  }

  /** The state is the region of the structured-data address. */
  lemma HtmlRegion(c: Content, city: string, state: string, keywords: seq<string>, year: int)
    ensures Contains(HtmlFile(c, city, state, keywords, year), "\"addressRegion\": \"" + state + "\"")
  {
    FillContains(HtmlFixed, HtmlHoles(c, city, state, keywords, year), 8);
  }

  /** The title is the main heading. */
  lemma HtmlHeading(c: Content, city: string, state: string, keywords: seq<string>, year: int)
    ensures Contains(HtmlFile(c, city, state, keywords, year), "<h1>" + Title(keywords, city, state) + "</h1>")
  {
    FillContains(HtmlFixed, HtmlHoles(c, city, state, keywords, year), 9);
  }

  /** The keyword list is shown under the heading. */
  lemma HtmlKeywordLine(c: Content, city: string, state: string, keywords: seq<string>, year: int)
    ensures Contains(HtmlFile(c, city, state, keywords, year), "<div class=\"keywords\">Keywords: " + KeywordsText(keywords) + "</div>")
  {
    FillContains(HtmlFixed, HtmlHoles(c, city, state, keywords, year), 10);
  }

  /** The whole introduction is a paragraph, without escaping. */
  lemma HtmlIntroduction(c: Content, city: string, state: string, keywords: seq<string>, year: int)
    ensures Contains(HtmlFile(c, city, state, keywords, year), "<p>" + c.introduction + "</p>")
  {
    FillContains(HtmlFixed, HtmlHoles(c, city, state, keywords, year), 11);
  }

  /** The whole why-us text is a paragraph, without escaping. */
  lemma HtmlWhyUs(c: Content, city: string, state: string, keywords: seq<string>, year: int)
    ensures Contains(HtmlFile(c, city, state, keywords, year), "<p>" + c.whyUs + "</p>")
  {
    FillContains(HtmlFixed, HtmlHoles(c, city, state, keywords, year), 12);
  }

  /** The things-to-do section is headed with the city and the state. */
  lemma HtmlThingsToDoHeading(c: Content, city: string, state: string, keywords: seq<string>, year: int)
    ensures Contains(HtmlFile(c, city, state, keywords, year), "<h2>Things to Do in " + city + ", " + state + "</h2>")
  {
    FillContains(HtmlFixed, HtmlHoles(c, city, state, keywords, year), 13);
  }

  /** The whole things-to-do text is a paragraph, without escaping. */
  lemma HtmlThingsToDo(c: Content, city: string, state: string, keywords: seq<string>, year: int)
    ensures Contains(HtmlFile(c, city, state, keywords, year), "<p>" + c.thingsToDo + "</p>")
  {
    FillContains(HtmlFixed, HtmlHoles(c, city, state, keywords, year), 14);
  }

  /** The call to action names the keyword list, the city and the state. */
  lemma HtmlCallToAction(c: Content, city: string, state: string, keywords: seq<string>, year: int)
    ensures Contains(HtmlFile(c, city, state, keywords, year), "<p>Contact us today to discuss your " + KeywordsText(keywords) + " needs in " + city + ", " + state + ".</p>")
  {
    FillContains(HtmlFixed, HtmlHoles(c, city, state, keywords, year), 16);
  }

  /** The footer carries the year and the first keyword. */
  lemma HtmlFooter(c: Content, city: string, state: string, keywords: seq<string>, year: int)
    ensures Contains(HtmlFile(c, city, state, keywords, year), Footer(keywords, year))
  {
    FillContains(HtmlFixed, HtmlHoles(c, city, state, keywords, year), 17);
  }

  /** Every question and its answer appear as a block of the page. */
  lemma HtmlHasFaq(c: Content, city: string, state: string, keywords: seq<string>, year: int, k: nat)
    requires k < |c.faq|
    ensures Contains(HtmlFile(c, city, state, keywords, year), FaqItemHtml(c.faq[k]))
  {
    var holes := HtmlHoles(c, city, state, keywords, year);
    FillContains(HtmlFixed, holes, 15);
    ConcatContains(FaqHtmls(c.faq), k);
    ContainsTrans(HtmlFile(c, city, state, keywords, year), FaqHtml(c.faq), FaqItemHtml(c.faq[k]));
  }

  /** The page holds the question blocks of the whole list, in its order. */
  lemma HtmlFaqSection(c: Content, city: string, state: string, keywords: seq<string>, year: int)
    ensures Contains(HtmlFile(c, city, state, keywords, year), FaqHtml(c.faq))
  {
    FillContains(HtmlFixed, HtmlHoles(c, city, state, keywords, year), 15);
  }

  /** The question blocks of two lists, one after the other, are the blocks
      of the joined list. */
  lemma FaqHtmlAppend(a: seq<FaqItem>, b: seq<FaqItem>)
    ensures FaqHtml(a + b) == FaqHtml(a) + FaqHtml(b)
  {
    assert FaqHtmls(a + b) == FaqHtmls(a) + FaqHtmls(b);
    ConcatAppend(FaqHtmls(a), FaqHtmls(b));
  }
}
