/**
  The three passes `generate_html_report` makes over the ordered section map
  `results` (modules/report_generator.py:150-151, 167-171, 175-179) and the
  page they are assembled into (lines 20-187).

  The page text that does not depend on the results (the style sheet and the
  head, lines 25-148) is a parameter; the clock reading is a parameter too.
  File writing and the logging `try`/`except` around it are not modelled.

  The navigation link and the section container put the section key into an
  attribute without escaping it (lines 151 and 176).  `NavPassAsWritten`,
  `BodyPassAsWritten` and `PageAsWritten` are the program as written, and
  `GenerateReport` builds exactly that page.  `NavInjectionAsWritten` and
  `SectionInjectionAsWritten` show a key that injects a tag.  `NavPass`,
  `BodyPass` and `Page` escape the key; the read-back lemmas are about them,
  and `PassesAgree` shows both versions produce the same text whenever no key
  holds a character that `html.escape` changes.
 */
module Report {
  import opened HtmlEscape
  import opened Values
  import opened Markup
  import opened Labels
  import Render

  // ---------------------------------------------------------------------------
  // Navigation pass

  /** The attribute text of a link to the in-page anchor `anchor`. */
  function HrefTag(anchor: string): string {
    "a href='#" + anchor + "'"
  }

  /**
    The link of line 151 as written: the key goes into the `href` unescaped,
    which is the escaped link exactly when the key holds none of `&<>"'`.
   */
  function NavLinkAsWritten(key: string): (r: string)
    ensures Plain(key) <==> r == NavLink(key)
  {
    EscapeFixedPoint(key);
    "<li><a href='#" + key + "'>" + Escape(Label(key)) + "</a></li>"
  }

  /** The link of line 151 with the key escaped like every other text. */
  function NavLink(key: string): string {
    "<li><a href='#" + Escape(key) + "'>" + Escape(Label(key)) + "</a></li>"
  }

  /** The loop of lines 150-151 as written. */
  function NavPassAsWritten(results: seq<Field>): string {
    if results == [] then "" else NavLinkAsWritten(results[0].key) + NavPassAsWritten(results[1..])
  }

  /** The navigation pass with every key escaped. */
  function NavPass(results: seq<Field>): string {
    if results == [] then "" else NavLink(results[0].key) + NavPass(results[1..])
  }


  // ---------------------------------------------------------------------------
  // Summary pass

  const Collected: string := "\U{2714}\U{FE0F} Collected"
  const Missing: string := "\U{26A0}\U{FE0F} Missing"

  /** The status word of line 169. */
  function Status(body: Value): string {
    if Truthy(body) then Collected else Missing
  }

  /** The badge class of line 170. */
  function BadgeClass(body: Value): string {
    if Truthy(body) then "success" else "fail"
  }

  function BadgeTag(body: Value): string {
    "span class='badge " + BadgeClass(body) + "'"
  }

  /** The summary row of line 171. */
  function SummaryRow(key: string, body: Value): string {
    "<tr><td>" + Escape(Label(key)) + "</td><td><span class='badge " + BadgeClass(body) + "'>"
    + Status(body) + "</span></td></tr>"
  }

  function SummaryPass(results: seq<Field>): string {
    if results == [] then "" else SummaryRow(results[0].key, results[0].val) + SummaryPass(results[1..])
  }

  // ---------------------------------------------------------------------------
  // Body pass

  /** The attribute text of a section container anchored at `anchor`. */
  function IdTag(anchor: string): string {
    "div class=\"card\" id=\"" + anchor + "\""
  }

  /** The folder sign and space that start every section heading (line 177). */
  const Folder: string := "\U{1F4C2} "

  const Indent: string := "\n        "
  const Outdent: string := "\n    "

  /** Everything of a section container after its opening tag: the heading, the rendered body, the closing tag. */
  function SectionContent(key: string, body: Value): string {
    Indent + "<h2>" + Folder + Escape(Label(key)) + "</h2>" + Indent + Render.Render(body) + Outdent + "</div>"
  }

  /**
    The container of lines 176-179 as written: the key goes into the `id`
    unescaped, which is the escaped container exactly when the key holds
    none of `&<>"'`.
   */
  function SectionAsWritten(key: string, body: Value): (r: string)
    ensures Plain(key) <==> r == Section(key, body)
  {
    EscapeFixedPoint(key);
    "<div class=\"card\" id=\"" + key + "\">" + SectionContent(key, body)
  }

  /** The container of lines 176-179 with the key escaped. */
  function Section(key: string, body: Value): string {
    "<div class=\"card\" id=\"" + Escape(key) + "\">" + SectionContent(key, body)
  }

  /** The loop of lines 175-179 as written. */
  function BodyPassAsWritten(results: seq<Field>): string {
    if results == [] then "" else SectionAsWritten(results[0].key, results[0].val) + BodyPassAsWritten(results[1..])
  }

  /** The body pass with every key escaped. */
  function BodyPass(results: seq<Field>): string {
    if results == [] then "" else Section(results[0].key, results[0].val) + BodyPass(results[1..])
  }

  // ---------------------------------------------------------------------------
  // Where the passes as written and the escaped passes agree

  /** Every section key holds none of `&<>"'`. */
  predicate PlainKeys(results: seq<Field>) {
    forall i :: 0 <= i < |results| ==> Plain(results[i].key)
  }

  /** When no key holds one of `&<>"'`, the passes as written are the escaped passes. */
  lemma {:induction false} PassesAgree(results: seq<Field>)
    requires PlainKeys(results)
    ensures NavPassAsWritten(results) == NavPass(results)
    ensures BodyPassAsWritten(results) == BodyPass(results)
  {
    if results != [] {
      assert PlainKeys(results[1..]);
      PassesAgree(results[1..]);
    }
  }


  // ---------------------------------------------------------------------------
  // Reading the navigation back

  function NavPieces(key: string): seq<Piece> {
    Wrap("li", Wrap(HrefTag(Escape(key)), [Text(Escape(Label(key)))], "/a"), "/li")
  }

  function NavTags(key: string): seq<string> {
    ["li", HrefTag(Escape(key)), "/a", "/li"]
  }

  lemma NavText(e: string, l: string)
    ensures "<li>" + ("<" + ("a href='#" + e + "'") + ">" + l + "</a>") + "</li>"
            == "<li><a href='#" + e + "'>" + l + "</a></li>"
  {
  }

  lemma FlattenNavPieces(key: string)
    ensures Flatten(NavPieces(key)) == NavLink(key)
  {
    var e := Escape(key);
    var l := Escape(Label(key));
    FlattenText(l);
    FlattenWrap(HrefTag(e), [Text(l)], "/a");
    FlattenWrap("li", Wrap(HrefTag(e), [Text(l)], "/a"), "/li");
    NavTagsText();
    NavText(e, l);
  }

  lemma NavTagsText()
    ensures Emit(Tag("li")) == "<li>" && Emit(Tag("/a")) == "</a>" && Emit(Tag("/li")) == "</li>"
  {
  }

  lemma HrefClean(anchor: string)
    requires Inert(anchor)
    ensures Clean(Tag(HrefTag(anchor)))
  {
    assert Clean(Tag("a href='#"));
    assert Clean(Tag("'"));
    CleanAround("a href='#", anchor, "'");
  }

  lemma NavPiecesClean(key: string)
    ensures AllClean(NavPieces(key))
  {
    var e := Escape(key);
    var l := Escape(Label(key));
    HrefClean(e);
    CleanInert(l);
    assert AllClean([Text(l)]);
    assert Clean(Tag("/a")) && Clean(Tag("li")) && Clean(Tag("/li"));
    AllCleanWrap(HrefTag(e), [Text(l)], "/a");
    AllCleanWrap("li", Wrap(HrefTag(e), [Text(l)], "/a"), "/li");
  }

  function NavBlocks(results: seq<Field>): seq<seq<Piece>> {
    seq(|results|, i requires 0 <= i < |results| => NavPieces(results[i].key))
  }

  lemma TagsOfNavPieces(key: string)
    ensures TagsOf(NavPieces(key)) == NavTags(key)
  {
    var e := Escape(key);
    var l := Escape(Label(key));
    TagsOfWrap(HrefTag(e), [Text(l)], "/a");
    TagsOfWrap("li", Wrap(HrefTag(e), [Text(l)], "/a"), "/li");
  }

  lemma {:induction false} NavPassFlattens(results: seq<Field>)
    ensures NavPass(results) == Flatten(Flat(NavBlocks(results)))
  {
    if results != [] {
      var pss := NavBlocks(results);
      assert pss[1..] == NavBlocks(results[1..]);
      NavPassFlattens(results[1..]);
      FlattenNavPieces(results[0].key);
      FlattenAppend(pss[0], Flat(pss[1..]));
    }
  }

  lemma NavBlocksClean(results: seq<Field>)
    ensures forall i :: 0 <= i < |results| ==>
              AllClean(NavBlocks(results)[i]) && NavBlocks(results)[i] != [] && NavBlocks(results)[i][0].Tag?
  {
    forall i | 0 <= i < |results|
      ensures AllClean(NavBlocks(results)[i])
    {
      NavPiecesClean(results[i].key);
    }
  }

  /** How one navigation entry reads back: a list item around a link to the escaped key. */
  function NavEntry(key: string): seq<Piece> {
    [Tag("li"), Tag(HrefTag(Escape(key)))] + Lone(Escape(Label(key))) + [Tag("/a"), Tag("/li")]
  }

  function NavEntries(results: seq<Field>): (r: seq<seq<Piece>>)
    ensures |r| == |results|
  {
    seq(|results|, i requires 0 <= i < |results| => NavEntry(results[i].key))
  }

  /** The tags of each navigation entry, in `results` order. */
  function NavTagList(results: seq<Field>): (r: seq<seq<string>>)
    ensures |r| == |results|
  {
    seq(|results|, i requires 0 <= i < |results| => NavTags(results[i].key))
  }

  lemma NormalizeNavPieces(key: string)
    ensures Normalize(NavPieces(key)) == NavEntry(key)
  {
    var e := Escape(key);
    var l := Escape(Label(key));
    NormalizeWrapText(HrefTag(e), l, "/a");
    NormalizeWrap("li", Wrap(HrefTag(e), [Text(l)], "/a"), "/li");
  }

  lemma NavEntriesEach(results: seq<Field>)
    ensures NormalizeEach(NavBlocks(results)) == NavEntries(results)
  {
    var a := NormalizeEach(NavBlocks(results));
    forall i | 0 <= i < |results|
      ensures a[i] == NavEntries(results)[i]
    {
      NormalizeNavPieces(results[i].key);
    }
  }

  lemma NavTagsEach(results: seq<Field>)
    ensures TagsEach(NavBlocks(results)) == NavTagList(results)
  {
    var a := TagsEach(NavBlocks(results));
    forall i | 0 <= i < |results|
      ensures a[i] == NavTagList(results)[i]
    {
      TagsOfNavPieces(results[i].key);
    }
  }

  /**
    The navigation pass holds exactly one entry per section, in `results`
    order: read back, entry `i` is a list item around a link whose anchor is
    the escaped key, labelled with the escaped label.  The anchor is inert,
    so no key can end the attribute or open a tag.
   */
  lemma NavReadsBack(results: seq<Field>)
    ensures Lex(NavPass(results)) == Flat(NavEntries(results))
    ensures TagsOf(Lex(NavPass(results))) == Flat(NavTagList(results))
    ensures forall i :: 0 <= i < |results| ==> Inert(Escape(results[i].key))
  {
    NavPassFlattens(results);
    NavBlocksClean(results);
    ReadBlocks(NavBlocks(results));
    NavEntriesEach(results);
    NavTagsEach(results);
  }

  // ---------------------------------------------------------------------------
  // Reading the summary back

  /** The status badge of line 171 as pieces. */
  function BadgePieces(body: Value): seq<Piece> {
    Wrap(BadgeTag(body), [Text(Status(body))], "/span")
  }

  function SummaryPieces(key: string, body: Value): seq<Piece> {
    Render.RowLayout(Label(key), BadgePieces(body))
  }

  /** How one summary row reads back: the escaped label, then the badge with the status word. */
  function SummaryEntry(key: string, body: Value): seq<Piece> {
    [Tag("tr"), Tag("td")] + Lone(Escape(Label(key))) + [Tag("/td"), Tag("td")] + BadgeEntry(body) + [Tag("/td"), Tag("/tr")]
  }

  /** How the status badge reads back: the badge tag around the status word. */
  function BadgeEntry(body: Value): seq<Piece> {
    [Tag(BadgeTag(body)), Text(Status(body)), Tag("/span")]
  }

  function SummaryTags(body: Value): seq<string> {
    ["tr", "td", "/td", "td", BadgeTag(body), "/span", "/td", "/tr"]
  }

  function SummaryBlocks(results: seq<Field>): seq<seq<Piece>> {
    seq(|results|, i requires 0 <= i < |results| => SummaryPieces(results[i].key, results[i].val))
  }

  function SummaryEntries(results: seq<Field>): (r: seq<seq<Piece>>)
    ensures |r| == |results|
  {
    seq(|results|, i requires 0 <= i < |results| => SummaryEntry(results[i].key, results[i].val))
  }

  function SummaryTagList(results: seq<Field>): (r: seq<seq<string>>)
    ensures |r| == |results|
  {
    seq(|results|, i requires 0 <= i < |results| => SummaryTags(results[i].val))
  }

  lemma SummaryRowText(l: string, c: string, st: string)
    ensures "<tr><td>" + l + "</td><td>" + ("<span class='badge " + c + "'>" + st + "</span>") + "</td></tr>"
            == "<tr><td>" + l + "</td><td><span class='badge " + c + "'>" + st + "</span></td></tr>"
  {
  }

  lemma FlattenBadge(body: Value)
    ensures Flatten(BadgePieces(body)) == "<span class='badge " + BadgeClass(body) + "'>" + Status(body) + "</span>"
  {
    FlattenWrap(BadgeTag(body), [Text(Status(body))], "/span");
    FlattenText(Status(body));
    Render.BadgeTags();
    BadgeOpenText(BadgeClass(body));
  }

  lemma BadgeOpenText(c: string)
    ensures Emit(Tag("span class='badge " + c + "'")) == "<span class='badge " + c + "'>"
  {
    EmitAround("span class='badge ", c, "'");
    assert "<" + "span class='badge " == "<span class='badge ";
    assert "'" + ">" == "'>";
  }

  lemma FlattenSummaryPieces(key: string, body: Value)
    ensures Flatten(SummaryPieces(key, body)) == SummaryRow(key, body)
  {
    FlattenBadge(body);
    Render.FlattenRowLayout(Label(key), BadgePieces(body));
    SummaryRowText(Escape(Label(key)), BadgeClass(body), Status(body));
  }

  lemma CleanBadgePrefix()
    ensures Clean(Tag("span class='badge ")) && Clean(Tag("'"))
  {
  }

  lemma BadgeTagClean(body: Value)
    ensures Clean(Tag(BadgeTag(body)))
  {
    CleanBadgePrefix();
    assert Inert(BadgeClass(body));
    CleanAround("span class='badge ", BadgeClass(body), "'");
  }

  lemma StatusClean(body: Value)
    ensures Clean(Text(Status(body)))
  {
    if Truthy(body) {
      assert Clean(Text(Collected));
    } else {
      assert Clean(Text(Missing));
    }
  }

  lemma BadgeClean(body: Value)
    ensures AllClean(BadgePieces(body))
  {
    BadgeTagClean(body);
    StatusClean(body);
    assert Clean(Tag("/span"));
    AllCleanWrap(BadgeTag(body), [Text(Status(body))], "/span");
  }

  /** A table row is clean when its second cell is. */
  lemma RowLayoutClean(key: string, cell: seq<Piece>)
    requires AllClean(cell)
    ensures AllClean(Render.RowLayout(key, cell))
  {
    var l := Escape(key);
    Render.CleanCellTags();
    Render.CleanTableTags();
    CleanInert(l);
    AllCleanWrap("td", [Text(l)], "/td");
    AllCleanWrap("td", cell, "/td");
    AllCleanAppend(Wrap("td", [Text(l)], "/td"), Wrap("td", cell, "/td"));
    AllCleanWrap("tr", Wrap("td", [Text(l)], "/td") + Wrap("td", cell, "/td"), "/tr");
  }

  lemma SummaryPiecesClean(key: string, body: Value)
    ensures AllClean(SummaryPieces(key, body))
  {
    BadgeClean(body);
    RowLayoutClean(Label(key), BadgePieces(body));
  }

  /** A table row with a text first cell reads back as its two cells. */
  lemma NormalizeRowLayout(key: string, cell: seq<Piece>)
    ensures Normalize(Render.RowLayout(key, cell)) ==
            [Tag("tr"), Tag("td")] + Lone(Escape(key)) + [Tag("/td"), Tag("td")] + Normalize(cell) + [Tag("/td"), Tag("/tr")]
  {
    NormalizeTwoCells("tr", "td", Escape(key), "/td", "td", cell, "/td", "/tr");
  }

  lemma NormalizeBadge(body: Value)
    ensures Normalize(BadgePieces(body)) == BadgeEntry(body)
  {
    NormalizeWrapText(BadgeTag(body), Status(body), "/span");
    assert Lone(Status(body)) == [Text(Status(body))];
    assert [Tag(BadgeTag(body))] + Lone(Status(body)) + [Tag("/span")] == BadgeEntry(body);
  }

  lemma NormalizeSummaryPieces(key: string, body: Value)
    ensures Normalize(SummaryPieces(key, body)) == SummaryEntry(key, body)
  {
    NormalizeBadge(body);
    NormalizeRowLayout(Label(key), BadgePieces(body));
  }

  lemma TagsOfSummaryPieces(key: string, body: Value)
    ensures TagsOf(SummaryPieces(key, body)) == SummaryTags(body)
  {
    var l := Escape(Label(key));
    var a := Wrap("td", [Text(l)], "/td");
    var b := Wrap("td", BadgePieces(body), "/td");
    TagsOfWrap(BadgeTag(body), [Text(Status(body))], "/span");
    TagsOfWrap("td", BadgePieces(body), "/td");
    TagsOfWrap("td", [Text(l)], "/td");
    TagsOfAppend(a, b);
    TagsOfWrap("tr", a + b, "/tr");
  }

  lemma {:induction false} SummaryPassFlattens(results: seq<Field>)
    ensures SummaryPass(results) == Flatten(Flat(SummaryBlocks(results)))
  {
    if results != [] {
      var pss := SummaryBlocks(results);
      assert pss[1..] == SummaryBlocks(results[1..]);
      SummaryPassFlattens(results[1..]);
      FlattenSummaryPieces(results[0].key, results[0].val);
      FlattenAppend(pss[0], Flat(pss[1..]));
    }
  }

  lemma SummaryBlocksClean(results: seq<Field>)
    ensures forall i :: 0 <= i < |results| ==>
              AllClean(SummaryBlocks(results)[i]) && SummaryBlocks(results)[i] != []
              && SummaryBlocks(results)[i][0].Tag?
  {
    forall i | 0 <= i < |results|
      ensures AllClean(SummaryBlocks(results)[i])
    {
      SummaryPiecesClean(results[i].key, results[i].val);
    }
  }

  lemma SummaryEntriesEach(results: seq<Field>)
    ensures NormalizeEach(SummaryBlocks(results)) == SummaryEntries(results)
    ensures TagsEach(SummaryBlocks(results)) == SummaryTagList(results)
  {
    var a := NormalizeEach(SummaryBlocks(results));
    var b := TagsEach(SummaryBlocks(results));
    forall i | 0 <= i < |results|
      ensures a[i] == SummaryEntries(results)[i] && b[i] == SummaryTagList(results)[i]
    {
      NormalizeSummaryPieces(results[i].key, results[i].val);
      TagsOfSummaryPieces(results[i].key, results[i].val);
    }
  }

  /**
    The summary table holds exactly one row per section, in `results` order:
    read back, row `i` is the escaped label of key `i` followed by a badge
    whose class and word come from the truthiness of body `i`.
   */
  lemma SummaryReadsBack(results: seq<Field>)
    ensures Lex(SummaryPass(results)) == Flat(SummaryEntries(results))
    ensures TagsOf(Lex(SummaryPass(results))) == Flat(SummaryTagList(results))
  {
    SummaryPassFlattens(results);
    SummaryBlocksClean(results);
    ReadBlocks(SummaryBlocks(results));
    SummaryEntriesEach(results);
  }

  /**
    A section is reported Collected, with a `success` badge, exactly when its
    body is truthy; it is reported Missing, with a `fail` badge, exactly for
    `None`, `False`, zero, the empty string, the empty list and the empty dict.
   */
  lemma StatusIffTruthy(body: Value)
    ensures Status(body) == Collected <==> Truthy(body)
    ensures BadgeClass(body) == "success" <==> Status(body) == Collected
    ensures Status(body) == Missing <==>
            body in {Null, Bool(false), Int(0), Float("0.0"), Float("-0.0"), Str(""), Arr([]), Obj([])}
  {
    assert Collected != Missing by {
      assert Collected[0] != Missing[0];
    }
    assert "success" != "fail" by {
      assert "success"[0] != "fail"[0];
    }
  }

  // ---------------------------------------------------------------------------
  // Reading the section bodies back

  /** The section heading of line 177 as pieces. */
  function Heading(key: string): seq<Piece> {
    Wrap("h2", [Text(Folder + Escape(Label(key)))], "/h2")
  }

  /** The rendered body between its two line breaks. */
  function BodyTail(body: Value): seq<Piece> {
    [Text(Indent)] + Render.Layout(body) + [Text(Outdent)]
  }

  function SectionPieces(key: string, body: Value): seq<Piece> {
    Wrap(IdTag(Escape(key)), [Text(Indent)] + (Heading(key) + BodyTail(body)), "/div")
  }

  /**
    How one section reads back: the container tag anchored at the escaped
    key, the heading, then the rendered body (whose leading and trailing text,
    if any, joins the surrounding line breaks), then the closing tag.
   */
  function SectionEntry(key: string, body: Value): seq<Piece> {
    [Tag(IdTag(Escape(key))), Text(Indent), Tag("h2"), Text(Folder + Escape(Label(key))), Tag("/h2")]
    + Normalize(BodyTail(body)) + [Tag("/div")]
  }

  /** The tags of one section: its container, its heading, and exactly the tags of the rendered body. */
  function SectionTags(key: string, body: Value): seq<string> {
    [IdTag(Escape(key)), "h2", "/h2"] + TagsOf(Lex(Render.Render(body))) + ["/div"]
  }

  function SectionBlocks(results: seq<Field>): seq<seq<Piece>> {
    seq(|results|, i requires 0 <= i < |results| => SectionPieces(results[i].key, results[i].val))
  }

  function SectionEntries(results: seq<Field>): (r: seq<seq<Piece>>)
    ensures |r| == |results|
  {
    seq(|results|, i requires 0 <= i < |results| => SectionEntry(results[i].key, results[i].val))
  }

  function SectionTagList(results: seq<Field>): (r: seq<seq<string>>)
    ensures |r| == |results|
  {
    seq(|results|, i requires 0 <= i < |results| => SectionTags(results[i].key, results[i].val))
  }

  lemma IdOpenText(e: string)
    ensures Emit(Tag(IdTag(e))) == "<div class=\"card\" id=\"" + e + "\">"
  {
    EmitAround("div class=\"card\" id=\"", e, "\"");
    assert "<" + "div class=\"card\" id=\"" == "<div class=\"card\" id=\"";
    assert "\"" + ">" == "\">";
  }

  lemma HeadingTags()
    ensures Emit(Tag("h2")) == "<h2>" && Emit(Tag("/h2")) == "</h2>"
  {
  }

  lemma HeadingText(key: string)
    ensures Flatten(Heading(key)) == "<h2>" + Folder + Escape(Label(key)) + "</h2>"
  {
    var l := Escape(Label(key));
    FlattenWrapText("h2", Folder + l, "/h2");
    HeadingTags();
    AppendAssoc("<h2>", Folder, l);
  }

  lemma FlattenBodyTail(body: Value)
    ensures Flatten(BodyTail(body)) == Indent + Render.Render(body) + Outdent
  {
    FlattenAppend([Text(Indent)], Render.Layout(body));
    FlattenAppend([Text(Indent)] + Render.Layout(body), [Text(Outdent)]);
    FlattenText(Indent);
    FlattenText(Outdent);
    Render.FlattenLayout(body);
  }

  lemma SectionText(o: string, l: string, r: string)
    ensures o + (Indent + (("<h2>" + Folder + l + "</h2>") + (Indent + r + Outdent))) + "</div>"
            == o + (Indent + "<h2>" + Folder + l + "</h2>" + Indent + r + Outdent + "</div>")
  {
  }

  lemma FlattenSectionPieces(key: string, body: Value)
    ensures Flatten(SectionPieces(key, body)) == Section(key, body)
  {
    var e := Escape(key);
    var h := "<h2>" + Folder + Escape(Label(key)) + "</h2>";
    var r := Render.Render(body);
    var inner := [Text(Indent)] + (Heading(key) + BodyTail(body));
    HeadingText(key);
    FlattenBodyTail(body);
    FlattenAppend(Heading(key), BodyTail(body));
    FlattenCons(Text(Indent), Heading(key) + BodyTail(body));
    assert Flatten(inner) == Indent + (h + (Indent + r + Outdent));
    FlattenWrap(IdTag(e), inner, "/div");
    IdOpenText(e);
    Render.CardTags();
    SectionText("<div class=\"card\" id=\"" + e + "\">", Escape(Label(key)), r);
  }

  lemma IdTagClean(key: string)
    ensures Clean(Tag(IdTag(Escape(key))))
  {
    assert Clean(Tag("div class=\"card\" id=\""));
    assert Clean(Tag("\""));
    CleanAround("div class=\"card\" id=\"", Escape(key), "\"");
  }

  lemma HeadingClean(key: string)
    ensures AllClean(Heading(key))
  {
    var t := Folder + Escape(Label(key));
    assert Inert(Folder);
    InertAppend(Folder, Escape(Label(key)));
    CleanInert(t);
    assert Clean(Tag("h2")) && Clean(Tag("/h2"));
    AllCleanWrap("h2", [Text(t)], "/h2");
  }

  lemma BodyTailClean(body: Value)
    ensures AllClean(BodyTail(body))
  {
    Render.ScaffoldedLayout(body);
    Render.RenderTagsClean();
    ScaffoldedClean(Render.Layout(body), Render.RenderTags);
    assert Clean(Text(Indent)) && Clean(Text(Outdent));
    AllCleanAppend([Text(Indent)], Render.Layout(body));
    AllCleanAppend([Text(Indent)] + Render.Layout(body), [Text(Outdent)]);
  }

  lemma SectionPiecesClean(key: string, body: Value)
    ensures AllClean(SectionPieces(key, body))
  {
    IdTagClean(key);
    HeadingClean(key);
    BodyTailClean(body);
    assert Clean(Text(Indent));
    AllCleanAppend(Heading(key), BodyTail(body));
    AllCleanAppend([Text(Indent)], Heading(key) + BodyTail(body));
    Render.CleanCardLineTags();
    AllCleanWrap(IdTag(Escape(key)), [Text(Indent)] + (Heading(key) + BodyTail(body)), "/div");
  }

  lemma NormalizeSectionInner(key: string, body: Value)
    ensures Normalize([Text(Indent)] + (Heading(key) + BodyTail(body))) ==
            [Text(Indent), Tag("h2"), Text(Folder + Escape(Label(key))), Tag("/h2")] + Normalize(BodyTail(body))
  {
    assert |Folder + Escape(Label(key))| > 0;
    TextThenWrap(Indent, "h2", Folder + Escape(Label(key)), "/h2", BodyTail(body));
  }

  lemma NormalizeSectionPieces(key: string, body: Value)
    ensures Normalize(SectionPieces(key, body)) == SectionEntry(key, body)
  {
    var inner := [Text(Indent)] + (Heading(key) + BodyTail(body));
    var h := [Text(Indent), Tag("h2"), Text(Folder + Escape(Label(key))), Tag("/h2")];
    var o := Tag(IdTag(Escape(key)));
    NormalizeWrap(IdTag(Escape(key)), inner, "/div");
    NormalizeSectionInner(key, body);
    SectionEntryShape(o, Text(Indent), Text(Folder + Escape(Label(key))), Normalize(BodyTail(body)));
  }

  lemma SectionEntryShape(o: Piece, i: Piece, t: Piece, b: seq<Piece>)
    ensures [o] + ([i, Tag("h2"), t, Tag("/h2")] + b) + [Tag("/div")] == [o, i, Tag("h2"), t, Tag("/h2")] + b + [Tag("/div")]
  {
  }

  lemma TagsOfHeading(key: string)
    ensures TagsOf(Heading(key)) == ["h2", "/h2"]
  {
    TagsOfWrap("h2", [Text(Folder + Escape(Label(key)))], "/h2");
  }

  lemma TagsOfBodyTail(body: Value)
    ensures TagsOf(BodyTail(body)) == TagsOf(Lex(Render.Render(body)))
  {
    var layout := Render.Layout(body);
    TagsOfAppend([Text(Indent)], layout);
    TagsOfAppend([Text(Indent)] + layout, [Text(Outdent)]);
    Render.RenderReadsBack(body);
    TagsOfNormalize(layout);
  }

  lemma TagsOfSectionPieces(key: string, body: Value)
    ensures TagsOf(SectionPieces(key, body)) == SectionTags(key, body)
  {
    var b := TagsOf(Lex(Render.Render(body)));
    TagsOfWrap(IdTag(Escape(key)), [Text(Indent)] + (Heading(key) + BodyTail(body)), "/div");
    TagsOfCons(Text(Indent), Heading(key) + BodyTail(body));
    TagsOfAppend(Heading(key), BodyTail(body));
    TagsOfHeading(key);
    TagsOfBodyTail(body);
    SectionTagsShape(IdTag(Escape(key)), b);
  }

  lemma SectionTagsShape(o: string, b: seq<string>)
    ensures [o] + ([] + (["h2", "/h2"] + b)) + ["/div"] == [o, "h2", "/h2"] + b + ["/div"]
  {
  }

  lemma SectionBlocksTail(results: seq<Field>)
    requires results != []
    ensures SectionBlocks(results)[0] == SectionPieces(results[0].key, results[0].val)
    ensures SectionBlocks(results)[1..] == SectionBlocks(results[1..])
  {
    var pss := SectionBlocks(results);
    var tail := SectionBlocks(results[1..]);
    assert |pss[1..]| == |tail|;
    forall i | 0 <= i < |tail|
      ensures pss[1..][i] == tail[i]
    {
      assert pss[1..][i] == pss[i + 1];
    }
  }

  lemma {:induction false} BodyPassFlattens(results: seq<Field>)
    ensures BodyPass(results) == Flatten(Flat(SectionBlocks(results)))
  {
    if results != [] {
      var pss := SectionBlocks(results);
      SectionBlocksTail(results);
      BodyPassFlattens(results[1..]);
      FlattenSectionPieces(results[0].key, results[0].val);
      FlattenFlatStep(pss, Section(results[0].key, results[0].val), BodyPass(results[1..]));
    }
  }

  lemma SectionBlocksClean(results: seq<Field>)
    ensures forall i :: 0 <= i < |results| ==>
              AllClean(SectionBlocks(results)[i]) && SectionBlocks(results)[i] != []
              && SectionBlocks(results)[i][0].Tag?
  {
    forall i | 0 <= i < |results|
      ensures AllClean(SectionBlocks(results)[i])
    {
      SectionPiecesClean(results[i].key, results[i].val);
    }
  }

  lemma SectionEntriesEach(results: seq<Field>)
    ensures NormalizeEach(SectionBlocks(results)) == SectionEntries(results)
    ensures TagsEach(SectionBlocks(results)) == SectionTagList(results)
  {
    var a := NormalizeEach(SectionBlocks(results));
    var b := TagsEach(SectionBlocks(results));
    forall i | 0 <= i < |results|
      ensures a[i] == SectionEntries(results)[i] && b[i] == SectionTagList(results)[i]
    {
      NormalizeSectionPieces(results[i].key, results[i].val);
      TagsOfSectionPieces(results[i].key, results[i].val);
    }
  }

  /**
    The body holds exactly one container per section, in `results` order:
    read back, container `i` is anchored at the escaped key `i`, holds the
    heading with the escaped label, and holds exactly the tags of the
    rendering of body `i` -- no key, label or value adds or ends a tag.
   */
  lemma BodyReadsBack(results: seq<Field>)
    ensures Lex(BodyPass(results)) == Flat(SectionEntries(results))
    ensures TagsOf(Lex(BodyPass(results))) == Flat(SectionTagList(results))
  {
    BodyPassFlattens(results);
    SectionBlocksClean(results);
    ReadBlocks(SectionBlocks(results));
    SectionEntriesEach(results);
  }

  // ---------------------------------------------------------------------------
  // One link and one container at a time

  /** A navigation link reads back as its entry: exactly four tags, the anchor inert. */
  lemma NavLinkReadsBack(key: string)
    ensures Lex(NavLink(key)) == NavEntry(key)
    ensures TagsOf(Lex(NavLink(key))) == ["li", HrefTag(Escape(key)), "/a", "/li"]
  {
    FlattenNavPieces(key);
    NavPiecesClean(key);
    LexFlatten(NavPieces(key));
    NormalizeNavPieces(key);
    TagsOfNormalize(NavPieces(key));
    TagsOfNavPieces(key);
  }

  /** A section container reads back as its entry: its own two tags and the body's tags, nothing else. */
  lemma SectionReadsBack(key: string, body: Value)
    ensures Lex(Section(key, body)) == SectionEntry(key, body)
    ensures TagsOf(Lex(Section(key, body))) == SectionTags(key, body)
  {
    FlattenSectionPieces(key, body);
    SectionPiecesClean(key, body);
    LexFlatten(SectionPieces(key, body));
    NormalizeSectionPieces(key, body);
    TagsOfNormalize(SectionPieces(key, body));
    TagsOfSectionPieces(key, body);
  }

  // ---------------------------------------------------------------------------
  // The unescaped anchors as written

  lemma InjectedNavText(n: string, l: string)
    ensures "<li><a href='#" + ("x'><" + n + ">") + "'>" + l + "</a></li>"
            == "<" + "li" + ">" + ("<" + "a href='#x'" + ">" + ("<" + n + ">" + ("'>" + l + "</a></li>")))
  {
  }

  lemma LexThreeTags(n: string, rest: string)
    requires Clean(Tag(n))
    ensures Lex("<" + "li" + ">" + ("<" + "a href='#x'" + ">" + ("<" + n + ">" + rest)))
            == [Tag("li"), Tag("a href='#x'"), Tag(n)] + Lex(rest)
  {
    CleanLinkX();
    LexTag(n, rest);
    LexTag("a href='#x'", "<" + n + ">" + rest);
    LexTag("li", "<" + "a href='#x'" + ">" + ("<" + n + ">" + rest));
    ThreeFront(Tag("li"), Tag("a href='#x'"), Tag(n), Lex(rest));
  }

  lemma CleanLinkX()
    ensures Clean(Tag("li")) && Clean(Tag("a href='#x'"))
  {
  }

  lemma LexInjectedNav(n: string, l: string)
    requires Clean(Tag(n))
    ensures Lex("<li><a href='#" + ("x'><" + n + ">") + "'>" + l + "</a></li>")
            == [Tag("li"), Tag("a href='#x'"), Tag(n)] + Lex("'>" + l + "</a></li>")
  {
    InjectedNavText(n, l);
    LexThreeTags(n, "'>" + l + "</a></li>");
  }

  /**
    As written, line 151 lets a key end the `href` attribute and open a tag
    of its own: with the key `x'><script>` (any tag name in place of
    `script`) the link reads back as a link to `#x` followed by that tag,
    while the escaped link reads back as the four tags of a link to the
    escaped key, whatever the key.
   */
  lemma NavInjectionAsWritten(n: string)
    requires Clean(Tag(n))
    ensures Lex(NavLinkAsWritten("x'><" + n + ">")) ==
            [Tag("li"), Tag("a href='#x'"), Tag(n)] + Lex("'>" + Escape(Label("x'><" + n + ">")) + "</a></li>")
    ensures TagsOf(Lex(NavLink("x'><" + n + ">"))) == ["li", HrefTag(Escape("x'><" + n + ">")), "/a", "/li"]
  {
    LexInjectedNav(n, Escape(Label("x'><" + n + ">")));
    NavLinkReadsBack("x'><" + n + ">");
  }

  lemma InjectedSectionText(n: string, c: string)
    ensures "<div class=\"card\" id=\"" + ("x\"><" + n + ">") + "\">" + c
            == "<" + "div class=\"card\" id=\"x\"" + ">" + ("<" + n + ">" + ("\">" + c))
  {
  }

  lemma CleanContainerX()
    ensures Clean(Tag("div class=\"card\" id=\"x\""))
  {
  }

  lemma LexTwoTags(n: string, rest: string)
    requires Clean(Tag(n))
    ensures Lex("<" + "div class=\"card\" id=\"x\"" + ">" + ("<" + n + ">" + rest))
            == [Tag("div class=\"card\" id=\"x\""), Tag(n)] + Lex(rest)
  {
    CleanContainerX();
    LexTag(n, rest);
    LexTag("div class=\"card\" id=\"x\"", "<" + n + ">" + rest);
    TwoFront(Tag("div class=\"card\" id=\"x\""), Tag(n), Lex(rest));
  }

  /**
    As written, line 176 lets a key end the `id` attribute and open a tag of
    its own: with the key `x"><script>` (any tag name in place of `script`)
    the container reads back as a container with id `x` whose first tag is
    the injected one, while the escaped container reads back as its own tag,
    the heading, and exactly the tags of the rendered body, whatever the key.
   */
  lemma SectionInjectionAsWritten(n: string, body: Value)
    requires Clean(Tag(n))
    ensures Lex(SectionAsWritten("x\"><" + n + ">", body)) ==
            [Tag("div class=\"card\" id=\"x\""), Tag(n)] + Lex("\">" + SectionContent("x\"><" + n + ">", body))
    ensures TagsOf(Lex(Section("x\"><" + n + ">", body))) ==
            [IdTag(Escape("x\"><" + n + ">")), "h2", "/h2"] + TagsOf(Lex(Render.Render(body))) + ["/div"]
  {
    var c := SectionContent("x\"><" + n + ">", body);
    InjectedSectionText(n, c);
    LexTwoTags(n, "\">" + c);
    SectionReadsBack("x\"><" + n + ">", body);
  }

  // ---------------------------------------------------------------------------
  // Anchors

  /**
    Navigation entry `i` links to exactly the anchor that section container
    `i` carries, namely the escaped key `i`; unescaping the anchor gives the
    key back, and different keys get different anchors.
   */
  lemma AnchorsResolve(results: seq<Field>)
    ensures forall i :: 0 <= i < |results| ==>
              NavTagList(results)[i][1] == HrefTag(Escape(results[i].key))
              && SectionTagList(results)[i][0] == IdTag(Escape(results[i].key))
              && Unescape(Escape(results[i].key)) == results[i].key
    ensures forall i, j :: 0 <= i < |results| && 0 <= j < |results| && results[i].key != results[j].key ==>
              Escape(results[i].key) != Escape(results[j].key)
  {
    forall i | 0 <= i < |results|
      ensures Unescape(Escape(results[i].key)) == results[i].key
    {
      UnescapeEscape(results[i].key);
    }
    forall i, j | 0 <= i < |results| && 0 <= j < |results| && results[i].key != results[j].key
      ensures Escape(results[i].key) != Escape(results[j].key)
    {
      EscapeInjective(results[i].key, results[j].key);
    }
  }

  // ---------------------------------------------------------------------------
  // The whole page
  //
  // The fixed text around the passes is written as the tags and text runs
  // the template spells out: `Flatten` writes `Tag(n)` as `<n>` and a text
  // run as itself, so the strings below are the template's text.

  /** The clock reading of line 17: its `strftime` text (line 159) and its year (line 182). */
  datatype Clock = Clock(stamp: string, year: int)

  /** Lines 20-24 up to the title. */
  const OpeningStart: seq<Piece> :=
    [Tag("!DOCTYPE html"), Text("\n"), Tag("html lang=\"en\""), Text("\n"), Tag("head"), Text("\n    "),
     Tag("meta charset=\"UTF-8\""), Text("\n    "), Tag("title")]

  const TitlePrefix: string := "Rapid Recon Report - "

  /** Lines 20-24: the document start and the title holding the escaped target. */
  function OpeningPieces(target: string): seq<Piece> {
    OpeningStart + [Text(TitlePrefix + Escape(target)), Tag("/title"), Text("\n")]
  }

  /**
    Lines 20-148: the opening, then `head`, the fixed text of lines 25-148
    (the style sheet, the end of the head, and the navigation list up to its
    first link, to the summary).
   */
  function Opening(target: string, head: string): string {
    Flatten(OpeningPieces(target)) + head
  }

  /** Lines 153-158 up to the target. */
  const HeaderStart: seq<Piece> :=
    [Tag("/ul"), Text("\n"), Tag("/nav"), Text("\n\n"), Tag("main"), Text("\n    "), Tag("header"),
     Text("\n        "), Tag("h1"), Text("\U{1F6E1}\U{FE0F} Recon Report"), Tag("/h1"), Text("\n        "),
     Tag("p"), Text("Target: "), Tag("strong")]

  const StampPrefix: string := " | Generated on "

  /** Lines 159-165 after the time stamp: the end of the header and the start of the summary table. */
  const HeaderEnd: seq<Piece> :=
    [Text("\n    "), Tag("/header"), Text("\n\n    "), Tag("div class=\"card\" id=\"summary\""), Text("\n        "),
     Tag("h2"), Text("\U{1F4CB} Summary"), Tag("/h2"), Text("\n        "), Tag("table"), Text("\n            "),
     Tag("tr"), Tag("th"), Text("Section"), Tag("/th"), Tag("th"), Text("Status"), Tag("/th"), Tag("/tr")]

  function HeaderPieces(target: string, clock: Clock): seq<Piece> {
    HeaderStart + [Text(Escape(target)), Tag("/strong"), Text(StampPrefix + clock.stamp), Tag("/p")] + HeaderEnd
  }

  /** Lines 153-165: the end of the navigation, the page header and the start of the summary table. */
  function Header(target: string, clock: Clock): string {
    Flatten(HeaderPieces(target, clock))
  }

  /** Line 167: the end of the summary table and its card. */
  const SummaryClosePieces: seq<Piece> := [Tag("/table"), Tag("/div")]

  const SummaryClose: string := Flatten(SummaryClosePieces)

  /** The footer line of line 182 up to the target, with the year. */
  function FooterText(clock: Clock): string {
    "\n        &copy; " + Decimal(clock.year) + " Rapid Recon | Report generated for "
  }

  /** Lines 182-187 after the target. */
  const FooterEnd: seq<Piece> :=
    [Tag("/strong"), Text("\n    "), Tag("/footer"), Text("\n"), Tag("/main"), Text("\n\n"), Tag("/body"),
     Text("\n"), Tag("/html")]

  function FooterPieces(target: string, clock: Clock): seq<Piece> {
    [Tag("footer"), Text(FooterText(clock)), Tag("strong"), Text(Escape(target))] + FooterEnd
  }

  /** Lines 181-187: the footer with the year and the escaped target. */
  function Footer(target: string, clock: Clock): string {
    Flatten(FooterPieces(target, clock))
  }

  /** The page of lines 20-187 with every section key escaped. */
  function Page(target: string, head: string, clock: Clock, results: seq<Field>): string {
    Opening(target, head) + NavPass(results) + Header(target, clock) + SummaryPass(results) + SummaryClose
    + BodyPass(results) + Footer(target, clock)
  }

  /** The page of lines 20-187 as written. */
  function PageAsWritten(target: string, head: string, clock: Clock, results: seq<Field>): string {
    Opening(target, head) + NavPassAsWritten(results) + Header(target, clock) + SummaryPass(results) + SummaryClose
    + BodyPassAsWritten(results) + Footer(target, clock)
  }

  lemma NavPassAsWrittenStep(results: seq<Field>, i: nat)
    requires i < |results|
    ensures NavPassAsWritten(results[i..]) == NavLinkAsWritten(results[i].key) + NavPassAsWritten(results[i + 1..])
  {
    assert results[i..][1..] == results[i + 1..];
  }

  /** The loop of lines 150-151: one link appended per section, in order. */
  method AppendNav(page0: string, results: seq<Field>) returns (page: string)
    ensures page == page0 + NavPassAsWritten(results)
    ensures PlainKeys(results) ==> page == page0 + NavPass(results)
  {
    page := page0;
    var i := 0;
    while i < |results|
      invariant 0 <= i <= |results|
      invariant page + NavPassAsWritten(results[i..]) == page0 + NavPassAsWritten(results)
    {
      NavPassAsWrittenStep(results, i);
      page := page + NavLinkAsWritten(results[i].key);
      i := i + 1;
    }
    if PlainKeys(results) {
      PassesAgree(results);
    }
  }

  lemma SummaryPassStep(results: seq<Field>, i: nat)
    requires i < |results|
    ensures SummaryPass(results[i..]) == SummaryRow(results[i].key, results[i].val) + SummaryPass(results[i + 1..])
  {
    assert results[i..][1..] == results[i + 1..];
  }

  /** The loop of lines 167-171: one summary row appended per section, in order. */
  method AppendSummary(page0: string, results: seq<Field>) returns (page: string)
    ensures page == page0 + SummaryPass(results)
  {
    page := page0;
    var i := 0;
    while i < |results|
      invariant 0 <= i <= |results|
      invariant page + SummaryPass(results[i..]) == page0 + SummaryPass(results)
    {
      SummaryPassStep(results, i);
      page := page + SummaryRow(results[i].key, results[i].val);
      i := i + 1;
    }
  }

  lemma BodyPassAsWrittenStep(results: seq<Field>, i: nat)
    requires i < |results|
    ensures BodyPassAsWritten(results[i..]) ==
            SectionAsWritten(results[i].key, results[i].val) + BodyPassAsWritten(results[i + 1..])
  {
    assert results[i..][1..] == results[i + 1..];
  }

  /** The loop of lines 175-179: one container appended per section, in order. */
  method AppendBody(page0: string, results: seq<Field>) returns (page: string)
    ensures page == page0 + BodyPassAsWritten(results)
    ensures PlainKeys(results) ==> page == page0 + BodyPass(results)
  {
    page := page0;
    var i := 0;
    while i < |results|
      invariant 0 <= i <= |results|
      invariant page + BodyPassAsWritten(results[i..]) == page0 + BodyPassAsWritten(results)
    {
      BodyPassAsWrittenStep(results, i);
      page := page + SectionAsWritten(results[i].key, results[i].val);
      i := i + 1;
    }
    if PlainKeys(results) {
      PassesAgree(results);
    }
  }

  /**
    The page built the way lines 20-187 build it, appending to one string.
    The first postcondition only collects what the three loops establish; the
    second is the point: when no section key holds one of `&<>"'` the page is
    the escaped page, which `PageReadsBack` reads back part by part.
   */
  method GenerateReport(target: string, head: string, clock: Clock, results: seq<Field>) returns (page: string)
    ensures page == PageAsWritten(target, head, clock, results)
    ensures PlainKeys(results) ==> page == Page(target, head, clock, results)
  {
    var opening, header, footer := Opening(target, head), Header(target, clock), Footer(target, clock);
    page := AppendNav(opening, results);
    page := AppendSummary(page + header, results);
    page := AppendBody(page + SummaryClose, results);
    page := page + footer;
  }

  // ---------------------------------------------------------------------------
  // Reading the page back

  // The fixed tags and text runs of the page hold no `<` (nor `>` in a tag).

  lemma DoctypeClean()
    ensures Clean(Tag("!DOCTYPE html")) && Clean(Tag("html lang=\"en\""))
  {
  }

  lemma MetaClean()
    ensures Clean(Tag("meta charset=\"UTF-8\"")) && Clean(Tag("head")) && Clean(Tag("title"))
  {
  }

  lemma BreaksClean()
    ensures Clean(Text("\n")) && Clean(Text("\n\n")) && Clean(Text("\n    ")) && Clean(Text("\n        "))
    ensures Clean(Text("\n\n    ")) && Clean(Text("\n            "))
  {
  }

  lemma OpeningStartClean()
    ensures AllClean(OpeningStart)
  {
    DoctypeClean();
    MetaClean();
    BreaksClean();
  }

  lemma NavEndClean()
    ensures Clean(Tag("/ul")) && Clean(Tag("/nav")) && Clean(Tag("main")) && Clean(Tag("header"))
  {
  }

  lemma TitleLineClean()
    ensures Clean(Tag("h1")) && Clean(Text("\U{1F6E1}\U{FE0F} Recon Report")) && Clean(Tag("/h1"))
  {
  }

  lemma TargetLineClean()
    ensures Clean(Tag("p")) && Clean(Text("Target: ")) && Clean(Tag("strong"))
  {
  }

  lemma HeaderStartClean()
    ensures AllClean(HeaderStart)
  {
    NavEndClean();
    TitleLineClean();
    TargetLineClean();
    BreaksClean();
  }

  lemma SummaryCardClean()
    ensures Clean(Tag("/header")) && Clean(Tag("div class=\"card\" id=\"summary\""))
  {
  }

  lemma SummaryTitleClean()
    ensures Clean(Tag("h2")) && Clean(Text("\U{1F4CB} Summary")) && Clean(Tag("/h2")) && Clean(Tag("table"))
  {
  }

  lemma SummaryHeadClean()
    ensures Clean(Tag("tr")) && Clean(Tag("th")) && Clean(Text("Section")) && Clean(Tag("/th"))
    ensures Clean(Text("Status")) && Clean(Tag("/tr"))
  {
  }

  lemma HeaderEndClean()
    ensures AllClean(HeaderEnd)
  {
    SummaryCardClean();
    SummaryTitleClean();
    SummaryHeadClean();
    BreaksClean();
  }

  lemma PageEndClean()
    ensures Clean(Tag("/strong")) && Clean(Tag("/footer")) && Clean(Tag("/main")) && Clean(Tag("/body"))
    ensures Clean(Tag("/html"))
  {
  }

  lemma FooterEndClean()
    ensures AllClean(FooterEnd)
  {
    PageEndClean();
    BreaksClean();
  }

  lemma OpeningClosed(target: string, hp: seq<Piece>)
    requires Closed(hp) && hp != []
    ensures Closed(OpeningPieces(target) + hp)
  {
    OpeningStartClean();
    assert Clean(Text(TitlePrefix)) && Clean(Tag("/title")) && Clean(Text("\n"));
    CleanInert(Escape(target));
    CleanTextAppend(TitlePrefix, Escape(target));
    var title := [Text(TitlePrefix + Escape(target)), Tag("/title"), Text("\n")];
    assert AllClean(title);
    AllCleanAppend(OpeningStart, title);
    AllCleanAppend(OpeningPieces(target), hp);
    assert (OpeningPieces(target) + hp)[|OpeningPieces(target) + hp| - 1] == hp[|hp| - 1];
  }

  lemma HeaderClosed(target: string, clock: Clock)
    requires Clean(Text(clock.stamp))
    ensures Closed(HeaderPieces(target, clock))
  {
    HeaderStartClean();
    HeaderEndClean();
    assert Clean(Text(StampPrefix)) && Clean(Tag("/strong")) && Clean(Tag("/p"));
    CleanInert(Escape(target));
    CleanTextAppend(StampPrefix, clock.stamp);
    var mid := [Text(Escape(target)), Tag("/strong"), Text(StampPrefix + clock.stamp), Tag("/p")];
    assert AllClean(mid);
    AllCleanAppend(HeaderStart, mid);
    AllCleanAppend(HeaderStart + mid, HeaderEnd);
  }

  lemma FooterTextClean(clock: Clock)
    ensures Clean(Text(FooterText(clock)))
  {
    var d := Decimal(clock.year);
    assert Clean(Text("\n        &copy; ")) && Clean(Text(d)) && Clean(Text(" Rapid Recon | Report generated for "));
    CleanTextAppend("\n        &copy; ", d);
    CleanTextAppend("\n        &copy; " + d, " Rapid Recon | Report generated for ");
  }

  lemma FooterClean(target: string, clock: Clock)
    ensures AllClean(FooterPieces(target, clock))
  {
    FooterEndClean();
    FooterTextClean(clock);
    CleanInert(Escape(target));
    assert Clean(Tag("footer")) && Clean(Tag("strong"));
    var start := [Tag("footer"), Text(FooterText(clock)), Tag("strong"), Text(Escape(target))];
    assert AllClean(start);
    AllCleanAppend(start, FooterEnd);
  }

  lemma NavPassSeparates(results: seq<Field>)
    ensures Separates(NavPass(results))
  {
    var pss := NavBlocks(results);
    forall i | 0 <= i < |pss|
      ensures Closed(pss[i])
    {
      NavPiecesClean(results[i].key);
    }
    ClosedFlat(pss);
    SeparatesClosed(Flat(pss));
    NavPassFlattens(results);
  }

  lemma SummaryPassSeparates(results: seq<Field>)
    ensures Separates(SummaryPass(results))
  {
    var pss := SummaryBlocks(results);
    forall i | 0 <= i < |pss|
      ensures Closed(pss[i])
    {
      SummaryPiecesClean(results[i].key, results[i].val);
    }
    ClosedFlat(pss);
    SeparatesClosed(Flat(pss));
    SummaryPassFlattens(results);
  }

  lemma BodyPassSeparates(results: seq<Field>)
    ensures Separates(BodyPass(results))
  {
    var pss := SectionBlocks(results);
    forall i | 0 <= i < |pss|
      ensures Closed(pss[i])
    {
      SectionPiecesClean(results[i].key, results[i].val);
    }
    ClosedFlat(pss);
    SeparatesClosed(Flat(pss));
    BodyPassFlattens(results);
  }

  lemma OpeningSeparates(target: string, hp: seq<Piece>)
    requires Closed(hp) && hp != []
    ensures Separates(Opening(target, Flatten(hp)))
  {
    OpeningClosed(target, hp);
    SeparatesClosed(OpeningPieces(target) + hp);
    FlattenAppend(OpeningPieces(target), hp);
  }

  lemma HeaderSeparates(target: string, clock: Clock)
    requires Clean(Text(clock.stamp))
    ensures Separates(Header(target, clock))
  {
    HeaderClosed(target, clock);
    SeparatesClosed(HeaderPieces(target, clock));
  }

  lemma SummaryCloseSeparates()
    ensures Separates(SummaryClose)
  {
    assert Closed(SummaryClosePieces);
    SeparatesClosed(SummaryClosePieces);
  }

  lemma LexSeven(o: string, n: string, h: string, s: string, c: string, b: string, f: string)
    requires Separates(o) && Separates(n) && Separates(h) && Separates(s) && Separates(c) && Separates(b)
    ensures Lex(o + n + h + s + c + b + f) == Lex(o) + Lex(n) + Lex(h) + Lex(s) + Lex(c) + Lex(b) + Lex(f)
  {
    var r5 := b + f;
    var r4 := c + r5;
    var r3 := s + r4;
    var r2 := h + r3;
    var r1 := n + r2;
    AppendAssoc(o + n + h + s + c, b, f);
    AppendAssoc(o + n + h + s, c, r5);
    AppendAssoc(o + n + h, s, r4);
    AppendAssoc(o + n, h, r3);
    AppendAssoc(o, n, r2);
    LexSplit(b, f);
    LexSplit(c, r5);
    LexSplit(s, r4);
    LexSplit(h, r3);
    LexSplit(n, r2);
    LexSplit(o, r1);
    var lo, ln, lh, ls, lc, lb, lf := Lex(o), Lex(n), Lex(h), Lex(s), Lex(c), Lex(b), Lex(f);
    AppendAssoc(lo + ln + lh + ls + lc, lb, lf);
    AppendAssoc(lo + ln + lh + ls, lc, lb + lf);
    AppendAssoc(lo + ln + lh, ls, lc + (lb + lf));
    AppendAssoc(lo + ln, lh, ls + (lc + (lb + lf)));
    AppendAssoc(lo, ln, lh + (ls + (lc + (lb + lf))));
  }

  lemma SummaryCloseReadsBack()
    ensures Lex(SummaryClose) == [Tag("/table"), Tag("/div")]
  {
    assert AllClean(SummaryClosePieces);
    LexFlatten(SummaryClosePieces);
  }

  /**
    Read back, the page is its parts read back one after another: the
    opening, one navigation entry per section, the header, one summary row
    per section, the end of the summary table, one container per section and
    the footer.  No section can run into the next part or the chrome, as
    long as the fixed head text is itself closed markup (it ends with the
    summary link's `</li>`) and the time stamp holds no `<`.
   */
  lemma PageReadsBack(target: string, hp: seq<Piece>, clock: Clock, results: seq<Field>)
    requires Closed(hp) && hp != []
    requires Clean(Text(clock.stamp))
    ensures Lex(Page(target, Flatten(hp), clock, results)) ==
            Lex(Opening(target, Flatten(hp))) + Flat(NavEntries(results)) + Lex(Header(target, clock))
            + Flat(SummaryEntries(results)) + [Tag("/table"), Tag("/div")] + Flat(SectionEntries(results))
            + Lex(Footer(target, clock))
  {
    OpeningSeparates(target, hp);
    HeaderSeparates(target, clock);
    SummaryCloseSeparates();
    NavPassSeparates(results);
    SummaryPassSeparates(results);
    BodyPassSeparates(results);
    LexSeven(Opening(target, Flatten(hp)), NavPass(results), Header(target, clock), SummaryPass(results),
             SummaryClose, BodyPass(results), Footer(target, clock));
    NavReadsBack(results);
    SummaryReadsBack(results);
    BodyReadsBack(results);
    SummaryCloseReadsBack();
  }

  /** A title run and its closing tag after fixed markup that ends in a tag. */
  lemma NormalizeTitle(start: seq<Piece>, t: string, hp: seq<Piece>)
    requires start != [] && start[|start| - 1].Tag? && t != []
    ensures Normalize(start + [Text(t), Tag("/title"), Text("\n")] + hp) ==
            Normalize(start) + [Text(t), Tag("/title")] + Normalize([Text("\n")] + hp)
  {
    var title, x := [Text(t), Tag("/title")], [Text("\n")] + hp;
    assert [Text(t), Tag("/title"), Text("\n")] == title + [Text("\n")];
    AppendAssoc(start, title + [Text("\n")], hp);
    AppendAssoc(title, [Text("\n")], hp);
    NormalizeTitleRun(start, t, x);
  }

  lemma NormalizeTitleRun(start: seq<Piece>, t: string, x: seq<Piece>)
    requires start != [] && start[|start| - 1].Tag? && t != []
    ensures Normalize(start + ([Text(t), Tag("/title")] + x)) == Normalize(start) + [Text(t), Tag("/title")] + Normalize(x)
  {
    NormalizeAfterTag(start, [Text(t), Tag("/title")] + x);
    NormalizeRunTag(t, "/title", x);
    assert Lone(t) + [Tag("/title")] == [Text(t), Tag("/title")];
    AppendAssoc(Normalize(start), [Text(t), Tag("/title")], Normalize(x));
  }

  lemma OpeningNormalize(target: string, hp: seq<Piece>)
    ensures Normalize(OpeningPieces(target) + hp) ==
            Normalize(OpeningStart) + [Text(TitlePrefix + Escape(target)), Tag("/title")] + Normalize([Text("\n")] + hp)
  {
    assert OpeningStart[|OpeningStart| - 1] == Tag("title");
    NormalizeTitle(OpeningStart, TitlePrefix + Escape(target), hp);
  }

  /**
    The opening reads back as its fixed tags, the title text with the escaped
    target in it, and the head: the target only ever appears as inert text.
   */
  lemma OpeningReadsBack(target: string, hp: seq<Piece>)
    requires Closed(hp) && hp != []
    ensures Lex(Opening(target, Flatten(hp))) ==
            Normalize(OpeningStart) + [Text(TitlePrefix + Escape(target)), Tag("/title")] + Normalize([Text("\n")] + hp)
    ensures Inert(Escape(target))
  {
    OpeningClosed(target, hp);
    FlattenAppend(OpeningPieces(target), hp);
    LexFlatten(OpeningPieces(target) + hp);
    OpeningNormalize(target, hp);
  }

  /** Two runs, each closed by a tag, between fixed markup that ends in a tag and more markup. */
  lemma NormalizeTwoRunsNested(start: seq<Piece>, e: string, st: string, end: seq<Piece>)
    requires start != [] && start[|start| - 1].Tag? && st != []
    ensures Normalize(start + [Text(e), Tag("/strong"), Text(st), Tag("/p")] + end) ==
            Normalize(start) + (Lone(e) + [Tag("/strong")] + ([Text(st)] + [Tag("/p")] + Normalize(end)))
  {
    var a, b := [Text(e), Tag("/strong")], [Text(st), Tag("/p")];
    assert [Text(e), Tag("/strong"), Text(st), Tag("/p")] == a + b;
    AppendAssoc(start, a + b, end);
    AppendAssoc(a, b, end);
    NormalizeAfterTag(start, a + (b + end));
    NormalizeRunTag(e, "/strong", b + end);
    NormalizeRunTag(st, "/p", end);
    assert Lone(st) == [Text(st)];
  }

  lemma RegroupThree<T>(a: seq<T>, b: seq<T>, x: T, y: T, z: T, c: seq<T>)
    ensures a + (b + [x] + ([y] + [z] + c)) == a + b + [x, y, z] + c
  {
  }

  lemma NormalizeTwoRuns(start: seq<Piece>, e: string, st: string, end: seq<Piece>)
    requires start != [] && start[|start| - 1].Tag? && st != []
    ensures Normalize(start + [Text(e), Tag("/strong"), Text(st), Tag("/p")] + end) ==
            Normalize(start) + Lone(e) + [Tag("/strong"), Text(st), Tag("/p")] + Normalize(end)
  {
    NormalizeTwoRunsNested(start, e, st, end);
    RegroupThree(Normalize(start), Lone(e), Tag("/strong"), Text(st), Tag("/p"), Normalize(end));
  }

  lemma HeaderNormalize(target: string, clock: Clock)
    ensures Normalize(HeaderPieces(target, clock)) ==
            Normalize(HeaderStart) + Lone(Escape(target)) + [Tag("/strong"), Text(StampPrefix + clock.stamp), Tag("/p")]
            + Normalize(HeaderEnd)
  {
    assert HeaderStart[|HeaderStart| - 1] == Tag("strong");
    NormalizeTwoRuns(HeaderStart, Escape(target), StampPrefix + clock.stamp, HeaderEnd);
  }

  /**
    The header reads back as its fixed tags around two text runs: the escaped
    target inside `strong`, and the time stamp inside `p`.
   */
  lemma HeaderReadsBack(target: string, clock: Clock)
    requires Clean(Text(clock.stamp))
    ensures Lex(Header(target, clock)) ==
            Normalize(HeaderStart) + Lone(Escape(target)) + [Tag("/strong"), Text(StampPrefix + clock.stamp), Tag("/p")]
            + Normalize(HeaderEnd)
  {
    HeaderClosed(target, clock);
    LexFlatten(HeaderPieces(target, clock));
    HeaderNormalize(target, clock);
  }

  /** A tag, a non-empty run, a tag, then a run in front of markup that starts with a tag. */
  lemma NormalizeFooterShape(o: string, ft: string, s: string, e: string, end: seq<Piece>)
    requires ft != [] && end != [] && end[0].Tag?
    ensures Normalize([Tag(o), Text(ft), Tag(s), Text(e)] + end) == [Tag(o), Text(ft), Tag(s)] + Lone(e) + Normalize(end)
  {
    var start := [Tag(o), Text(ft), Tag(s)];
    assert [Tag(o), Text(ft), Tag(s), Text(e)] == start + [Text(e)];
    AppendAssoc(start, [Text(e)], end);
    NormalizeAfterTag(start, [Text(e)] + end);
    NormalizeStart(o, ft, s);
    NormalizeTagFirst([Text(e)], end);
    assert Normalize([Text(e)]) == Lone(e);
    AppendAssoc(start, Lone(e), Normalize(end));
  }

  lemma NormalizeStart(o: string, ft: string, s: string)
    requires ft != []
    ensures Normalize([Tag(o), Text(ft), Tag(s)]) == [Tag(o), Text(ft), Tag(s)]
  {
    var start := [Tag(o), Text(ft), Tag(s)];
    assert start[1..] == [Text(ft), Tag(s)] && start[1..][1..] == [Tag(s)];
    assert Normalize([Tag(s)]) == [Tag(s)];
  }

  lemma FooterNormalize(target: string, clock: Clock)
    ensures Normalize(FooterPieces(target, clock)) ==
            [Tag("footer"), Text(FooterText(clock)), Tag("strong")] + Lone(Escape(target)) + Normalize(FooterEnd)
  {
    assert FooterEnd[0] == Tag("/strong");
    NormalizeFooterShape("footer", FooterText(clock), "strong", Escape(target), FooterEnd);
  }

  /** The footer reads back as its fixed tags, the line with the year, and the escaped target inside `strong`. */
  lemma FooterReadsBack(target: string, clock: Clock)
    ensures Lex(Footer(target, clock)) ==
            [Tag("footer"), Text(FooterText(clock)), Tag("strong")] + Lone(Escape(target)) + Normalize(FooterEnd)
  {
    FooterClean(target, clock);
    LexFlatten(FooterPieces(target, clock));
    FooterNormalize(target, clock);
  }
}
