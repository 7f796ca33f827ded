/**
  The recursive value-to-HTML transcoder `format_content_as_html`
  (modules/report_generator.py:197-220).

  Dispatch, in the source's priority order:
  - a dict becomes a key/value table whose cells render the values recursively;
  - a list whose every element is a dict becomes one flat "sub-card" per element,
    its values stringified rather than rendered;
  - any other list becomes a `<ul>` of stringified items;
  - `None` becomes the fixed "No Data" badge;
  - anything else becomes its escaped `str()`.

  `Layout` describes the same output as a sequence of markup pieces; the
  theorems below read the rendered text back with `Markup.Lex` and relate it
  to that layout, which is how the no-injection and shape properties are stated.
 */
module Render {
  import opened HtmlEscape
  import opened Values
  import opened Markup

  const NoData: string := "<span class='badge fail'>No Data</span>"
  const HeaderRow: string := "<tr><th>Key</th><th>Value</th></tr>"

  /** The list test of line 207: every element is a dict (vacuously true of the empty list). */
  predicate AllObjects(xs: seq<Value>) {
    forall i :: 0 <= i < |xs| ==> xs[i].Obj?
  }

  /** The values that fall through to the last branch. */
  predicate Scalar(v: Value) {
    !v.Obj? && !v.Arr? && !v.Null?
  }

  /**
    Lines 197-220.  A scalar comes out as inert text; every other value but
    the empty list comes out starting with a tag; the empty list vanishes.
   */
  function Render(v: Value): (r: string)
    ensures Scalar(v) ==> Inert(r)
    ensures !Scalar(v) && v != Arr([]) ==> r != [] && r[0] == '<'
    ensures v == Arr([]) ==> r == []
  {
    match v
    case Obj(fs) => "<table>" + HeaderRow + Rows(fs) + "</table>"
    case Arr(xs) => if AllObjects(xs) then Cards(xs) else "<ul>" + ListItems(xs) + "</ul>"
    case Null => NoData
    case _ => Escape(StrOf(v))
  }

  function Row(key: string, cell: string): string {
    "<tr><td>" + Escape(key) + "</td><td>" + cell + "</td></tr>"
  }

  function Rows(fs: seq<Field>): string {
    if fs == [] then "" else Row(fs[0].key, Render(fs[0].val)) + Rows(fs[1..])
  }

  function CardLine(f: Field): string {
    "<strong>" + Escape(f.key) + "</strong>: " + Escape(StrOf(f.val)) + "<br>"
  }

  function CardLines(fs: seq<Field>): string {
    if fs == [] then "" else CardLine(fs[0]) + CardLines(fs[1..])
  }

  function Card(fs: seq<Field>): string {
    "<div class='sub-card'>" + CardLines(fs) + "</div>"
  }

  function Cards(xs: seq<Value>): string
    requires AllObjects(xs)
  {
    if xs == [] then "" else Card(xs[0].fields) + Cards(xs[1..])
  }

  function ListItem(x: Value): string {
    "<li>" + Escape(StrOf(x)) + "</li>"
  }

  function ListItems(xs: seq<Value>): string {
    if xs == [] then "" else ListItem(xs[0]) + ListItems(xs[1..])
  }

  // ---------------------------------------------------------------------------
  // The same output as markup pieces

  const HeaderLayout: seq<Piece> :=
    Wrap("tr", Wrap("th", [Text("Key")], "/th") + Wrap("th", [Text("Value")], "/th"), "/tr")

  const NoDataLayout: seq<Piece> := Wrap("span class='badge fail'", [Text("No Data")], "/span")

  function Layout(v: Value): seq<Piece> {
    match v
    case Obj(fs) => Wrap("table", HeaderLayout + RowsLayout(fs), "/table")
    case Arr(xs) => if AllObjects(xs) then CardsLayout(xs) else Wrap("ul", ItemsLayout(xs), "/ul")
    case Null => NoDataLayout
    case _ => [Text(Escape(StrOf(v)))]
  }

  function RowLayout(key: string, cell: seq<Piece>): seq<Piece> {
    Wrap("tr", Wrap("td", [Text(Escape(key))], "/td") + Wrap("td", cell, "/td"), "/tr")
  }

  function RowsLayout(fs: seq<Field>): seq<Piece> {
    if fs == [] then [] else RowLayout(fs[0].key, Layout(fs[0].val)) + RowsLayout(fs[1..])
  }

  function CardLineLayout(f: Field): seq<Piece> {
    Wrap("strong", [Text(Escape(f.key))], "/strong") + [Text(": " + Escape(StrOf(f.val))), Tag("br")]
  }

  function CardLinesLayout(fs: seq<Field>): seq<Piece> {
    if fs == [] then [] else CardLineLayout(fs[0]) + CardLinesLayout(fs[1..])
  }

  function CardsLayout(xs: seq<Value>): seq<Piece>
    requires AllObjects(xs)
  {
    if xs == [] then []
    else Wrap("div class='sub-card'", CardLinesLayout(xs[0].fields), "/div") + CardsLayout(xs[1..])
  }

  function ItemLayout(x: Value): seq<Piece> {
    Wrap("li", [Text(Escape(StrOf(x)))], "/li")
  }

  function ItemsLayout(xs: seq<Value>): seq<Piece> {
    if xs == [] then [] else ItemLayout(xs[0]) + ItemsLayout(xs[1..])
  }

  // How each scaffolding tag is written, one small fact at a time.

  lemma TableTags()
    ensures Emit(Tag("table")) == "<table>" && Emit(Tag("/table")) == "</table>"
  {
  }

  lemma RowTags()
    ensures Emit(Tag("tr")) == "<tr>" && Emit(Tag("/tr")) == "</tr>"
    ensures Emit(Tag("td")) == "<td>" && Emit(Tag("/td")) == "</td>"
  {
  }

  lemma HeadTags()
    ensures Emit(Tag("th")) == "<th>" && Emit(Tag("/th")) == "</th>"
  {
  }

  lemma StrongTags()
    ensures Emit(Tag("strong")) == "<strong>" && Emit(Tag("/strong")) == "</strong>"
    ensures Emit(Tag("br")) == "<br>"
  {
  }

  lemma CardTags()
    ensures Emit(Tag("div class='sub-card'")) == "<div class='sub-card'>"
    ensures Emit(Tag("/div")) == "</div>"
  {
  }

  lemma ListTags()
    ensures Emit(Tag("ul")) == "<ul>" && Emit(Tag("/ul")) == "</ul>"
    ensures Emit(Tag("li")) == "<li>" && Emit(Tag("/li")) == "</li>"
  {
  }

  lemma BadgeTags()
    ensures Emit(Tag("span class='badge fail'")) == "<span class='badge fail'>"
    ensures Emit(Tag("/span")) == "</span>"
  {
    BadgeOpenTag();
  }

  lemma BadgeOpenTag()
    ensures Emit(Tag("span class='badge fail'")) == "<span class='badge fail'>"
  {
  }

  lemma RowText(e: string, c: string)
    ensures "<tr>" + (("<td>" + e + "</td>") + ("<td>" + c + "</td>")) + "</tr>"
            == "<tr><td>" + e + "</td><td>" + c + "</td></tr>"
  {
  }

  lemma CardLineText(e: string, x: string)
    ensures ("<strong>" + e + "</strong>") + ((": " + x) + "<br>")
            == "<strong>" + e + "</strong>: " + x + "<br>"
  {
  }

  lemma FlattenRowLayout(key: string, cell: seq<Piece>)
    ensures Flatten(RowLayout(key, cell)) == Row(key, Flatten(cell))
  {
    var e := Escape(key);
    var c := Flatten(cell);
    var a := Wrap("td", [Text(e)], "/td");
    var b := Wrap("td", cell, "/td");
    RowTags();
    FlattenWrap("td", [Text(e)], "/td");
    FlattenText(e);
    assert Flatten(a) == "<td>" + e + "</td>";
    FlattenWrap("td", cell, "/td");
    assert Flatten(b) == "<td>" + c + "</td>";
    FlattenAppend(a, b);
    FlattenWrap("tr", a + b, "/tr");
    assert Flatten(RowLayout(key, cell)) == "<tr>" + (("<td>" + e + "</td>") + ("<td>" + c + "</td>")) + "</tr>";
    RowText(e, c);
  }

  lemma FlattenCardLineLayout(f: Field)
    ensures Flatten(CardLineLayout(f)) == CardLine(f)
  {
    var e := Escape(f.key);
    var x := Escape(StrOf(f.val));
    var a := Wrap("strong", [Text(e)], "/strong");
    var b := [Text(": " + x), Tag("br")];
    StrongTags();
    FlattenWrap("strong", [Text(e)], "/strong");
    FlattenText(e);
    assert Flatten(a) == "<strong>" + e + "</strong>";
    assert b == [Text(": " + x)] + [Tag("br")];
    FlattenAppend([Text(": " + x)], [Tag("br")]);
    assert Flatten(b) == (": " + x) + "<br>";
    FlattenAppend(a, b);
    CardLineText(e, x);
  }

  lemma {:induction false} FlattenCardLines(fs: seq<Field>)
    ensures Flatten(CardLinesLayout(fs)) == CardLines(fs)
  {
    if fs != [] {
      FlattenAppend(CardLineLayout(fs[0]), CardLinesLayout(fs[1..]));
      FlattenCardLineLayout(fs[0]);
      FlattenCardLines(fs[1..]);
    }
  }

  lemma {:induction false} FlattenCards(xs: seq<Value>)
    requires AllObjects(xs)
    ensures Flatten(CardsLayout(xs)) == Cards(xs)
  {
    if xs != [] {
      var lines := CardLinesLayout(xs[0].fields);
      var c := Wrap("div class='sub-card'", lines, "/div");
      CardTags();
      FlattenWrap("div class='sub-card'", lines, "/div");
      FlattenCardLines(xs[0].fields);
      assert Flatten(c) == Card(xs[0].fields);
      FlattenAppend(c, CardsLayout(xs[1..]));
      FlattenCards(xs[1..]);
    }
  }

  lemma FlattenItemLayout(x: Value)
    ensures Flatten(ItemLayout(x)) == ListItem(x)
  {
    ListTags();
    FlattenWrap("li", [Text(Escape(StrOf(x)))], "/li");
    FlattenText(Escape(StrOf(x)));
  }

  lemma {:induction false} FlattenItems(xs: seq<Value>)
    ensures Flatten(ItemsLayout(xs)) == ListItems(xs)
  {
    if xs != [] {
      FlattenAppend(ItemLayout(xs[0]), ItemsLayout(xs[1..]));
      FlattenItemLayout(xs[0]);
      FlattenItems(xs[1..]);
    }
  }

  lemma FlattenNoData()
    ensures Flatten(NoDataLayout) == NoData
  {
    BadgeTags();
    FlattenWrap("span class='badge fail'", [Text("No Data")], "/span");
    FlattenText("No Data");
    assert Flatten(NoDataLayout) == "<span class='badge fail'>" + "No Data" + "</span>";
  }

  lemma HeaderText()
    ensures "<tr>" + (("<th>" + "Key" + "</th>") + ("<th>" + "Value" + "</th>")) + "</tr>" == HeaderRow
  {
  }

  lemma FlattenHeader()
    ensures Flatten(HeaderLayout) == HeaderRow
  {
    var a := Wrap("th", [Text("Key")], "/th");
    var b := Wrap("th", [Text("Value")], "/th");
    HeadTags();
    RowTags();
    FlattenWrap("th", [Text("Key")], "/th");
    FlattenText("Key");
    assert Flatten(a) == "<th>" + "Key" + "</th>";
    FlattenWrap("th", [Text("Value")], "/th");
    FlattenText("Value");
    assert Flatten(b) == "<th>" + "Value" + "</th>";
    FlattenAppend(a, b);
    FlattenWrap("tr", a + b, "/tr");
    HeaderText();
  }

  /** The layout written out is exactly the rendered text. */
  lemma {:induction false} FlattenLayout(v: Value)
    ensures Flatten(Layout(v)) == Render(v)
    decreases v, 1
  {
    match v
    case Obj(fs) =>
      FlattenRows(fs);
      FlattenTable(fs);
    case Arr(xs) =>
      FlattenList(xs);
    case Null =>
      FlattenNoData();
    case _ =>
      FlattenText(Escape(StrOf(v)));
  }

  lemma FlattenTable(fs: seq<Field>)
    requires Flatten(RowsLayout(fs)) == Rows(fs)
    ensures Flatten(Layout(Obj(fs))) == Render(Obj(fs))
  {
    TableTags();
    FlattenWrap("table", HeaderLayout + RowsLayout(fs), "/table");
    FlattenAppend(HeaderLayout, RowsLayout(fs));
    FlattenHeader();
  }

  lemma FlattenList(xs: seq<Value>)
    ensures Flatten(Layout(Arr(xs))) == Render(Arr(xs))
  {
    if AllObjects(xs) {
      FlattenCards(xs);
    } else {
      ListTags();
      FlattenWrap("ul", ItemsLayout(xs), "/ul");
      FlattenItems(xs);
    }
  }

  lemma {:induction false} FlattenRows(fs: seq<Field>)
    ensures Flatten(RowsLayout(fs)) == Rows(fs)
    decreases fs, 0
  {
    if fs != [] {
      FlattenAppend(RowLayout(fs[0].key, Layout(fs[0].val)), RowsLayout(fs[1..]));
      FlattenRowLayout(fs[0].key, Layout(fs[0].val));
      FlattenLayout(fs[0].val);
      FlattenRows(fs[1..]);
    }
  }

  // ---------------------------------------------------------------------------
  // Reading the output back

  /** The only tags the transcoder ever writes. */
  const RenderTags: set<string> := {
    "table", "/table", "tr", "/tr", "th", "/th", "td", "/td",
    "div class='sub-card'", "/div", "strong", "/strong", "br",
    "ul", "/ul", "li", "/li", "span class='badge fail'", "/span"
  }

  lemma CleanTableTags()
    ensures Clean(Tag("table")) && Clean(Tag("/table")) && Clean(Tag("tr")) && Clean(Tag("/tr"))
  {
  }

  lemma CleanCellTags()
    ensures Clean(Tag("th")) && Clean(Tag("/th")) && Clean(Tag("td")) && Clean(Tag("/td"))
  {
  }

  lemma CleanCardLineTags()
    ensures Clean(Tag("/div")) && Clean(Tag("strong")) && Clean(Tag("/strong")) && Clean(Tag("br"))
  {
  }

  lemma CleanListTags()
    ensures Clean(Tag("ul")) && Clean(Tag("/ul")) && Clean(Tag("li")) && Clean(Tag("/li")) && Clean(Tag("/span"))
  {
  }

  lemma CleanCardTag()
    ensures Clean(Tag("div class='sub-card'"))
  {
  }

  lemma CleanBadgeTag()
    ensures Clean(Tag("span class='badge fail'"))
  {
  }

  lemma RenderTagsClean()
    ensures CleanTags(RenderTags)
  {
    CleanTableTags();
    CleanCellTags();
    CleanCardLineTags();
    CleanListTags();
    CleanCardTag();
    CleanBadgeTag();
  }

  lemma ScaffoldedWrap(open: string, inner: seq<Piece>, close: string)
    requires open in RenderTags && close in RenderTags
    requires Scaffolded(inner, RenderTags)
    ensures Scaffolded(Wrap(open, inner, close), RenderTags)
  {
    ScaffoldedAppend([Tag(open)], inner, RenderTags);
    ScaffoldedAppend([Tag(open)] + inner, [Tag(close)], RenderTags);
  }

  lemma ScaffoldedText(t: string)
    requires Inert(t)
    ensures Scaffolded([Text(t)], RenderTags)
  {
  }

  lemma ScaffoldedRowLayout(key: string, cell: seq<Piece>)
    requires Scaffolded(cell, RenderTags)
    ensures Scaffolded(RowLayout(key, cell), RenderTags)
  {
    ScaffoldedText(Escape(key));
    ScaffoldedWrap("td", [Text(Escape(key))], "/td");
    ScaffoldedWrap("td", cell, "/td");
    ScaffoldedAppend(Wrap("td", [Text(Escape(key))], "/td"), Wrap("td", cell, "/td"), RenderTags);
    ScaffoldedWrap("tr", Wrap("td", [Text(Escape(key))], "/td") + Wrap("td", cell, "/td"), "/tr");
  }

  lemma ScaffoldedCardLine(f: Field)
    ensures Scaffolded(CardLineLayout(f), RenderTags)
  {
    var x := Escape(StrOf(f.val));
    ScaffoldedText(Escape(f.key));
    ScaffoldedWrap("strong", [Text(Escape(f.key))], "/strong");
    InertAppend(": ", x);
    assert Scaffolded([Text(": " + x), Tag("br")], RenderTags);
    ScaffoldedAppend(Wrap("strong", [Text(Escape(f.key))], "/strong"), [Text(": " + x), Tag("br")], RenderTags);
  }

  lemma {:induction false} ScaffoldedCardLines(fs: seq<Field>)
    ensures Scaffolded(CardLinesLayout(fs), RenderTags)
  {
    if fs != [] {
      ScaffoldedCardLine(fs[0]);
      ScaffoldedCardLines(fs[1..]);
      ScaffoldedAppend(CardLineLayout(fs[0]), CardLinesLayout(fs[1..]), RenderTags);
    }
  }

  lemma {:induction false} ScaffoldedCards(xs: seq<Value>)
    requires AllObjects(xs)
    ensures Scaffolded(CardsLayout(xs), RenderTags)
  {
    if xs != [] {
      ScaffoldedCardLines(xs[0].fields);
      ScaffoldedWrap("div class='sub-card'", CardLinesLayout(xs[0].fields), "/div");
      ScaffoldedCards(xs[1..]);
      ScaffoldedAppend(Wrap("div class='sub-card'", CardLinesLayout(xs[0].fields), "/div"), CardsLayout(xs[1..]), RenderTags);
    }
  }

  lemma {:induction false} ScaffoldedItems(xs: seq<Value>)
    ensures Scaffolded(ItemsLayout(xs), RenderTags)
  {
    if xs != [] {
      ScaffoldedText(Escape(StrOf(xs[0])));
      ScaffoldedWrap("li", [Text(Escape(StrOf(xs[0])))], "/li");
      ScaffoldedItems(xs[1..]);
      ScaffoldedAppend(ItemLayout(xs[0]), ItemsLayout(xs[1..]), RenderTags);
    }
  }

  lemma ScaffoldedHeader()
    ensures Scaffolded(HeaderLayout, RenderTags)
  {
    ScaffoldedWrap("th", [Text("Key")], "/th");
    ScaffoldedWrap("th", [Text("Value")], "/th");
    ScaffoldedAppend(Wrap("th", [Text("Key")], "/th"), Wrap("th", [Text("Value")], "/th"), RenderTags);
    ScaffoldedWrap("tr", Wrap("th", [Text("Key")], "/th") + Wrap("th", [Text("Value")], "/th"), "/tr");
  }

  lemma {:induction false} ScaffoldedLayout(v: Value)
    ensures Scaffolded(Layout(v), RenderTags)
    decreases v, 1
  {
    match v
    case Obj(fs) =>
      ScaffoldedHeader();
      ScaffoldedRows(fs);
      ScaffoldedAppend(HeaderLayout, RowsLayout(fs), RenderTags);
      ScaffoldedWrap("table", HeaderLayout + RowsLayout(fs), "/table");
    case Arr(xs) =>
      if AllObjects(xs) {
        ScaffoldedCards(xs);
      } else {
        ScaffoldedItems(xs);
        ScaffoldedWrap("ul", ItemsLayout(xs), "/ul");
      }
    case Null =>
      ScaffoldedWrap("span class='badge fail'", [Text("No Data")], "/span");
    case _ =>
      ScaffoldedText(Escape(StrOf(v)));
  }

  lemma {:induction false} ScaffoldedRows(fs: seq<Field>)
    ensures Scaffolded(RowsLayout(fs), RenderTags)
    decreases fs, 0
  {
    if fs != [] {
      ScaffoldedLayout(fs[0].val);
      ScaffoldedRowLayout(fs[0].key, Layout(fs[0].val));
      ScaffoldedRows(fs[1..]);
      ScaffoldedAppend(RowLayout(fs[0].key, Layout(fs[0].val)), RowsLayout(fs[1..]), RenderTags);
    }
  }

  /**
    No injection: read back as markup, the rendered text of any value is
    exactly its layout, every tag in it is one of the transcoder's own
    scaffolding tags, and every text run is inert.  Whatever the data holds,
    it never shows up as a tag or closes one.
   */
  lemma RenderReadsBack(v: Value)
    ensures Lex(Render(v)) == Normalize(Layout(v))
    ensures Scaffolded(Lex(Render(v)), RenderTags)
  {
    FlattenLayout(v);
    ScaffoldedLayout(v);
    RenderTagsClean();
    LexScaffolded(Layout(v), RenderTags);
  }

  // ---------------------------------------------------------------------------
  // The five branches, one lemma each

  lemma {:induction false} RowsJoin(fs: seq<Field>)
    ensures Rows(fs) == Join(seq(|fs|, i requires 0 <= i < |fs| => Row(fs[i].key, Render(fs[i].val))))
  {
    var parts := seq(|fs|, i requires 0 <= i < |fs| => Row(fs[i].key, Render(fs[i].val)));
    if fs != [] {
      RowsJoin(fs[1..]);
      assert parts[1..] == seq(|fs[1..]|, i requires 0 <= i < |fs[1..]| => Row(fs[1..][i].key, Render(fs[1..][i].val)));
    }
  }

  function CellTags(cell: seq<string>): seq<string> {
    ["tr", "td", "/td", "td"] + cell + ["/td", "/tr"]
  }

  /** Per key in order, a row around exactly the tags of that value's own rendering. */
  function RowsTags(fs: seq<Field>): seq<string> {
    if fs == [] then [] else CellTags(TagsOf(Lex(Render(fs[0].val)))) + RowsTags(fs[1..])
  }

  /** The tags of the header row. */
  const HeaderTags: seq<string> := ["tr", "th", "/th", "th", "/th", "/tr"]

  lemma TagsOfHeader()
    ensures TagsOf(HeaderLayout) == HeaderTags
  {
    TagsOfWrap("th", [Text("Key")], "/th");
    TagsOfWrap("th", [Text("Value")], "/th");
    TagsOfAppend(Wrap("th", [Text("Key")], "/th"), Wrap("th", [Text("Value")], "/th"));
    TagsOfWrap("tr", Wrap("th", [Text("Key")], "/th") + Wrap("th", [Text("Value")], "/th"), "/tr");
  }

  lemma TagsOfRowLayout(key: string, cell: seq<Piece>)
    ensures TagsOf(RowLayout(key, cell)) == CellTags(TagsOf(cell))
  {
    var a := Wrap("td", [Text(Escape(key))], "/td");
    var b := Wrap("td", cell, "/td");
    TagsOfWrap("td", [Text(Escape(key))], "/td");
    TagsOfWrap("td", cell, "/td");
    TagsOfAppend(a, b);
    TagsOfWrap("tr", a + b, "/tr");
  }

  lemma {:induction false} TagsOfRows(fs: seq<Field>)
    ensures TagsOf(RowsLayout(fs)) == RowsTags(fs)
  {
    if fs != [] {
      TagsOfAppend(RowLayout(fs[0].key, Layout(fs[0].val)), RowsLayout(fs[1..]));
      TagsOfRowLayout(fs[0].key, Layout(fs[0].val));
      RenderReadsBack(fs[0].val);
      TagsOfNormalize(Layout(fs[0].val));
      TagsOfRows(fs[1..]);
    }
  }

  /**
    A dict renders as a table: the header row, then one row per key in
    iteration order holding the escaped key and the recursively rendered
    value.  Read back, the table's tags are the header's and, per key, a row
    around exactly the tags of that value's own rendering.
   */
  lemma RenderObject(fs: seq<Field>)
    ensures Render(Obj(fs)) ==
            "<table>" + HeaderRow
            + Join(seq(|fs|, i requires 0 <= i < |fs| => Row(fs[i].key, Render(fs[i].val))))
            + "</table>"
    ensures TagsOf(Lex(Render(Obj(fs)))) ==
            ["table"] + HeaderTags + RowsTags(fs) + ["/table"]
  {
    RowsJoin(fs);
    RenderReadsBack(Obj(fs));
    TagsOfNormalize(Layout(Obj(fs)));
    TagsOfTable(fs);
  }

  lemma TagsOfTable(fs: seq<Field>)
    ensures TagsOf(Layout(Obj(fs))) ==
            ["table"] + HeaderTags + RowsTags(fs) + ["/table"]
  {
    var rows := RowsTags(fs);
    TagsOfWrap("table", HeaderLayout + RowsLayout(fs), "/table");
    TagsOfAppend(HeaderLayout, RowsLayout(fs));
    TagsOfHeader();
    TagsOfRows(fs);
    AppendAround("table", HeaderTags, rows, "/table");
  }

  lemma {:induction false} CardsJoin(xs: seq<Value>)
    requires AllObjects(xs)
    ensures Cards(xs) == Join(seq(|xs|, i requires 0 <= i < |xs| => Card(xs[i].fields)))
  {
    var parts := seq(|xs|, i requires 0 <= i < |xs| => Card(xs[i].fields));
    if xs != [] {
      CardsJoin(xs[1..]);
      assert parts[1..] == seq(|xs[1..]|, i requires 0 <= i < |xs[1..]| => Card(xs[1..][i].fields));
    }
  }

  /** The lines of a sub-card, one per field. */
  function LineParts(fs: seq<Field>): seq<string> {
    Map(CardLine, fs)
  }

  lemma {:induction false} CardLinesJoin(fs: seq<Field>)
    ensures CardLines(fs) == Join(LineParts(fs))
  {
    if fs != [] {
      CardLinesJoin(fs[1..]);
      MapCons(CardLine, fs);
    }
  }

  function CardTagList(n: nat): seq<string> {
    ["div class='sub-card'"] + Repeat(["strong", "/strong", "br"], n) + ["/div"]
  }

  lemma TagsOfCardLine(f: Field)
    ensures TagsOf(CardLineLayout(f)) == ["strong", "/strong", "br"]
  {
    var a := Wrap("strong", [Text(Escape(f.key))], "/strong");
    var b := [Text(": " + Escape(StrOf(f.val))), Tag("br")];
    TagsOfWrap("strong", [Text(Escape(f.key))], "/strong");
    TagsOfAppend(a, b);
    assert b[1..] == [Tag("br")];
    assert TagsOf([Tag("br")]) == ["br"];
    assert TagsOf(b) == ["br"];
  }

  lemma {:induction false} TagsOfCardLines(fs: seq<Field>)
    ensures TagsOf(CardLinesLayout(fs)) == Repeat(["strong", "/strong", "br"], |fs|)
  {
    if fs != [] {
      TagsOfCardLine(fs[0]);
      TagsOfAppend(CardLineLayout(fs[0]), CardLinesLayout(fs[1..]));
      TagsOfCardLines(fs[1..]);
    }
  }

  function CardTagLists(xs: seq<Value>): seq<seq<string>>
    requires AllObjects(xs)
  {
    seq(|xs|, i requires 0 <= i < |xs| => CardTagList(|xs[i].fields|))
  }

  lemma CardTagListsTail(xs: seq<Value>)
    requires AllObjects(xs) && xs != []
    ensures CardTagLists(xs)[0] == CardTagList(|xs[0].fields|)
    ensures CardTagLists(xs)[1..] == CardTagLists(xs[1..])
  {
    var parts := CardTagLists(xs);
    var tail := CardTagLists(xs[1..]);
    forall i | 0 <= i < |tail|
      ensures parts[1..][i] == tail[i]
    {
      assert parts[1..][i] == parts[i + 1];
    }
  }

  lemma {:induction false} TagsOfCards(xs: seq<Value>)
    requires AllObjects(xs)
    ensures TagsOf(CardsLayout(xs)) == Flat(CardTagLists(xs))
  {
    if xs != [] {
      var c := Wrap("div class='sub-card'", CardLinesLayout(xs[0].fields), "/div");
      TagsOfAppend(c, CardsLayout(xs[1..]));
      TagsOfWrap("div class='sub-card'", CardLinesLayout(xs[0].fields), "/div");
      TagsOfCardLines(xs[0].fields);
      TagsOfCards(xs[1..]);
      CardTagListsTail(xs);
    }
  }

  lemma CardText(fs: seq<Field>)
    ensures Card(fs) == "<div class='sub-card'>"
                        + Join(seq(|fs|, j requires 0 <= j < |fs| =>
                                     "<strong>" + Escape(fs[j].key) + "</strong>: " + Escape(StrOf(fs[j].val)) + "<br>"))
                        + "</div>"
  {
    CardLinesJoin(fs);
    assert LineParts(fs)
        == seq(|fs|, j requires 0 <= j < |fs| => "<strong>" + Escape(fs[j].key) + "</strong>: " + Escape(StrOf(fs[j].val)) + "<br>");
  }

  /**
    A list of dicts renders as one sub-card per element, in order; each card
    lists every key with its stringified (not rendered) value.  The empty
    list is such a list and renders as nothing at all.  Read back, a card's
    tags depend only on how many keys it has: nothing inside a value becomes
    markup, however deeply it nests.
   */
  lemma RenderRecordList(xs: seq<Value>)
    requires AllObjects(xs)
    ensures Render(Arr(xs)) == Join(seq(|xs|, i requires 0 <= i < |xs| => Card(xs[i].fields)))
    ensures forall i :: 0 <= i < |xs| ==>
              Card(xs[i].fields) == "<div class='sub-card'>"
                                    + Join(seq(|xs[i].fields|, j requires 0 <= j < |xs[i].fields| =>
                                                 "<strong>" + Escape(xs[i].fields[j].key) + "</strong>: "
                                                 + Escape(StrOf(xs[i].fields[j].val)) + "<br>"))
                                    + "</div>"
    ensures TagsOf(Lex(Render(Arr(xs)))) == Flat(seq(|xs|, i requires 0 <= i < |xs| => CardTagList(|xs[i].fields|)))
    ensures xs == [] ==> Render(Arr(xs)) == ""
  {
    CardsJoin(xs);
    forall i | 0 <= i < |xs|
      ensures Card(xs[i].fields) == "<div class='sub-card'>"
                                    + Join(seq(|xs[i].fields|, j requires 0 <= j < |xs[i].fields| =>
                                                 "<strong>" + Escape(xs[i].fields[j].key) + "</strong>: "
                                                 + Escape(StrOf(xs[i].fields[j].val)) + "<br>"))
                                    + "</div>"
    {
      CardText(xs[i].fields);
    }
    RenderReadsBack(Arr(xs));
    TagsOfNormalize(Layout(Arr(xs)));
    TagsOfCards(xs);
  }

  lemma {:induction false} ItemsJoinMap(xs: seq<Value>)
    ensures ListItems(xs) == Join(Map(ListItem, xs))
  {
    if xs != [] {
      ItemsJoinMap(xs[1..]);
      MapCons(ListItem, xs);
    }
  }

  lemma ItemsSeq(xs: seq<Value>)
    ensures Map(ListItem, xs) == seq(|xs|, i requires 0 <= i < |xs| => "<li>" + Escape(StrOf(xs[i])) + "</li>")
  {
    var m := Map(ListItem, xs);
    forall i | 0 <= i < |xs|
      ensures m[i] == "<li>" + Escape(StrOf(xs[i])) + "</li>"
    {
      assert m[i] == ListItem(xs[i]);
    }
  }

  lemma ItemsJoin(xs: seq<Value>)
    ensures ListItems(xs) == Join(seq(|xs|, i requires 0 <= i < |xs| => "<li>" + Escape(StrOf(xs[i])) + "</li>"))
  {
    ItemsJoinMap(xs);
    ItemsSeq(xs);
  }

  lemma {:induction false} TagsOfItems(xs: seq<Value>)
    ensures TagsOf(ItemsLayout(xs)) == Repeat(["li", "/li"], |xs|)
  {
    if xs != [] {
      TagsOfWrap("li", [Text(Escape(StrOf(xs[0])))], "/li");
      TagsOfAppend(ItemLayout(xs[0]), ItemsLayout(xs[1..]));
      TagsOfItems(xs[1..]);
    }
  }

  /**
    Any other list is necessarily non-empty and renders as a `<ul>` with one
    `<li>` per element, in order, holding the element's escaped `str()`.  Read
    back, its tags are exactly `ul`, one `li` pair per element, and `/ul`:
    a dict or list inside such a list never becomes a table or a nested list.
   */
  lemma RenderGenericList(xs: seq<Value>)
    requires !AllObjects(xs)
    ensures xs != []
    ensures Render(Arr(xs)) ==
            "<ul>" + Join(seq(|xs|, i requires 0 <= i < |xs| => "<li>" + Escape(StrOf(xs[i])) + "</li>")) + "</ul>"
    ensures TagsOf(Lex(Render(Arr(xs)))) == ["ul"] + Repeat(["li", "/li"], |xs|) + ["/ul"]
  {
    ItemsJoin(xs);
    RenderReadsBack(Arr(xs));
    TagsOfNormalize(Layout(Arr(xs)));
    TagsOfWrap("ul", ItemsLayout(xs), "/ul");
    TagsOfItems(xs);
  }

  /**
    `None` renders as the fixed "No Data" badge, which reads back as one
    badge element around the words "No Data"; since a dict cell holds the
    rendering of its value (`RenderObject`), a `None` at any depth of dicts
    shows the same badge.
   */
  lemma RenderNull()
    ensures Render(Null) == NoData
    ensures Lex(Render(Null)) == [Tag("span class='badge fail'"), Text("No Data"), Tag("/span")]
  {
    RenderReadsBack(Null);
  }

  /**
    Any other value renders as its escaped `str()`: read back it is at most
    one text run and no tag, and decoding the entities gives `str()` back.
   */
  lemma RenderScalar(v: Value)
    requires Scalar(v)
    ensures Render(v) == Escape(StrOf(v))
    ensures Unescape(Render(v)) == StrOf(v)
    ensures Lex(Render(v)) == if StrOf(v) == "" then [] else [Text(Escape(StrOf(v)))]
  {
    UnescapeEscape(StrOf(v));
    RenderReadsBack(v);
    if StrOf(v) == "" {
      assert Escape(StrOf(v)) == "";
    } else {
      assert |Escape(StrOf(v))| > 0;
    }
  }

  /**
    Values inside a sub-card or a generic list item are stringified, not
    rendered: `None` there reads "None" and never shows the "No Data" badge.
   */
  lemma NullInsideFlatBranches(key: string)
    ensures CardLine(Field(key, Null)) == "<strong>" + Escape(key) + "</strong>: " + "None" + "<br>"
    ensures ListItem(Null) == "<li>" + "None" + "</li>"
  {
    EscapeNone();
  }

  lemma EscapeNone()
    ensures Escape(StrOf(Null)) == "None"
  {
    assert StrOf(Null) == "None";
    assert Plain("None");
    EscapeFixedPoint("None");
  }

  predicate HasMarkup(s: string) {
    exists i :: 0 <= i < |s| && s[i] == '<'
  }

  /**
    The rendered text contains markup exactly when the value is a dict, a
    non-empty list or `None`; scalars and the empty list yield plain text.
   */
  lemma RenderHasMarkup(v: Value)
    ensures HasMarkup(Render(v)) <==> !(Scalar(v) || v == Arr([]))
  {
    match v
    case Obj(fs) =>
      assert Render(v)[0] == '<';
    case Arr(xs) =>
      if xs == [] {
        assert Render(v) == "";
      } else if AllObjects(xs) {
        assert Render(v) == Card(xs[0].fields) + Cards(xs[1..]);
        assert Render(v)[0] == '<';
      } else {
        assert Render(v)[0] == '<';
      }
    case Null =>
      assert Render(v)[0] == '<';
    case _ =>
      assert Inert(Render(v));
  }
}
