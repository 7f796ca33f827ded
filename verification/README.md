# Rapid Recon HTML report — a Dafny model

This project models how the Rapid Recon reconnaissance tool turns its collected results into an HTML report. The results are an ordered map from section name to JSON-like data.

- `format_content_as_html` is a recursive transcoder from a JSON-like value to an HTML fragment. It has five branches, in priority order:
  - a dict becomes a key/value table;
  - a list of dicts becomes flat "sub-cards";
  - any other list becomes a `<ul>`;
  - `None` becomes a "No Data" badge;
  - anything else becomes escaped text.
- `generate_html_report` makes three passes over the sections and wraps them in a fixed page:
  - a navigation link per section;
  - a summary table row per section, with a Collected/Missing status derived from Python truthiness;
  - a card per section, holding its title-cased label and the rendered body.

Modules:

- `HtmlEscape` (html_escape.dfy) models `html.escape` with `quote=True` and its inverse.
- `Values` (values.dfy) holds the value datatype, Python truthiness, and `str()`/`repr()`.
- `Labels` (labels.dfy) models `key.replace('_', ' ').title()` for ASCII letters.
- `Markup` (markup.dfy) is an independent reading of markup text. `Lex` tokenizes a string into tags and text runs. `Flatten` writes pieces out. `Lex` simplifies an HTML tokenizer in two ways:
  - it ends a tag at the first `>`, even one inside a quoted attribute value;
  - it opens a tag at every `<`, whereas a browser reads a `<` followed by anything but a letter, `/`, `!` or `?` as text.

  Neither changes how the report's own pieces read: their tags start with a letter, `/` or `!` and hold no `>`, and their text holds no `<`.
- `Render` (render.dfy) models the transcoder. `Layout` gives its output as pieces.
- `Report` (report.dfy) holds the three passes, the page, and the loops that build it. The passes exist twice:
  - `NavPassAsWritten`, `BodyPassAsWritten` and `PageAsWritten` put the raw section key into the attributes, as the program does;
  - `NavPass`, `BodyPass` and `Page` escape it.

  `PassesAgree` shows the two give the same text whenever no key holds one of `&<>"'`. The fixed parts of the page are written as sequences of pieces, so that they can be read back with `Lex`.

Most properties are stated by reading the produced text back with `Lex` and comparing the result with the intended structure. In this form, "no injection" means that the only tags in the output are the report's own tags, in the expected places, whatever the data holds. The program as written has this property for the section bodies, labels and target. For the section keys it is proved for keys holding none of `&<>"'` (`PassesAgree`); a key holding `'` (navigation) or `"` (container) can inject a tag (see Findings).

## Model

| member | source | states |
|---|---|---|
| HtmlEscape.Escape | modules/report_generator.py:203 | escaped text contains no `<`, `>`, `"` or `'` and is never shorter than the input |
| HtmlEscape.UnescapeEscape | modules/report_generator.py:203 | decoding the five entities of escaped text gives the original text back |
| HtmlEscape.EscapeInjective | modules/report_generator.py:203 | two texts escape to the same markup exactly when they are equal |
| HtmlEscape.EscapeAppend | modules/report_generator.py:203 | `html.escape` works character by character: escaping a concatenation is the concatenation of the escaped parts |
| HtmlEscape.EscapeFixedPoint | modules/report_generator.py:220 | escaping leaves a text unchanged exactly when it holds none of `&<>"'` |
| Values.DigitsRoundTrip | modules/report_generator.py:182 | the decimal digits written for the footer's year read back as the same number |
| Values.DecimalRoundTrip | modules/report_generator.py:219-220 | `str(i)` of an int reads back as `i`, and starts with `-` exactly when `i` is negative |
| Values.QuoteStringRoundTrip | modules/report_generator.py:212-216 | `str()` of a list or dict writes each string as `repr` does: the same quote at both ends, `"` exactly when the text holds a `'` and no `"`, and a body that reads back as the text |
| Labels.LabelSpec | modules/report_generator.py:168 | the label has one character per key character; `_` becomes a space; a letter is upper-case exactly when it starts a word; no `_` remains; relabelling changes nothing |
| Labels.TitleIdempotent | modules/report_generator.py:168 | title-casing already title-cased text changes nothing |
| Render.Render | modules/report_generator.py:197-220 | a scalar renders as inert text (no `<`, `>` or quote); a dict, `None` or a non-empty list renders as text that starts with a tag; the empty list renders as nothing |
| Render.RenderReadsBack | modules/report_generator.py:197-220 | read back, any rendering is exactly its layout; every tag is one of the transcoder's own and every text run is inert, whatever the data |
| Render.RenderObject | modules/report_generator.py:198-205 | a dict renders as `<table>`, the header row, one row per key in order (escaped key, recursively rendered value), then `</table>`; its tags are the table's, the header's, and per key a row around exactly that value's own tags |
| Render.RenderRecordList | modules/report_generator.py:207-214 | a list of dicts renders as one sub-card per element, in order; each line holds the escaped key and the escaped `str()` of the value; a card's tags depend only on its number of keys; the empty list renders as the empty string |
| Render.RenderGenericList | modules/report_generator.py:215-216 | any other list is non-empty and renders as `<ul>`, one `<li>` with the escaped `str()` per item in order, then `</ul>`; its tags are exactly `ul`, one `li` pair per item, then `/ul` |
| Render.RenderNull | modules/report_generator.py:217-218 | `None` renders as the "No Data" badge and reads back as one badge element around that text |
| Render.RenderScalar | modules/report_generator.py:219-220 | a scalar renders as its escaped `str()`, reads back as at most one text run with no tag, and unescapes to its `str()` |
| Render.NullInsideFlatBranches | modules/report_generator.py:212 | `None` inside a sub-card or a list item shows as the text `None`, not as the badge |
| Render.RenderHasMarkup | modules/report_generator.py:197-220 | the rendering contains markup exactly when the value is a dict, a non-empty list or `None` |
| Report.NavLinkAsWritten | modules/report_generator.py:151 | the link as written is the escaped link exactly when the key holds none of `&<>"'` |
| Report.SectionAsWritten | modules/report_generator.py:176-179 | the container as written is the escaped container exactly when the key holds none of `&<>"'` |
| Report.PassesAgree | modules/report_generator.py:150-179 | when no key holds one of `&<>"'`, the navigation and body passes as written produce the same text as the escaped passes |
| Report.NavReadsBack | modules/report_generator.py:150-151 | the navigation reads back as one entry per section in order: a list item around a link to the escaped key, labelled with the escaped label; every anchor is inert |
| Report.NavLinkReadsBack | modules/report_generator.py:151 | one navigation link reads back as exactly four tags, with the escaped key as anchor |
| Report.SummaryReadsBack | modules/report_generator.py:167-171 | the summary reads back as one row per section in order: the escaped label, then a badge whose class and word come from the body's truthiness |
| Report.StatusIffTruthy | modules/report_generator.py:169-170 | Collected with class `success` exactly when the body is truthy; Missing exactly for `None`, `False`, zero, `""`, `[]` and `{}` |
| Report.BodyReadsBack | modules/report_generator.py:175-179 | the body reads back as one container per section in order; each is anchored at the escaped key, holds the heading with the escaped label, and holds exactly the tags of the rendered body |
| Report.SectionReadsBack | modules/report_generator.py:176-179 | one container reads back as its own tag, the heading, the rendered body's tags and the closing tag, and nothing else |
| Report.AnchorsResolve | modules/report_generator.py:151-176 | navigation entry `i` links to the anchor that container `i` carries; the anchor unescapes to the key, and different keys get different anchors |
| Report.NavInjectionAsWritten | modules/report_generator.py:151 | with the unescaped key `x'><n>`, the link reads back as a link to `#x` followed by an injected tag `n`; the escaped link has only its four own tags |
| Report.SectionInjectionAsWritten | modules/report_generator.py:176 | with the unescaped key `x"><n>`, the container reads back as a container with id `x` followed by an injected tag `n`; the escaped container has only its own tags |
| Report.AppendNav | modules/report_generator.py:150-151 | the loop appends the navigation as written, one link per section in order; when no key holds one of `&<>"'`, that is the escaped navigation that `NavReadsBack` reads back |
| Report.AppendSummary | modules/report_generator.py:167-171 | the loop that appends one row per section produces the summary pass |
| Report.AppendBody | modules/report_generator.py:175-179 | the loop appends the body as written, one container per section in order; when no key holds one of `&<>"'`, that is the escaped body that `BodyReadsBack` reads back |
| Report.GenerateReport | modules/report_generator.py:20-187 | when no key holds one of `&<>"'`, the page built is the escaped page that `PageReadsBack` reads back |
| Report.PageReadsBack | modules/report_generator.py:20-187 | read back, the page splits at every boundary between its parts: the opening, then the navigation entries, the header, the summary rows, the summary's two closing tags, the section containers, then the footer; no part's text runs into the next |
| Report.OpeningReadsBack | modules/report_generator.py:20-24 | the opening reads back as its fixed tags, then one title text made of the fixed prefix and the escaped target, the closing title tag, then the head; the escaped target is inert |
| Report.HeaderReadsBack | modules/report_generator.py:153-165 | the header reads back as its fixed tags, the escaped target as at most one text run inside `strong`, the time stamp line, then the summary table's fixed head |
| Report.FooterReadsBack | modules/report_generator.py:181-187 | the footer reads back as `footer`, the copyright text with the year, `strong`, the escaped target as at most one text run, then the fixed closing tags |

## Left out

- modules/json_export.py is not part of this model. It only hands the results to the standard JSON encoder and writes a file.
- Directory creation, file writing, and the `try`/`except` that logs a failure (lines 15, 189-194) are I/O and are not modelled. The same goes for the logger calls and the import guard (lines 1-10).
- The clock (lines 17, 159, 182) is the `Clock` parameter of `GenerateReport`. It holds the `strftime` text and the year. Date formatting itself is not modelled.
- The constant style sheet and head text (lines 25-148) is the `head` parameter. The page around it is modelled literally.
- Python's float formatting is out: a float is carried as the text Python prints for it.
- `repr` of characters beyond Latin-1 that Python treats as non-printable is out. Such characters are kept as they are.
- Title-casing follows ASCII letters only. Other Unicode cased letters count as uncased.
- Dict keys are modelled as strings, which is what JSON data yields. `str(k)` of a non-string key is not modelled.
- `None` shows the "No Data" badge at top level and inside dict cells. Inside a sub-card or a generic list item it is stringified to the text `None` (`Render.NullInsideFlatBranches`).
- Render.Render and Report.GenerateReport are total here, whereas the program gives up on two kinds of input: a dict or list nested deeper than the interpreter's recursion limit raises `RecursionError` at the recursive call (line 202), and `str()` of an int with more than 4300 digits raises `ValueError` on CPython 3.11 and later (lines 212, 216, 220; `Values.Decimal`). The `except` at lines 193-194 catches both, so no report is written for such input.
- Report.NavReadsBack: states the read-back of the escaped navigation. It carries over to the navigation as written when no key holds one of `&<>"'` (`PassesAgree`); for other keys `NavInjectionAsWritten` shows what the text becomes.
- Report.BodyReadsBack: states the read-back of the escaped body. It carries over to the body as written when no key holds one of `&<>"'` (`PassesAgree`); for other keys `SectionInjectionAsWritten` shows what the text becomes.
- Report.AnchorsResolve: states that the escaped anchors match. It carries over to the program as written when no key holds one of `&<>"'`.
- Report.PageReadsBack: states the read-back of the escaped page, which is the page as written when no key holds one of `&<>"'` (`GenerateReport`). It also assumes that the head text is closed markup (clean pieces ending in a tag) and that the time stamp holds no `<`, which is true of the `strftime` format on line 159.

## Findings

| source | as written | input that shows it | evidently intended | confidence | as-written member | corrected member |
|---|---|---|---|---|---|---|
| modules/report_generator.py:151 | the section key goes unescaped into the `href` attribute of the navigation link | a section named `x'><script>` closes the attribute and injects a `<script>` tag | the key escaped like every other data text, so the link has only its own four tags | not executed | Report.NavInjectionAsWritten | Report.NavLinkReadsBack |
| modules/report_generator.py:176 | the section key goes unescaped into the `id` attribute of the section container | a section named `x"><script>` closes the attribute and injects a `<script>` tag | the key escaped, so the container has only its own tags and those of the rendered body | not executed | Report.SectionInjectionAsWritten | Report.SectionReadsBack |
