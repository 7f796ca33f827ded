/**
  HTML entity escaping as performed by Python's `html.escape(s, quote=True)`,
  which the report applies to the target, the labels and the rendered data
  (modules/report_generator.py, lines 18, 151, 171, 177, 203, 212, 216, 220);
  the section keys at lines 151 and 176 do not pass through it.

  `html.escape` replaces `&` first and then `<`, `>`, `"` and `'`.  Every
  replacement writes a `&`, but `&` is replaced before any of them runs, and
  no replacement writes any of `<>"'`; so each character is rewritten at
  most once, and the sequence of replacements is the same as mapping every
  character independently, which is how it is written here.  `Unescape`
  decodes exactly the five entities `Escape` produces and serves as its
  inverse.
 */
module HtmlEscape {

  /** The characters `html.escape` rewrites. */
  predicate Special(c: char) {
    c == '&' || c == '<' || c == '>' || c == '"' || c == '\''
  }

  /** Text that cannot open or close a tag, nor end a quoted attribute value. */
  predicate Inert(s: string) {
    forall i :: 0 <= i < |s| ==> s[i] != '<' && s[i] != '>' && s[i] != '"' && s[i] != '\''
  }

  /** Text that `html.escape` leaves alone. */
  predicate Plain(s: string) {
    forall i :: 0 <= i < |s| ==> !Special(s[i])
  }

  function EscapeChar(c: char): (r: string)
    ensures Inert(r)
    ensures Special(c) <==> |r| > 1
    ensures !Special(c) ==> r == [c]
  {
    match c
    case '&' => "&amp;"
    case '<' => "&lt;"
    case '>' => "&gt;"
    case '"' => "&quot;"
    case '\'' => "&#x27;"
    case _ => [c]
  }

  /** `html.escape(s)` with its default `quote=True`. */
  function Escape(s: string): (r: string)
    ensures Inert(r)
    ensures |r| >= |s|
    ensures |r| == |s| <==> Plain(s)
  {
    if s == [] then []
    else
      assert Plain(s) <==> !Special(s[0]) && Plain(s[1..]) by {
        if Plain(s) { assert forall i :: 0 <= i < |s[1..]| ==> s[1..][i] == s[i + 1]; }
      }
      EscapeChar(s[0]) + Escape(s[1..])
  }

  /** Decodes the five entities `Escape` emits; any other text is kept. */
  function Unescape(s: string): string
    decreases |s|
  {
    if s == [] then []
    else if "&amp;" <= s then "&" + Unescape(s[5..])
    else if "&lt;" <= s then "<" + Unescape(s[4..])
    else if "&gt;" <= s then ">" + Unescape(s[4..])
    else if "&quot;" <= s then "\"" + Unescape(s[6..])
    else if "&#x27;" <= s then "'" + Unescape(s[6..])
    else [s[0]] + Unescape(s[1..])
  }

  lemma UnescapeEscapeChar(c: char, rest: string)
    ensures Unescape(EscapeChar(c) + rest) == [c] + Unescape(rest)
  {
    var s := EscapeChar(c) + rest;
    if !Special(c) {
      assert s[0] == c;
      assert s[1..] == rest;
    } else if c == '&' {
      assert "&amp;" <= s;
      assert s[5..] == rest;
    } else if c == '<' {
      assert s[1] == 'l';
      assert "&lt;" <= s;
      assert s[4..] == rest;
    } else if c == '>' {
      assert s[1] == 'g';
      assert "&gt;" <= s;
      assert s[4..] == rest;
    } else if c == '"' {
      assert s[1] == 'q';
      assert "&quot;" <= s;
      assert s[6..] == rest;
    } else {
      assert s[1] == '#';
      assert "&#x27;" <= s;
      assert s[6..] == rest;
    }
  }

  /** Escaping loses nothing: decoding the escaped text gives the original back. */
  lemma {:induction false} UnescapeEscape(s: string)
    ensures Unescape(Escape(s)) == s
    decreases |s|
  {
    if s != [] {
      UnescapeEscapeChar(s[0], Escape(s[1..]));
      UnescapeEscape(s[1..]);
      assert [s[0]] + s[1..] == s;
    }
  }

  /** Two different texts never escape to the same markup. */
  lemma EscapeInjective(a: string, b: string)
    ensures Escape(a) == Escape(b) <==> a == b
  {
    if Escape(a) == Escape(b) {
      UnescapeEscape(a);
      UnescapeEscape(b);
    }
  }

  /** Escaping distributes over concatenation, so escaping piecewise is escaping the whole. */
  lemma {:induction false} EscapeAppend(a: string, b: string)
    ensures Escape(a + b) == Escape(a) + Escape(b)
    decreases |a|
  {
    if a == [] {
      assert a + b == b;
    } else {
      assert (a + b)[0] == a[0];
      assert (a + b)[1..] == a[1..] + b;
      EscapeAppend(a[1..], b);
    }
  }

  /** A text is left unchanged by escaping exactly when it holds none of the five special characters. */
  lemma {:induction false} EscapeFixedPoint(s: string)
    ensures Escape(s) == s <==> Plain(s)
    decreases |s|
  {
    if s != [] {
      EscapeFixedPoint(s[1..]);
      if Special(s[0]) {
        assert |Escape(s)| > |s|;
      } else {
        assert Escape(s) == [s[0]] + Escape(s[1..]);
        if Escape(s) == s {
          assert Escape(s[1..]) == Escape(s)[1..];
        }
        assert Plain(s) ==> Plain(s[1..]);
        assert Plain(s[1..]) ==> Plain(s);
      }
    }
  }
}
