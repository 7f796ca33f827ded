/**
  The JSON-like values the report generator receives from the collection
  tasks, Python's truthiness on them, and Python's `str()` of them.

  A Python `dict` is an ordered list of `Field`s (insertion order is the
  iteration order of `dict.items()`); a `list` is a sequence of values.
  A float is carried as the text Python prints for it, since the shortest
  round-trip float formatting belongs to the interpreter.
 */
module Values {

  datatype Value =
    | Null
    | Bool(b: bool)
    | Int(i: int)
    | Float(text: string)
    | Str(s: string)
    | Arr(items: seq<Value>)
    | Obj(fields: seq<Field>)

  /** One key/value pair of a dict, in iteration order. */
  datatype Field = Field(key: string, val: Value)

  /** Python's `bool(v)`: empty containers, empty text, zero, `False` and `None` are false. */
  predicate Truthy(v: Value) {
    match v
    case Null => false
    case Bool(b) => b
    case Int(i) => i != 0
    case Float(t) => t != "0.0" && t != "-0.0"
    case Str(s) => s != ""
    case Arr(xs) => xs != []
    case Obj(fs) => fs != []
  }

  function DigitChar(d: nat): (c: char)
    requires d < 10
    ensures '0' <= c <= '9'
    ensures c as int - '0' as int == d
  {
    ('0' as int + d) as char
  }

  /** Decimal digits of a natural number, most significant first, no leading zeros. */
  function Digits(n: nat): (r: string)
    ensures |r| >= 1
    ensures forall i :: 0 <= i < |r| ==> '0' <= r[i] <= '9'
    ensures |r| > 1 ==> r[0] != '0'
  {
    if n < 10 then [DigitChar(n)] else Digits(n / 10) + [DigitChar(n % 10)]
  }

  /** Value of a string of decimal digits. */
  function DigitsValue(s: string): nat
    requires forall i :: 0 <= i < |s| ==> '0' <= s[i] <= '9'
  {
    if s == [] then 0 else 10 * DigitsValue(s[..|s| - 1]) + (s[|s| - 1] as int - '0' as int)
  }

  lemma {:induction false} DigitsRoundTrip(n: nat)
    ensures DigitsValue(Digits(n)) == n
  {
    if n >= 10 {
      var r := Digits(n);
      assert r[..|r| - 1] == Digits(n / 10);
      assert r[|r| - 1] == DigitChar(n % 10);
      DigitsRoundTrip(n / 10);
    }
  }

  /** `str(i)` for a Python int. */
  function Decimal(i: int): (r: string)
    ensures |r| >= 1
    ensures forall k :: 0 <= k < |r| ==> r[k] == '-' || '0' <= r[k] <= '9'
  {
    if i < 0 then "-" + Digits(-i) else Digits(i)
  }

  predicate AllDigits(s: string) {
    forall k :: 0 <= k < |s| ==> '0' <= s[k] <= '9'
  }

  /** Reads an optionally signed decimal numeral; anything else reads as zero. */
  function DecimalValue(s: string): int {
    if s != [] && s[0] == '-' && AllDigits(s[1..]) then -(DigitsValue(s[1..]) as int)
    else if AllDigits(s) then DigitsValue(s)
    else 0
  }

  /** `str(i)` reads back as `i`, and carries a sign exactly for negative numbers. */
  lemma DecimalRoundTrip(i: int)
    ensures DecimalValue(Decimal(i)) == i
    ensures Decimal(i)[0] == '-' <==> i < 0
  {
    var d := Decimal(i);
    if i < 0 {
      var m := Digits(-i);
      assert d[1..] == m;
      assert AllDigits(m);
      DigitsRoundTrip(-i);
    } else {
      assert AllDigits(d) && d[0] != '-';
      DigitsRoundTrip(i);
    }
  }

  function HexDigit(d: nat): char
    requires d < 16
  {
    "0123456789abcdef"[d]
  }

  /** Characters `repr` shows as `\xhh`: the C0 controls, DEL through NBSP, and the soft hyphen. */
  predicate HexEscaped(c: char) {
    c as int < 0x20 || (0x7f <= c as int <= 0xa0) || c as int == 0xad
  }

  /** How `repr` writes one character of a string quoted with `q`. */
  function ReprChar(c: char, q: char): string {
    if c == q || c == '\\' then ['\\', c]
    else if c == '\t' then "\\t"
    else if c == '\n' then "\\n"
    else if c == '\r' then "\\r"
    else if HexEscaped(c) then "\\x" + [HexDigit(c as int / 16), HexDigit(c as int % 16)]
    else [c]
  }

  function ReprChars(s: string, q: char): string {
    if s == [] then "" else ReprChar(s[0], q) + ReprChars(s[1..], q)
  }

  /** `repr(s)`: single quotes unless the text holds a single quote and no double quote. */
  function QuoteString(s: string): string {
    var q := if '\'' in s && '"' !in s then '"' else '\'';
    [q] + ReprChars(s, q) + [q]
  }

  /** `repr(v)`, which for lists and dicts is also their `str()`. */
  function Repr(v: Value): string {
    match v
    case Null => "None"
    case Bool(b) => if b then "True" else "False"
    case Int(i) => Decimal(i)
    case Float(t) => t
    case Str(s) => QuoteString(s)
    case Arr(xs) => "[" + ReprItems(xs) + "]"
    case Obj(fs) => "{" + ReprFields(fs) + "}"
  }

  function ReprItems(xs: seq<Value>): string {
    if xs == [] then ""
    else if |xs| == 1 then Repr(xs[0])
    else Repr(xs[0]) + ", " + ReprItems(xs[1..])
  }

  function ReprFields(fs: seq<Field>): string {
    if fs == [] then ""
    else if |fs| == 1 then QuoteString(fs[0].key) + ": " + Repr(fs[0].val)
    else QuoteString(fs[0].key) + ": " + Repr(fs[0].val) + ", " + ReprFields(fs[1..])
  }

  /** The value of a lower-case hexadecimal digit. */
  function HexValue(c: char): nat {
    if '0' <= c <= '9' then c as nat - '0' as nat
    else if 'a' <= c <= 'f' then c as nat - 'a' as nat + 10
    else 0
  }

  /**
    Reads the body of a string literal back: a backslash escape stands for
    the character it names, any other character for itself.
   */
  function Unrepr(r: string): string
    decreases |r|
  {
    if r == [] then []
    else if r[0] == '\\' && |r| >= 4 && r[1] == 'x' then
      [(HexValue(r[2]) * 16 + HexValue(r[3])) as char] + Unrepr(r[4..])
    else if r[0] == '\\' && |r| >= 2 then
      (if r[1] == 't' then "\t" else if r[1] == 'n' then "\n" else if r[1] == 'r' then "\r" else [r[1]])
      + Unrepr(r[2..])
    else [r[0]] + Unrepr(r[1..])
  }

  lemma HexRoundTrip(d: nat)
    requires d < 16
    ensures HexValue(HexDigit(d)) == d
  {
  }

  /** One character written by `repr` reads back as that character, whatever follows. */
  lemma UnreprChar(c: char, q: char, rest: string)
    requires q == '\'' || q == '"'
    ensures Unrepr(ReprChar(c, q) + rest) == [c] + Unrepr(rest)
  {
    var w := ReprChar(c, q) + rest;
    if c == q || c == '\\' {
      assert w[0] == '\\' && w[1] == c && w[2..] == rest;
    } else if c == '\t' || c == '\n' || c == '\r' {
      assert w[0] == '\\' && w[2..] == rest;
    } else if HexEscaped(c) {
      HexRoundTrip(c as int / 16);
      HexRoundTrip(c as int % 16);
      assert w[0] == '\\' && w[1] == 'x' && w[4..] == rest;
    } else {
      assert w[0] == c && w[1..] == rest;
    }
  }

  /** `repr`'s escaping of a text is undone by reading it back. */
  lemma {:induction false} UnreprReprChars(s: string, q: char)
    requires q == '\'' || q == '"'
    ensures Unrepr(ReprChars(s, q)) == s
  {
    if s != [] {
      UnreprChar(s[0], q, ReprChars(s[1..], q));
      UnreprReprChars(s[1..], q);
    }
  }

  /**
    `repr(s)` is a quoted literal: it opens and closes with the same quote,
    a double quote exactly when the text holds a single quote and no double
    quote, and its body reads back as the text.
   */
  lemma QuoteStringRoundTrip(s: string)
    ensures var r := QuoteString(s);
            |r| >= 2 && r[0] == r[|r| - 1] &&
            (r[0] == '"' <==> '\'' in s && '"' !in s) &&
            (r[0] == '"' || r[0] == '\'') &&
            Unrepr(r[1..|r| - 1]) == s
  {
    var q := if '\'' in s && '"' !in s then '"' else '\'';
    var r := QuoteString(s);
    assert r[1..|r| - 1] == ReprChars(s, q);
    UnreprReprChars(s, q);
  }

  /** Python's `str(v)`: a string is its own text, everything else prints as its repr. */
  function StrOf(v: Value): string {
    match v
    case Str(s) => s
    case _ => Repr(v)
  }
}
