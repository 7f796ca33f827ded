/**
  An independent reading of markup text: `Lex` splits a string into tags and
  text runs.  It is a simplified HTML tokenizer in two ways: every `<` opens a
  tag, where a browser reads a `<` followed by anything but a letter, `/`, `!`
  or `?` as text; and a tag ends at the first `>`, even one inside a quoted
  attribute value.  Neither changes a reading of the report's own pieces,
  whose tags start with a letter, `/` or `!` and hold no `>`, and whose text
  holds no `<`.  `Flatten` goes the other way, writing a sequence of pieces
  out as text.  The central fact is that writing clean pieces and reading
  them back gives the same pieces, up to adjacent text runs reading as one
  (`LexFlatten`): no text piece can be mistaken for a tag.
 */
module Markup {
  import opened HtmlEscape

  datatype Piece = Tag(name: string) | Text(text: string)

  /** A tag whose name holds no angle bracket; a text run holding no `<`. */
  predicate Clean(p: Piece) {
    match p
    case Tag(n) => forall i :: 0 <= i < |n| ==> n[i] != '<' && n[i] != '>'
    case Text(t) => forall i :: 0 <= i < |t| ==> t[i] != '<'
  }

  predicate AllClean(ps: seq<Piece>) {
    forall i :: 0 <= i < |ps| ==> Clean(ps[i])
  }

  function Emit(p: Piece): string {
    match p
    case Tag(n) => "<" + n + ">"
    case Text(t) => t
  }

  function Flatten(ps: seq<Piece>): string {
    if ps == [] then "" else Emit(ps[0]) + Flatten(ps[1..])
  }

  /** Index of the first `c` in `s` at or after `from`, or `|s|` when there is none. */
  function FindChar(s: string, c: char, from: nat): (j: nat)
    requires from <= |s|
    ensures from <= j <= |s|
    ensures forall k :: from <= k < j ==> s[k] != c
    ensures j < |s| ==> s[j] == c
    decreases |s| - from
  {
    if from == |s| then from
    else if s[from] == c then from
    else FindChar(s, c, from + 1)
  }

  /** Reads text as tags and text runs; an unterminated tag runs to the end of the input. */
  function Lex(s: string): seq<Piece>
    decreases |s|
  {
    if s == [] then []
    else if s[0] == '<' then
      var j := FindChar(s, '>', 1);
      if j == |s| then [Tag(s[1..])] else [Tag(s[1..j])] + Lex(s[j + 1..])
    else
      var j := FindChar(s, '<', 0);
      [Text(s[..j])] + Lex(s[j..])
  }

  /** Puts one piece in front of an already normalized run, merging text with text. */
  function Cons(p: Piece, rest: seq<Piece>): seq<Piece> {
    match p
    case Tag(n) => [Tag(n)] + rest
    case Text(t) =>
      if t == [] then rest
      else if rest != [] && rest[0].Text? then [Text(t + rest[0].text)] + rest[1..]
      else [Text(t)] + rest
  }

  /** The pieces as a reader sees them: empty text runs vanish and adjacent runs merge. */
  function Normalize(ps: seq<Piece>): (r: seq<Piece>)
    ensures forall i :: 0 <= i < |r| ==> r[i].Text? ==> r[i].text != []
  {
    if ps == [] then [] else Cons(ps[0], Normalize(ps[1..]))
  }

  lemma ConsAppend(p: Piece, r: seq<Piece>, n: seq<Piece>)
    requires r != [] || n == [] || n[0].Tag?
    ensures Cons(p, r + n) == Cons(p, r) + n
  {
    match p
    case Tag(_) =>
      AppendAssoc([p], r, n);
    case Text(t) =>
      if t == [] {
      } else if r == [] {
        assert r + n == n;
      } else {
        assert (r + n)[0] == r[0];
        assert (r + n)[1..] == r[1..] + n;
        if r[0].Text? {
          AppendAssoc([Text(t + r[0].text)], r[1..], n);
        } else {
          AppendAssoc([p], r, n);
        }
      }
  }

  /** The names of the tags, in order. */
  function TagsOf(ps: seq<Piece>): seq<string> {
    if ps == [] then []
    else if ps[0].Tag? then [ps[0].name] + TagsOf(ps[1..])
    else TagsOf(ps[1..])
  }

  lemma {:induction false} FlattenAppend(a: seq<Piece>, b: seq<Piece>)
    ensures Flatten(a + b) == Flatten(a) + Flatten(b)
    decreases |a|
  {
    if a == [] {
      assert a + b == b;
    } else {
      assert (a + b)[1..] == a[1..] + b;
      FlattenAppend(a[1..], b);
    }
  }

  lemma {:induction false} TagsOfAppend(a: seq<Piece>, b: seq<Piece>)
    ensures TagsOf(a + b) == TagsOf(a) + TagsOf(b)
    decreases |a|
  {
    if a == [] {
      assert a + b == b;
    } else {
      assert (a + b)[1..] == a[1..] + b;
      TagsOfAppend(a[1..], b);
    }
  }

  /** Normalizing keeps every tag and their order. */
  lemma {:induction false} TagsOfNormalize(ps: seq<Piece>)
    ensures TagsOf(Normalize(ps)) == TagsOf(ps)
    decreases |ps|
  {
    if ps != [] {
      TagsOfNormalize(ps[1..]);
      var rest := Normalize(ps[1..]);
      if ps[0].Text? && ps[0].text != [] && rest != [] && rest[0].Text? {
        assert TagsOf(rest) == TagsOf(rest[1..]);
      }
      assert ps[0].Tag? ==> TagsOf(ps) == [ps[0].name] + TagsOf(ps[1..]);
    }
  }

  lemma {:induction false} NormalizeTagFirst(a: seq<Piece>, b: seq<Piece>)
    requires b != [] && b[0].Tag?
    ensures Normalize(a + b) == Normalize(a) + Normalize(b)
    decreases |a|
  {
    if a == [] {
      assert a + b == b;
    } else {
      assert (a + b)[0] == a[0];
      assert (a + b)[1..] == a[1..] + b;
      NormalizeTagFirst(a[1..], b);
      ConsAppend(a[0], Normalize(a[1..]), Normalize(b));
    }
  }

  /** Two runs of pieces joined after a tag read as the two runs read separately. */
  lemma {:induction false} NormalizeAfterTag(a: seq<Piece>, b: seq<Piece>)
    requires a != [] && a[|a| - 1].Tag?
    ensures Normalize(a) != []
    ensures Normalize(a + b) == Normalize(a) + Normalize(b)
    decreases |a|
  {
    assert (a + b)[0] == a[0];
    assert (a + b)[1..] == a[1..] + b;
    if |a| == 1 {
      assert a[1..] + b == b;
    } else {
      NormalizeAfterTag(a[1..], b);
      ConsAppend(a[0], Normalize(a[1..]), Normalize(b));
    }
  }

  lemma LexTag(n: string, rest: string)
    requires Clean(Tag(n))
    ensures Lex("<" + n + ">" + rest) == [Tag(n)] + Lex(rest)
  {
    var s := "<" + n + ">" + rest;
    var j := FindChar(s, '>', 1);
    assert s[|n| + 1] == '>';
    assert forall k :: 1 <= k < |n| + 1 ==> s[k] == n[k - 1];
    assert j == |n| + 1;
    assert s[1..j] == n;
    assert s[j + 1..] == rest;
  }

  /** A text run followed by something that does not start with text reads as that run alone. */
  lemma LexTextBeforeTag(t: string, rest: string)
    requires t != [] && Clean(Text(t))
    requires rest == [] || rest[0] == '<'
    ensures Lex(t + rest) == [Text(t)] + Lex(rest)
  {
    var s := t + rest;
    var j := FindChar(s, '<', 0);
    assert forall k :: 0 <= k < |t| ==> s[k] == t[k] && s[k] != '<';
    if rest != [] {
      assert s[|t|] == '<';
    }
    assert j == |t|;
    assert s[..j] == t;
    assert s[j..] == rest;
  }

  /** A text run followed by more text reads as one merged run. */
  lemma LexTextBeforeText(t: string, rest: string)
    requires t != [] && Clean(Text(t))
    requires rest != [] && rest[0] != '<'
    ensures Lex(rest) == [Text(rest[..FindChar(rest, '<', 0)])] + Lex(rest[FindChar(rest, '<', 0)..])
    ensures Lex(t + rest) ==
            [Text(t + rest[..FindChar(rest, '<', 0)])] + Lex(rest[FindChar(rest, '<', 0)..])
  {
    var s := t + rest;
    var j' := FindChar(rest, '<', 0);
    var j := FindChar(s, '<', 0);
    assert forall k :: 0 <= k < |t| ==> s[k] == t[k];
    assert forall k :: 0 <= k < |rest| ==> s[|t| + k] == rest[k];
    assert j == |t| + j';
    assert s[..j] == t + rest[..j'];
    assert s[j..] == rest[j'..];
  }

  lemma LexStartsWithTag(s: string)
    requires s != [] && s[0] == '<'
    ensures Lex(s) != [] && Lex(s)[0].Tag?
  {
  }

  /** Reading back written clean pieces gives the pieces, with text runs merged as a reader sees them. */
  lemma {:induction false} LexFlatten(ps: seq<Piece>)
    requires AllClean(ps)
    ensures Lex(Flatten(ps)) == Normalize(ps)
    decreases |ps|
  {
    if ps != [] {
      assert AllClean(ps[1..]);
      LexFlatten(ps[1..]);
      var rest := Flatten(ps[1..]);
      match ps[0]
      case Tag(n) =>
        LexTag(n, rest);
      case Text(t) =>
        if t == [] {
          assert Flatten(ps) == rest;
        } else if rest == [] || rest[0] == '<' {
          LexTextBeforeTag(t, rest);
          if rest != [] {
            LexStartsWithTag(rest);
          }
        } else {
          LexTextBeforeText(t, rest);
        }
    }
  }

  /** Concatenation of a sequence of sequences, in order. */
  function Flat<T>(xss: seq<seq<T>>): seq<T> {
    if xss == [] then [] else xss[0] + Flat(xss[1..])
  }

  /** `f` applied to every element, in order. */
  function Map<T, U>(f: T -> U, xs: seq<T>): (r: seq<U>)
    ensures |r| == |xs| && forall j :: 0 <= j < |xs| ==> r[j] == f(xs[j])
  {
    if xs == [] then [] else [f(xs[0])] + Map(f, xs[1..])
  }

  lemma MapCons<T, U>(f: T -> U, xs: seq<T>)
    requires xs != []
    ensures Map(f, xs) == [f(xs[0])] + Map(f, xs[1..])
  {
  }

  /** `n` copies of `block`, one after another. */
  function Repeat<T>(block: seq<T>, n: nat): seq<T> {
    if n == 0 then [] else block + Repeat(block, n - 1)
  }

  /** Concatenation of a sequence of fragments, in order. */
  function Join(parts: seq<string>): string {
    if parts == [] then "" else parts[0] + Join(parts[1..])
  }

  /**
    Every tag is one of `tags` and every text run is inert: the only markup in
    the pieces is the scaffolding named by `tags`.
   */
  predicate Scaffolded(ps: seq<Piece>, tags: set<string>) {
    forall i :: 0 <= i < |ps| ==> (ps[i].Tag? ==> ps[i].name in tags) && (ps[i].Text? ==> Inert(ps[i].text))
  }

  predicate CleanTags(tags: set<string>) {
    forall t :: t in tags ==> Clean(Tag(t))
  }

  lemma ScaffoldedAppend(a: seq<Piece>, b: seq<Piece>, tags: set<string>)
    requires Scaffolded(a, tags) && Scaffolded(b, tags)
    ensures Scaffolded(a + b, tags)
  {
    forall i | 0 <= i < |a + b|
      ensures ((a + b)[i].Tag? ==> (a + b)[i].name in tags) && ((a + b)[i].Text? ==> Inert((a + b)[i].text))
    {
      if i < |a| {
        assert (a + b)[i] == a[i];
      } else {
        assert (a + b)[i] == b[i - |a|];
      }
    }
  }

  lemma ScaffoldedClean(ps: seq<Piece>, tags: set<string>)
    requires Scaffolded(ps, tags) && CleanTags(tags)
    ensures AllClean(ps)
  {
    forall i | 0 <= i < |ps|
      ensures Clean(ps[i])
    {
      if ps[i].Text? {
        assert Inert(ps[i].text);
      }
    }
  }

  lemma InertAppend(a: string, b: string)
    requires Inert(a) && Inert(b)
    ensures Inert(a + b)
  {
    forall i | 0 <= i < |a + b|
      ensures (a + b)[i] != '<' && (a + b)[i] != '>' && (a + b)[i] != '"' && (a + b)[i] != '\''
    {
      if i < |a| {
        assert (a + b)[i] == a[i];
      } else {
        assert (a + b)[i] == b[i - |a|];
      }
    }
  }

  /** Normalizing merges inert runs into inert runs and keeps the tags. */
  lemma {:induction false} ScaffoldedNormalize(ps: seq<Piece>, tags: set<string>)
    requires Scaffolded(ps, tags)
    ensures Scaffolded(Normalize(ps), tags)
    decreases |ps|
  {
    if ps != [] {
      assert Scaffolded(ps[1..], tags);
      ScaffoldedNormalize(ps[1..], tags);
      var rest := Normalize(ps[1..]);
      match ps[0]
      case Tag(n) =>
        ScaffoldedAppend([Tag(n)], rest, tags);
      case Text(t) =>
        if t != [] {
          if rest != [] && rest[0].Text? {
            InertAppend(t, rest[0].text);
            assert Scaffolded(rest[1..], tags);
            ScaffoldedAppend([Text(t + rest[0].text)], rest[1..], tags);
          } else {
            ScaffoldedAppend([Text(t)], rest, tags);
          }
        }
    }
  }

  /** Reading back scaffolded pieces shows only their scaffolding and inert text. */
  lemma LexScaffolded(ps: seq<Piece>, tags: set<string>)
    requires Scaffolded(ps, tags) && CleanTags(tags)
    ensures Lex(Flatten(ps)) == Normalize(ps)
    ensures Scaffolded(Lex(Flatten(ps)), tags)
  {
    ScaffoldedClean(ps, tags);
    LexFlatten(ps);
    ScaffoldedNormalize(ps, tags);
  }

  lemma {:induction false} JoinFlatten(es: seq<string>, pss: seq<seq<Piece>>)
    requires |es| == |pss|
    requires forall i :: 0 <= i < |es| ==> es[i] == Flatten(pss[i])
    ensures Join(es) == Flatten(Flat(pss))
  {
    if es != [] {
      JoinFlatten(es[1..], pss[1..]);
      FlattenAppend(pss[0], Flat(pss[1..]));
    }
  }

  lemma {:induction false} AllCleanFlat(pss: seq<seq<Piece>>)
    requires forall i :: 0 <= i < |pss| ==> AllClean(pss[i])
    ensures AllClean(Flat(pss))
  {
    if pss != [] {
      AllCleanFlat(pss[1..]);
      var a := pss[0];
      var b := Flat(pss[1..]);
      forall i | 0 <= i < |a + b|
        ensures Clean((a + b)[i])
      {
        if i < |a| {
          assert (a + b)[i] == a[i];
        } else {
          assert (a + b)[i] == b[i - |a|];
        }
      }
    }
  }

  lemma {:induction false} TagsOfFlat(pss: seq<seq<Piece>>)
    ensures TagsOf(Flat(pss)) == Flat(seq(|pss|, i requires 0 <= i < |pss| => TagsOf(pss[i])))
  {
    var tss := seq(|pss|, i requires 0 <= i < |pss| => TagsOf(pss[i]));
    if pss != [] {
      TagsOfAppend(pss[0], Flat(pss[1..]));
      TagsOfFlat(pss[1..]);
      assert tss[1..] == seq(|pss[1..]|, i requires 0 <= i < |pss[1..]| => TagsOf(pss[1..][i]));
    }
  }

  /** Blocks that each start with a tag read back block by block. */
  lemma {:induction false} NormalizeFlat(pss: seq<seq<Piece>>)
    requires forall i :: 0 <= i < |pss| ==> pss[i] != [] && pss[i][0].Tag?
    ensures Normalize(Flat(pss)) == Flat(seq(|pss|, i requires 0 <= i < |pss| => Normalize(pss[i])))
  {
    var nss := seq(|pss|, i requires 0 <= i < |pss| => Normalize(pss[i]));
    if pss != [] {
      NormalizeFlat(pss[1..]);
      assert nss[1..] == seq(|pss[1..]|, i requires 0 <= i < |pss[1..]| => Normalize(pss[1..][i]));
      assert Flat(pss) == pss[0] + Flat(pss[1..]);
      assert Flat(nss) == nss[0] + Flat(nss[1..]);
      if pss[1..] == [] {
        assert Flat(pss) == pss[0];
        assert Flat(nss) == nss[0];
      } else {
        assert Flat(pss[1..]) == pss[1] + Flat(pss[2..]);
        NormalizeTagFirst(pss[0], Flat(pss[1..]));
      }
    }
  }

  /** Each block normalized on its own. */
  function NormalizeEach(pss: seq<seq<Piece>>): (r: seq<seq<Piece>>)
    ensures |r| == |pss|
  {
    seq(|pss|, i requires 0 <= i < |pss| => Normalize(pss[i]))
  }

  /** The tags of each block on its own. */
  function TagsEach(pss: seq<seq<Piece>>): (r: seq<seq<string>>)
    ensures |r| == |pss|
  {
    seq(|pss|, i requires 0 <= i < |pss| => TagsOf(pss[i]))
  }

  /**
    Clean blocks that each start with a tag, written out one after another,
    read back block by block, and their tags come back in order.
   */
  lemma ReadBlocks(pss: seq<seq<Piece>>)
    requires forall i :: 0 <= i < |pss| ==> AllClean(pss[i]) && pss[i] != [] && pss[i][0].Tag?
    ensures Lex(Flatten(Flat(pss))) == Flat(NormalizeEach(pss))
    ensures TagsOf(Lex(Flatten(Flat(pss)))) == Flat(TagsEach(pss))
  {
    AllCleanFlat(pss);
    LexFlatten(Flat(pss));
    NormalizeFlat(pss);
    TagsOfNormalize(Flat(pss));
    TagsOfFlat(pss);
  }

  /** `inner` between an opening and a closing tag. */
  function Wrap(open: string, inner: seq<Piece>, close: string): seq<Piece> {
    [Tag(open)] + inner + [Tag(close)]
  }

  lemma FlattenWrap(open: string, inner: seq<Piece>, close: string)
    ensures Flatten(Wrap(open, inner, close)) == Emit(Tag(open)) + Flatten(inner) + Emit(Tag(close))
  {
    FlattenAppend([Tag(open)] + inner, [Tag(close)]);
    FlattenAppend([Tag(open)], inner);
  }

  lemma AppendAround<T>(x: T, a: seq<T>, b: seq<T>, y: T)
    ensures [x] + (a + b) + [y] == [x] + a + b + [y]
  {
  }

  /** The text of a tag assembled from a prefix, a middle part and a suffix. */
  lemma EmitAround(pre: string, mid: string, suf: string)
    ensures Emit(Tag(pre + mid + suf)) == ("<" + pre) + mid + (suf + ">")
  {
  }

  lemma FlattenText(t: string)
    ensures Flatten([Text(t)]) == t
  {
  }

  lemma TagsOfWrap(open: string, inner: seq<Piece>, close: string)
    ensures TagsOf(Wrap(open, inner, close)) == [open] + TagsOf(inner) + [close]
  {
    TagsOfAppend([Tag(open)] + inner, [Tag(close)]);
    TagsOfAppend([Tag(open)], inner);
  }

  lemma AllCleanAppend(a: seq<Piece>, b: seq<Piece>)
    requires AllClean(a) && AllClean(b)
    ensures AllClean(a + b)
  {
    forall i | 0 <= i < |a + b|
      ensures Clean((a + b)[i])
    {
      if i < |a| {
        assert (a + b)[i] == a[i];
      } else {
        assert (a + b)[i] == b[i - |a|];
      }
    }
  }

  lemma AllCleanWrap(open: string, inner: seq<Piece>, close: string)
    requires Clean(Tag(open)) && AllClean(inner) && Clean(Tag(close))
    ensures AllClean(Wrap(open, inner, close))
  {
    AllCleanAppend([Tag(open)], inner);
    AllCleanAppend([Tag(open)] + inner, [Tag(close)]);
  }

  /** Inert text is a clean text run. */
  lemma CleanInert(t: string)
    requires Inert(t)
    ensures Clean(Text(t))
  {
  }

  /** How a single text run reads back: nothing when it is empty. */
  function Lone(t: string): seq<Piece> {
    if t == [] then [] else [Text(t)]
  }

  lemma NormalizeWrap(open: string, inner: seq<Piece>, close: string)
    ensures Normalize(Wrap(open, inner, close)) == [Tag(open)] + Normalize(inner) + [Tag(close)]
  {
    var a := [Tag(open)] + inner;
    NormalizeTagFirst(a, [Tag(close)]);
    assert a[0] == Tag(open) && a[1..] == inner;
    assert Normalize([Tag(close)]) == Cons(Tag(close), []);
  }

  lemma TwoFront<T>(a: T, b: T, r: seq<T>)
    ensures [a] + ([b] + r) == [a, b] + r
  {
  }

  lemma ThreeFront<T>(a: T, b: T, c: T, r: seq<T>)
    ensures [a] + ([b] + ([c] + r)) == [a, b, c] + r
  {
  }

  /** An element holding one non-empty text run, then more pieces. */
  lemma WrapTextThen(open: string, t: string, close: string, rest: seq<Piece>)
    requires t != []
    ensures Normalize(Wrap(open, [Text(t)], close) + rest) == [Tag(open), Text(t), Tag(close)] + Normalize(rest)
  {
    NormalizeAfterTag(Wrap(open, [Text(t)], close), rest);
    NormalizeWrapText(open, t, close);
  }

  /** A non-empty text run in front of pieces that read back starting with a tag stays separate. */
  lemma TextBeforeTag(lead: string, ps: seq<Piece>)
    requires lead != []
    requires Normalize(ps) != [] && Normalize(ps)[0].Tag?
    ensures Normalize([Text(lead)] + ps) == [Text(lead)] + Normalize(ps)
  {
    var x := [Text(lead)] + ps;
    assert x[0] == Text(lead) && x[1..] == ps;
  }

  /** A text run, then an element holding one text run, then more pieces. */
  lemma TextThenWrap(lead: string, open: string, t: string, close: string, rest: seq<Piece>)
    requires lead != [] && t != []
    ensures Normalize([Text(lead)] + (Wrap(open, [Text(t)], close) + rest)) ==
            [Text(lead), Tag(open), Text(t), Tag(close)] + Normalize(rest)
  {
    var n := Normalize(rest);
    WrapTextThen(open, t, close, rest);
    TextBeforeTag(lead, Wrap(open, [Text(t)], close) + rest);
    AppendFront(Text(lead), [Tag(open), Text(t), Tag(close)], n);
  }

  lemma AppendFront<T>(x: T, a: seq<T>, b: seq<T>)
    ensures [x] + (a + b) == [x] + a + b
  {
  }

  lemma NormalizeWrapText(open: string, t: string, close: string)
    ensures Normalize(Wrap(open, [Text(t)], close)) == [Tag(open)] + Lone(t) + [Tag(close)]
  {
    NormalizeWrap(open, [Text(t)], close);
    assert Normalize([Text(t)]) == Cons(Text(t), []);
  }

  lemma NormalizeTwoCellsNested(row: string, open1: string, t: string, close1: string,
                                open2: string, cell: seq<Piece>, close2: string, endRow: string)
    ensures Normalize(Wrap(row, Wrap(open1, [Text(t)], close1) + Wrap(open2, cell, close2), endRow)) ==
            [Tag(row)] + (([Tag(open1)] + Lone(t) + [Tag(close1)]) + ([Tag(open2)] + Normalize(cell) + [Tag(close2)]))
            + [Tag(endRow)]
  {
    var a := Wrap(open1, [Text(t)], close1);
    var b := Wrap(open2, cell, close2);
    NormalizeWrap(open2, cell, close2);
    NormalizeWrapText(open1, t, close1);
    NormalizeTagFirst(a, b);
    NormalizeWrap(row, a + b, endRow);
  }

  lemma RegroupCells<T>(r: T, o1: T, l: seq<T>, c1: T, o2: T, n: seq<T>, c2: T, e: T)
    ensures [r] + (([o1] + l + [c1]) + ([o2] + n + [c2])) + [e] == [r, o1] + l + [c1, o2] + n + [c2, e]
  {
  }

  /** A row of two cells, the first holding one text run, reads back cell by cell. */
  lemma NormalizeTwoCells(row: string, open1: string, t: string, close1: string,
                          open2: string, cell: seq<Piece>, close2: string, endRow: string)
    ensures Normalize(Wrap(row, Wrap(open1, [Text(t)], close1) + Wrap(open2, cell, close2), endRow)) ==
            [Tag(row), Tag(open1)] + Lone(t) + [Tag(close1), Tag(open2)] + Normalize(cell) + [Tag(close2), Tag(endRow)]
  {
    NormalizeTwoCellsNested(row, open1, t, close1, open2, cell, close2, endRow);
    RegroupCells(Tag(row), Tag(open1), Lone(t), Tag(close1), Tag(open2), Normalize(cell), Tag(close2), Tag(endRow));
  }

  lemma FlattenWrapText(open: string, t: string, close: string)
    ensures Flatten(Wrap(open, [Text(t)], close)) == Emit(Tag(open)) + t + Emit(Tag(close))
  {
    FlattenWrap(open, [Text(t)], close);
    FlattenText(t);
  }

  /** One step of flattening a sequence of blocks. */
  lemma FlattenFlatStep(pss: seq<seq<Piece>>, a: string, b: string)
    requires pss != [] && Flatten(pss[0]) == a && Flatten(Flat(pss[1..])) == b
    ensures Flatten(Flat(pss)) == a + b
  {
    FlattenAppend(pss[0], Flat(pss[1..]));
  }

  lemma FlattenCons(p: Piece, ps: seq<Piece>)
    ensures Flatten([p] + ps) == Emit(p) + Flatten(ps)
  {
    assert ([p] + ps)[0] == p;
    assert ([p] + ps)[1..] == ps;
  }

  lemma TagsOfCons(p: Piece, ps: seq<Piece>)
    ensures TagsOf([p] + ps) == (if p.Tag? then [p.name] else []) + TagsOf(ps)
  {
    assert ([p] + ps)[0] == p;
    assert ([p] + ps)[1..] == ps;
  }

  /** A tag built around inert text from clean parts is clean. */
  lemma CleanAround(pre: string, mid: string, suf: string)
    requires Clean(Tag(pre)) && Clean(Tag(suf)) && Inert(mid)
    ensures Clean(Tag(pre + mid + suf))
  {
    var n := pre + mid + suf;
    forall i | 0 <= i < |n|
      ensures n[i] != '<' && n[i] != '>'
    {
      if i < |pre| {
        assert n[i] == pre[i];
      } else if i < |pre| + |mid| {
        assert n[i] == mid[i - |pre|];
      } else {
        assert n[i] == suf[i - |pre| - |mid|];
      }
    }
  }

  // ---------------------------------------------------------------------------
  // Markup that reads back on its own

  /**
    Clean pieces that end with a tag, or no pieces at all: written out, every
    tag they open is closed and no text run is left open, so whatever follows
    is read as if it stood alone (`LexClosedThen`).
   */
  predicate Closed(ps: seq<Piece>) {
    AllClean(ps) && (ps == [] || ps[|ps| - 1].Tag?)
  }

  /** A non-empty text run put in front of pieces that begin as `[head] + r` does. */
  lemma ConsSplit(t: string, head: Piece, r: seq<Piece>, n': seq<Piece>, l: seq<Piece>)
    requires t != [] && [head] + r == n' + l && (head.Text? ==> n' != [])
    ensures Cons(Text(t), n') + l ==
            (if head.Text? then [Text(t + head.text)] + r else [Text(t), head] + r)
  {
    if n' != [] {
      assert (n' + l)[0] == n'[0] && ([head] + r)[0] == head;
      assert (n' + l)[1..] == n'[1..] + l && ([head] + r)[1..] == r;
    } else {
      assert l == [head] + r;
    }
  }

  /** A text run in front of text that starts with a tag or is empty stays a run of its own. */
  lemma LexTextThenTag(t: string, x: string, n': seq<Piece>, l: seq<Piece>)
    requires t != [] && Clean(Text(t)) && Lex(x) == n' + l
    requires x == [] || x[0] == '<'
    ensures Lex(t + x) == Cons(Text(t), n') + l
  {
    LexTextBeforeTag(t, x);
    if x != [] {
      LexStartsWithTag(x);
    }
    ConsBeforeTag(t, Lex(x), n', l);
  }

  lemma ConsBeforeTag(t: string, lx: seq<Piece>, n': seq<Piece>, l: seq<Piece>)
    requires t != [] && lx == n' + l && (lx == [] || lx[0].Tag?)
    ensures Cons(Text(t), n') + l == [Text(t)] + lx
  {
    if lx != [] {
      assert lx == [lx[0]] + lx[1..];
      ConsSplit(t, lx[0], lx[1..], n', l);
    }
  }

  /** A text run in front of text that starts with text merges with that text. */
  lemma LexTextThenText(t: string, x: string, n': seq<Piece>, l: seq<Piece>)
    requires t != [] && Clean(Text(t)) && Lex(x) == n' + l && n' != []
    requires x != [] && x[0] != '<'
    ensures Lex(t + x) == Cons(Text(t), n') + l
  {
    LexTextBeforeText(t, x);
    var j := FindChar(x, '<', 0);
    ConsSplit(t, Text(x[..j]), Lex(x[j..]), n', l);
  }

  /**
    One clean piece in front of text that reads as `n' + l` reads as the
    piece put in front of `n'`, then `l`; a text piece needs `n'` non-empty.
   */
  lemma LexConsThen(p: Piece, x: string, n': seq<Piece>, l: seq<Piece>)
    requires Clean(p) && Lex(x) == n' + l
    requires p.Text? ==> n' != []
    ensures Lex(Emit(p) + x) == Cons(p, n') + l
  {
    match p
    case Tag(n) =>
      LexTag(n, x);
    case Text(t) =>
      if t == [] {
        assert Emit(p) + x == x;
      } else if x == [] || x[0] == '<' {
        LexTextThenTag(t, x, n', l);
      } else {
        LexTextThenText(t, x, n', l);
      }
  }

  /** Closed markup without its first piece is closed; after a text piece, something is left. */
  lemma ClosedTail(ps: seq<Piece>)
    requires Closed(ps) && ps != []
    ensures Closed(ps[1..])
    ensures ps[0].Text? ==> Normalize(ps[1..]) != []
  {
    var tail := ps[1..];
    assert AllClean(tail);
    assert tail != [] ==> tail[|tail| - 1] == ps[|ps| - 1];
    if ps[0].Text? {
      NormalizeAfterTag(tail, []);
    }
  }

  lemma LexClosedStep(p: Piece, ft: string, nt: seq<Piece>, rest: string)
    requires Clean(p) && (p.Text? ==> nt != [])
    requires Lex(ft + rest) == nt + Lex(rest)
    ensures Lex(Emit(p) + ft + rest) == Cons(p, nt) + Lex(rest)
  {
    assert Emit(p) + ft + rest == Emit(p) + (ft + rest);
    LexConsThen(p, ft + rest, nt, Lex(rest));
  }

  /** Text after closed markup is read as if it stood alone. */
  lemma {:induction false} LexClosedThen(ps: seq<Piece>, rest: string)
    requires Closed(ps)
    ensures Lex(Flatten(ps) + rest) == Normalize(ps) + Lex(rest)
    decreases |ps|
  {
    if ps == [] {
      assert Flatten(ps) + rest == rest;
    } else {
      ClosedTail(ps);
      LexClosedThen(ps[1..], rest);
      LexClosedStep(ps[0], Flatten(ps[1..]), Normalize(ps[1..]), rest);
    }
  }

  /** Reading closed markup and what follows it reads each part on its own. */
  lemma LexAppendClosed(ps: seq<Piece>, rest: string)
    requires Closed(ps)
    ensures Lex(Flatten(ps) + rest) == Lex(Flatten(ps)) + Lex(rest)
  {
    LexClosedThen(ps, rest);
    LexFlatten(ps);
  }

  lemma ClosedAppend(a: seq<Piece>, b: seq<Piece>)
    requires Closed(a) && Closed(b)
    ensures Closed(a + b)
  {
    AllCleanAppend(a, b);
    if b != [] {
      assert (a + b)[|a + b| - 1] == b[|b| - 1];
    } else {
      assert a + b == a;
    }
  }

  lemma ClosedWrap(open: string, inner: seq<Piece>, close: string)
    requires AllClean(Wrap(open, inner, close))
    ensures Closed(Wrap(open, inner, close))
  {
  }

  lemma {:induction false} ClosedFlat(pss: seq<seq<Piece>>)
    requires forall i :: 0 <= i < |pss| ==> Closed(pss[i])
    ensures Closed(Flat(pss))
  {
    if pss != [] {
      ClosedFlat(pss[1..]);
      ClosedAppend(pss[0], Flat(pss[1..]));
    }
  }

  /** Text that reads back the same whatever follows it. */
  ghost predicate Separates(s: string) {
    forall rest :: Lex(s + rest) == Lex(s) + Lex(rest)
  }

  lemma SeparatesClosed(ps: seq<Piece>)
    requires Closed(ps)
    ensures Separates(Flatten(ps))
  {
    forall rest
      ensures Lex(Flatten(ps) + rest) == Lex(Flatten(ps)) + Lex(rest)
    {
      LexAppendClosed(ps, rest);
    }
  }

  lemma CleanTextAppend(a: string, b: string)
    requires Clean(Text(a)) && Clean(Text(b))
    ensures Clean(Text(a + b))
  {
    forall i | 0 <= i < |a + b|
      ensures (a + b)[i] != '<'
    {
      if i < |a| {
        assert (a + b)[i] == a[i];
      } else {
        assert (a + b)[i] == b[i - |a|];
      }
    }
  }

  /** A text run closed by a tag reads as the run, if it is not empty, then the tag. */
  lemma NormalizeRunTag(t: string, n: string, rest: seq<Piece>)
    ensures Normalize([Text(t), Tag(n)] + rest) == Lone(t) + [Tag(n)] + Normalize(rest)
  {
    var x := [Text(t), Tag(n)] + rest;
    assert x[0] == Text(t) && x[1..] == [Tag(n)] + rest;
    var y := [Tag(n)] + rest;
    assert y[0] == Tag(n) && y[1..] == rest;
  }

  lemma LexSplit(s: string, rest: string)
    requires Separates(s)
    ensures Lex(s + rest) == Lex(s) + Lex(rest)
  {
  }

  lemma AppendAssoc<T>(a: seq<T>, b: seq<T>, c: seq<T>)
    ensures a + b + c == a + (b + c)
  {
  }
}
