/**
  The human-readable label of a section, `section.replace('_', ' ').title()`
  (modules/report_generator.py:151, 168, 177).

  `str.title()` upper-cases a cased character that follows an uncased one (or
  starts the text) and lower-cases a cased character that follows a cased
  one; uncased characters are kept.  Here the cased characters are the ASCII
  letters.
 */
module Labels {

  predicate IsUpper(c: char) { 'A' <= c <= 'Z' }

  predicate IsLower(c: char) { 'a' <= c <= 'z' }

  predicate IsLetter(c: char) { IsUpper(c) || IsLower(c) }

  function ToUpper(c: char): (r: char)
    ensures IsLetter(r) <==> IsLetter(c)
    ensures IsLetter(c) ==> IsUpper(r)
  {
    if IsLower(c) then (c as int - 32) as char else c
  }

  function ToLower(c: char): (r: char)
    ensures IsLetter(r) <==> IsLetter(c)
    ensures IsLetter(c) ==> IsLower(r)
  {
    if IsUpper(c) then (c as int + 32) as char else c
  }

  /** `str.title()` on the rest of a text, given whether the character before it was a letter. */
  function TitleFrom(s: string, afterLetter: bool): string {
    if s == [] then []
    else if IsLetter(s[0]) then
      [if afterLetter then ToLower(s[0]) else ToUpper(s[0])] + TitleFrom(s[1..], true)
    else
      [s[0]] + TitleFrom(s[1..], false)
  }

  function Title(s: string): string {
    TitleFrom(s, false)
  }

  function SpaceUnderscores(s: string): string {
    if s == [] then [] else [if s[0] == '_' then ' ' else s[0]] + SpaceUnderscores(s[1..])
  }

  /** The label shown for a section key in the navigation, the summary and the section heading. */
  function Label(key: string): string {
    Title(SpaceUnderscores(key))
  }

  /** What title-casing puts at position `i`, judged from the character and its predecessor alone. */
  function TitleCharAt(s: string, i: nat): char
    requires i < |s|
  {
    if !IsLetter(s[i]) then s[i]
    else if i > 0 && IsLetter(s[i - 1]) then ToLower(s[i])
    else ToUpper(s[i])
  }

  lemma {:induction false} TitleFromPointwise(s: string, afterLetter: bool)
    ensures |TitleFrom(s, afterLetter)| == |s|
    ensures forall i :: 0 < i < |s| ==> TitleFrom(s, afterLetter)[i] == TitleCharAt(s, i)
    ensures |s| > 0 ==>
              TitleFrom(s, afterLetter)[0] ==
              (if !IsLetter(s[0]) then s[0] else if afterLetter then ToLower(s[0]) else ToUpper(s[0]))
  {
    if s != [] {
      var rest := s[1..];
      TitleFromPointwise(rest, IsLetter(s[0]));
      var t := TitleFrom(s, afterLetter);
      assert t[1..] == TitleFrom(rest, IsLetter(s[0]));
      forall i | 0 < i < |s|
        ensures t[i] == TitleCharAt(s, i)
      {
        assert t[i] == TitleFrom(rest, IsLetter(s[0]))[i - 1];
        assert rest[i - 1] == s[i];
        if i > 1 {
          assert rest[i - 2] == s[i - 1];
        }
      }
    }
  }

  /**
    Title-casing keeps the length, and the character at each position
    depends only on that character and the one before it.
   */
  lemma TitlePointwise(s: string)
    ensures |Title(s)| == |s|
    ensures forall i :: 0 <= i < |s| ==> Title(s)[i] == TitleCharAt(s, i)
  {
    TitleFromPointwise(s, false);
  }

  /** Title-casing an already title-cased text changes nothing. */
  lemma TitleIdempotent(s: string)
    ensures Title(Title(s)) == Title(s)
  {
    var t := Title(s);
    TitlePointwise(s);
    TitlePointwise(t);
    forall i | 0 <= i < |t|
      ensures Title(t)[i] == t[i]
    {
      assert IsLetter(t[i]) <==> IsLetter(s[i]);
      if i > 0 {
        assert IsLetter(t[i - 1]) <==> IsLetter(s[i - 1]);
      }
    }
  }

  lemma {:induction false} SpaceUnderscoresPointwise(s: string)
    ensures |SpaceUnderscores(s)| == |s|
    ensures forall i :: 0 <= i < |s| ==> SpaceUnderscores(s)[i] == if s[i] == '_' then ' ' else s[i]
  {
    if s != [] {
      SpaceUnderscoresPointwise(s[1..]);
      var r := SpaceUnderscores(s);
      assert r[1..] == SpaceUnderscores(s[1..]);
      forall i | 0 < i < |s|
        ensures r[i] == if s[i] == '_' then ' ' else s[i]
      {
        assert r[i] == r[1..][i - 1];
        assert s[1..][i - 1] == s[i];
      }
    }
  }

  /**
    The label has one character per key character: an underscore becomes a
    space, a letter is upper-case exactly when it starts the key or follows a
    non-letter, and every other character is kept.  So it holds no underscore,
    and labelling a label changes nothing.
   */
  lemma LabelSpec(key: string)
    ensures |Label(key)| == |key|
    ensures forall i :: 0 <= i < |key| ==>
              Label(key)[i] == if key[i] == '_' then ' ' else TitleCharAt(key, i)
    ensures forall i :: 0 <= i < |key| ==> Label(key)[i] != '_'
    ensures Label(Label(key)) == Label(key)
  {
    var u := SpaceUnderscores(key);
    SpaceUnderscoresPointwise(key);
    TitlePointwise(u);
    forall i | 0 <= i < |key|
      ensures Label(key)[i] == if key[i] == '_' then ' ' else TitleCharAt(key, i)
    {
      if i > 0 {
        assert IsLetter(u[i - 1]) <==> IsLetter(key[i - 1]);
      }
    }
    var l := Label(key);
    SpaceUnderscoresPointwise(l);
    assert SpaceUnderscores(l) == l;
    TitleIdempotent(u);
  }
}
