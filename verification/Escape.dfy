/** HTML escaping for Telegram messages and the plain-text fallback that undoes it. */
module Escape {

  // ---- the two replacement operations of Go's strings package ----

  /** Every non-overlapping occurrence of pat, from the left. */
  function ReplaceAll(s: string, pat: string, rep: string): string
    requires pat != ""
    decreases |s|
  {
    if s == "" then ""
    else if pat <= s then rep + ReplaceAll(s[|pat|..], pat, rep)
    else [s[0]] + ReplaceAll(s[1..], pat, rep)
  }

  datatype Pair = Pair(pat: string, rep: string)

  /** The first pair, in argument order, whose pattern starts s; |pairs| when none does. */
  function FirstMatch(pairs: seq<Pair>, s: string): (i: nat)
    ensures i <= |pairs|
    ensures forall j :: 0 <= j < i ==> !(pairs[j].pat <= s)
    ensures i < |pairs| ==> pairs[i].pat <= s
  {
    if pairs == [] || pairs[0].pat <= s then 0 else 1 + FirstMatch(pairs[1..], s)
  }

  ghost predicate NonEmptyPatterns(pairs: seq<Pair>) {
    forall i :: 0 <= i < |pairs| ==> pairs[i].pat != ""
  }

  /** One pass over s: at each position the first matching pattern is replaced, and what
      was written is not looked at again. */
  function Replace(pairs: seq<Pair>, s: string): string
    requires NonEmptyPatterns(pairs)
    decreases |s|
  {
    if s == "" then ""
    else
      var i := FirstMatch(pairs, s);
      if i < |pairs| then pairs[i].rep + Replace(pairs, s[|pairs[i].pat|..])
      else [s[0]] + Replace(pairs, s[1..])
  }

  // ---- htmlEsc and stripTags ----

  function HtmlEsc(s: string): string {
    ReplaceAll(ReplaceAll(ReplaceAll(s, "&", "&amp;"), "<", "&lt;"), ">", "&gt;")
  }

  const STRIP: seq<Pair> := [
    Pair("<blockquote expandable>", ""), Pair("<blockquote>", ""), Pair("</blockquote>", ""),
    Pair("<b>", ""), Pair("</b>", ""), Pair("<code>", ""), Pair("</code>", ""),
    Pair("&lt;", "<"), Pair("&gt;", ">"), Pair("&amp;", "&")]

  const TAGS := 7  // the first seven patterns are the tags

  function StripTags(s: string): string {
    Replace(STRIP, s)
  }

  // ---- three passes are one character map ----

  function EscChar(c: char): string {
    if c == '&' then "&amp;" else if c == '<' then "&lt;" else if c == '>' then "&gt;" else [c]
  }

  function EscText(s: string): string {
    if s == "" then "" else EscChar(s[0]) + EscText(s[1..])
  }

  function ReplaceIn(x: char, c: char, rep: string): string {
    if x == c then rep else [x]
  }

  lemma ReplaceStep(s: string, c: char, rep: string)
    requires s != ""
    ensures ReplaceAll(s, [c], rep) == ReplaceIn(s[0], c, rep) + ReplaceAll(s[1..], [c], rep)
  {
    assert [c] <= s <==> s[0] == c;
  }

  /** Replacing a one-character pattern works character by character, so it splits at
      any point of its input. */
  lemma {:induction false} ReplaceCharSplit(s: string, t: string, c: char, rep: string)
    ensures ReplaceAll(s + t, [c], rep) == ReplaceAll(s, [c], rep) + ReplaceAll(t, [c], rep)
  {
    if s == "" {
      assert s + t == t;
      assert "" + ReplaceAll(t, [c], rep) == ReplaceAll(t, [c], rep);
    } else {
      assert (s + t)[1..] == s[1..] + t && (s + t)[0] == s[0];
      ReplaceStep(s, c, rep);
      ReplaceStep(s + t, c, rep);
      ReplaceCharSplit(s[1..], t, c, rep);
      Assoc(ReplaceIn(s[0], c, rep), ReplaceAll(s[1..], [c], rep), ReplaceAll(t, [c], rep));
    }
  }

  lemma Assoc(a: string, b: string, c: string)
    ensures a + (b + c) == a + b + c
  {
  }

  lemma EscSplit(s: string, t: string)
    ensures HtmlEsc(s + t) == HtmlEsc(s) + HtmlEsc(t)
  {
    ReplaceCharSplit(s, t, '&', "&amp;");
    var s1, t1 := ReplaceAll(s, "&", "&amp;"), ReplaceAll(t, "&", "&amp;");
    ReplaceCharSplit(s1, t1, '<', "&lt;");
    ReplaceCharSplit(ReplaceAll(s1, "<", "&lt;"), ReplaceAll(t1, "<", "&lt;"), '>', "&gt;");
  }

  lemma {:induction false} ReplaceAbsent(s: string, c: char, rep: string)
    requires c !in s
    ensures ReplaceAll(s, [c], rep) == s
  {
    if s != "" {
      assert s[0] != c;
      ReplaceAbsent(s[1..], c, rep);
    }
  }

  lemma ReplaceOne(c: char, d: char, rep: string)
    ensures ReplaceAll([c], [d], rep) == if c == d then rep else [c]
  {
    ReplaceStep([c], d, rep);
    assert [c][1..] == "";
    assert ReplaceAll("", [d], rep) == "";
    assert ReplaceIn(c, d, rep) + "" == ReplaceIn(c, d, rep);
  }

  lemma EscOneChar(c: char)
    ensures HtmlEsc([c]) == EscChar(c)
  {
    ReplaceOne(c, '&', "&amp;");
    if c == '&' {
      ReplaceAbsent("&amp;", '<', "&lt;");
      ReplaceAbsent("&amp;", '>', "&gt;");
    } else {
      ReplaceOne(c, '<', "&lt;");
      if c == '<' {
        ReplaceAbsent("&lt;", '>', "&gt;");
      } else {
        ReplaceOne(c, '>', "&gt;");
      }
    }
  }

  /** The three ReplaceAll passes, in the order the program makes them, are a single map
      over the characters: an ampersand written by one pass is never escaped by a later one. */
  lemma {:induction false} EscIsCharMap(s: string)
    ensures HtmlEsc(s) == EscText(s)
  {
    if s != "" {
      EscIsCharMap(s[1..]);
      EscSplit([s[0]], s[1..]);
      EscOneChar(s[0]);
      assert [s[0]] + s[1..] == s;
    }
  }

  // ---- the single pass over escaped text ----

  ghost predicate PrefixFree(pairs: seq<Pair>) {
    forall i, j :: 0 <= i < |pairs| && 0 <= j < |pairs| && pairs[i].pat <= pairs[j].pat ==> i == j
  }

  /** With prefix-free patterns the order of the arguments is irrelevant: where pattern i
      starts, it is the one replaced, whatever text follows it. */
  lemma ReplaceAt(pairs: seq<Pair>, i: nat, rest: string)
    requires NonEmptyPatterns(pairs) && PrefixFree(pairs) && i < |pairs|
    ensures Replace(pairs, pairs[i].pat + rest) == pairs[i].rep + Replace(pairs, rest)
  {
    var s := pairs[i].pat + rest;
    var j := FirstMatch(pairs, s);
    assert pairs[i].pat <= s;
    assert j <= i;
    assert pairs[j].pat <= s;
    SamePrefix(pairs[i].pat, pairs[j].pat, s);
    assert s[|pairs[i].pat|..] == rest;
  }

  /** Of two prefixes of one text, the shorter is a prefix of the longer. */
  lemma SamePrefix(a: string, b: string, s: string)
    requires a <= s && b <= s
    ensures a <= b || b <= a
  {
    if |a| <= |b| {
      assert a == s[..|a|] == b[..|a|];
    } else {
      assert b == s[..|b|] == a[..|b|];
    }
  }

  lemma StripPatterns()
    ensures NonEmptyPatterns(STRIP) && PrefixFree(STRIP)
    ensures forall i :: 0 <= i < |STRIP| ==> STRIP[i].pat[0] == '<' || STRIP[i].pat[0] == '&'
  {
    forall i, j | 0 <= i < |STRIP| && 0 <= j < |STRIP| && STRIP[i].pat <= STRIP[j].pat
      ensures i == j
    {
      DistinctHeads(i, j);
    }
  }

  /** No two patterns agree on all the characters of the shorter one. */
  lemma DistinctHeads(i: nat, j: nat)
    requires i < |STRIP| && j < |STRIP| && STRIP[i].pat <= STRIP[j].pat
    ensures i == j
  {
    var a, b := STRIP[i].pat, STRIP[j].pat;
    assert forall k :: 0 <= k < |a| ==> a[k] == b[k];
    assert a[1] == b[1] && a[2] == b[2];
    assert |a| > 3 ==> a[3] == b[3];
    assert i == 0 || i == 1 ==> a[11] == b[11];
  }

  /** The pass takes the escape of one character back to that character. */
  lemma StripOneChar(c: char, rest: string)
    ensures StripTags(EscChar(c) + rest) == [c] + StripTags(rest)
  {
    StripPatterns();
    if c == '<' {
      ReplaceAt(STRIP, 7, rest);
    } else if c == '>' {
      ReplaceAt(STRIP, 8, rest);
    } else if c == '&' {
      ReplaceAt(STRIP, 9, rest);
    } else {
      var s := [c] + rest;
      assert s[0] != '<' && s[0] != '&';
      assert s[1..] == rest;
    }
  }

  lemma {:induction false} StripEscaped(s: string, rest: string)
    ensures StripTags(EscText(s) + rest) == s + StripTags(rest)
  {
    hide StripTags, EscChar;
    if s == "" {
      assert EscText(s) + rest == rest;
    } else {
      var tail := EscText(s[1..]);
      Assoc(EscChar(s[0]), tail, rest);
      StripOneChar(s[0], tail + rest);
      StripEscaped(s[1..], rest);
      Assoc([s[0]], s[1..], StripTags(rest));
      assert [s[0]] + s[1..] == s;
    }
  }

  /** Stripping undoes escaping, for every text. */
  lemma StripUndoesEscape(s: string)
    ensures StripTags(HtmlEsc(s)) == s
  {
    EscIsCharMap(s);
    StripEscaped(s, "");
    assert EscText(s) + "" == EscText(s);
  }

  /** So escaping loses nothing: two texts with the same escape are the same. */
  lemma EscapeInjective(s: string, t: string)
    requires HtmlEsc(s) == HtmlEsc(t)
    ensures s == t
  {
    StripUndoesEscape(s);
    StripUndoesEscape(t);
  }

  // ---- documents ----

  /** A message is a sequence of supported tags and escaped texts. */
  datatype Piece = Tag(index: nat) | Text(raw: string)

  predicate IsDocument(doc: seq<Piece>) {
    forall i :: 0 <= i < |doc| ==> doc[i].Tag? ==> doc[i].index < TAGS
  }

  function RenderPiece(p: Piece): string
    requires p.Tag? ==> p.index < TAGS
  {
    match p
    case Tag(i) => STRIP[i].pat
    case Text(raw) => HtmlEsc(raw)
  }

  function Render(doc: seq<Piece>): string
    requires IsDocument(doc)
  {
    if doc == [] then "" else RenderPiece(doc[0]) + Render(doc[1..])
  }

  function PlainPiece(p: Piece): string {
    match p
    case Tag(_) => ""
    case Text(raw) => raw
  }

  /** The text of a document without its tags. */
  function Plain(doc: seq<Piece>): string {
    if doc == [] then "" else PlainPiece(doc[0]) + Plain(doc[1..])
  }

  lemma TagsVanish(i: nat)
    requires i < TAGS
    ensures STRIP[i].rep == ""
  {
  }

  lemma StripTag(i: nat, rest: string)
    requires i < TAGS
    ensures StripTags(STRIP[i].pat + rest) == StripTags(rest)
  {
    StripPatterns();
    TagsVanish(i);
    ReplaceAt(STRIP, i, rest);
    hide Replace, STRIP;
    assert "" + StripTags(rest) == StripTags(rest);
  }

  lemma StripPiece(p: Piece, rest: string)
    requires p.Tag? ==> p.index < TAGS
    ensures StripTags(RenderPiece(p) + rest) == PlainPiece(p) + StripTags(rest)
  {
    match p
    case Tag(i) =>
      StripTag(i, rest);
      assert "" + StripTags(rest) == StripTags(rest);
    case Text(raw) =>
      EscIsCharMap(raw);
      StripEscaped(raw, rest);
  }

  lemma {:induction false} StripRendered(doc: seq<Piece>, rest: string)
    requires IsDocument(doc)
    ensures StripTags(Render(doc) + rest) == Plain(doc) + StripTags(rest)
  {
    if doc == [] {
      assert Render(doc) + rest == rest;
      assert "" + StripTags(rest) == StripTags(rest);
    } else {
      Assoc(RenderPiece(doc[0]), Render(doc[1..]), rest);
      StripPiece(doc[0], Render(doc[1..]) + rest);
      StripRendered(doc[1..], rest);
      Assoc(PlainPiece(doc[0]), Plain(doc[1..]), StripTags(rest));
    }
  }

  /** For every document of supported tags and escaped text, the fallback shows exactly the
      raw text: no tag is left and no character of the text is lost or changed. */
  lemma StripShowsPlainText(doc: seq<Piece>)
    requires IsDocument(doc)
    ensures StripTags(Render(doc)) == Plain(doc)
  {
    StripRendered(doc, "");
    assert Render(doc) + "" == Render(doc);
  }

  // ---- what is left to Telegram ----

  /** An ampersand at i begins one of the three entities. */
  predicate EntityAt(s: string, i: nat)
    requires i < |s|
  {
    "&amp;" <= s[i..] || "&lt;" <= s[i..] || "&gt;" <= s[i..]
  }

  lemma {:induction false} EscTextSafe(s: string)
    ensures '<' !in EscText(s) && '>' !in EscText(s)
    ensures forall i :: 0 <= i < |EscText(s)| && EscText(s)[i] == '&' ==> EntityAt(EscText(s), i)
  {
    if s != "" {
      EscTextSafe(s[1..]);
      var head, tail := EscChar(s[0]), EscText(s[1..]);
      forall i | 0 <= i < |head + tail| && (head + tail)[i] == '&' ensures EntityAt(head + tail, i) {
        if i < |head| {
          assert i == 0 && (head + tail)[0..] == head + tail;
          assert head <= head + tail;
        } else {
          assert (head + tail)[i..] == tail[i - |head|..];
        }
      }
    }
  }

  /** Escaped text has no angle bracket, and no ampersand but that of an entity: Telegram sees no tag
      in it and nothing it could not decode. */
  lemma EscapedIsSafe(s: string)
    ensures '<' !in HtmlEsc(s) && '>' !in HtmlEsc(s)
    ensures forall i :: 0 <= i < |HtmlEsc(s)| && HtmlEsc(s)[i] == '&' ==> EntityAt(HtmlEsc(s), i)
  {
    EscIsCharMap(s);
    EscTextSafe(s);
  }

  /** The seven tags by name, and the three entities. */
  lemma TagsByName(rest: string)
    ensures StripTags("<blockquote expandable>" + rest) == StripTags(rest)
    ensures StripTags("<blockquote>" + rest) == StripTags(rest)
    ensures StripTags("</blockquote>" + rest) == StripTags(rest)
    ensures StripTags("<b>" + rest) == StripTags(rest) && StripTags("</b>" + rest) == StripTags(rest)
    ensures StripTags("<code>" + rest) == StripTags(rest) && StripTags("</code>" + rest) == StripTags(rest)
  {
    hide StripTags;
    TagNames();
    forall i | 0 <= i < TAGS ensures StripTags(STRIP[i].pat + rest) == StripTags(rest) {
      StripTag(i, rest);
    }
  }

  lemma TagNames()
    ensures STRIP[0].pat == "<blockquote expandable>" && STRIP[1].pat == "<blockquote>" && STRIP[2].pat == "</blockquote>"
    ensures STRIP[3].pat == "<b>" && STRIP[4].pat == "</b>" && STRIP[5].pat == "<code>" && STRIP[6].pat == "</code>"
  {
  }

  lemma EntitiesByName(rest: string)
    ensures StripTags("&lt;" + rest) == "<" + StripTags(rest)
    ensures StripTags("&gt;" + rest) == ">" + StripTags(rest)
    ensures StripTags("&amp;" + rest) == "&" + StripTags(rest)
  {
    StripOneChar('<', rest);
    StripOneChar('>', rest);
    StripOneChar('&', rest);
  }
}
