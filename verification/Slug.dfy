/** Names made safe for DNS labels, and the namespace names built from them. */
module Slug {
  import opened Options

  type Text = seq<char>

  const MAX_SLUG := 50
  const FALLBACK: Text := "replica"

  predicate IsDigit(c: char) { '0' <= c <= '9' }
  predicate IsLower(c: char) { 'a' <= c <= 'z' }
  predicate IsUpper(c: char) { 'A' <= c <= 'Z' }
  predicate IsWord(c: char) { IsDigit(c) || IsLower(c) }

  function Lowered(c: char): char { if IsUpper(c) then 'a' + (c - 'A') else c }

  function Mapped(c: char): char { if IsWord(c) || IsUpper(c) then Lowered(c) else '-' }

  /** Every run of other characters becomes one dash; none right after one, where `dashed`. */
  function Collapse(s: Text, dashed: bool): Text {
    if s == [] then []
    else
      var m := Mapped(s[0]);
      if m != '-' then [m] + Collapse(s[1..], false)
      else if dashed then Collapse(s[1..], true)
      else ['-'] + Collapse(s[1..], true)
  }

  function TrimEnd(t: Text): Text { if t != [] && t[|t| - 1] == '-' then TrimEnd(t[..|t| - 1]) else t }

  function TrimStart(t: Text): Text { if t != [] && t[0] == '-' then TrimStart(t[1..]) else t }

  function OrFallback(t: Text): Text { if t == [] then FALLBACK else t }

  function Shortened(t: Text): Text { if |t| > MAX_SLUG then TrimEnd(t[..MAX_SLUG]) else t }

  function SlugOf(s: Text): Text { Shortened(OrFallback(TrimStart(TrimEnd(Collapse(s, true))))) }

  /** The loops that build it. */
  method MakeSlug(s: Text) returns (out: Text)
    ensures out == SlugOf(s)
  {
    out := [];
    var prevDash, i := true, 0;
    while i < |s|
      invariant 0 <= i <= |s|
      invariant out + Collapse(s[i..], prevDash) == Collapse(s, true)
    {
      assert s[i..][1..] == s[i + 1..];
      var mapped := Mapped(s[i]);
      if mapped == '-' {
        if !prevDash {
          out := out + ['-'];
          prevDash := true;
        }
      } else {
        out := out + [mapped];
        prevDash := false;
      }
      i := i + 1;
    }
    assert out == Collapse(s, true);
    out := DropTrailing(out);
    ghost var ended := out;
    while out != [] && out[0] == '-'
      invariant TrimStart(out) == TrimStart(ended)
    {
      out := out[1..];
    }
    if out == [] { out := FALLBACK; }
    if |out| > MAX_SLUG {
      out := DropTrailing(out[..MAX_SLUG]);
    }
  }

  method DropTrailing(t: Text) returns (r: Text)
    ensures r == TrimEnd(t)
  {
    r := t;
    while r != [] && r[|r| - 1] == '-'
      invariant TrimEnd(r) == TrimEnd(t)
    {
      r := r[..|r| - 1];
    }
  }

  // ----- What a slug looks like ------------------------------------------------------------

  /** Lower-case letters and digits, and dashes of which no two are together. */
  predicate Tidy(t: Text) {
    && (forall i :: 0 <= i < |t| ==> IsWord(t[i]) || t[i] == '-')
    && (forall i :: 0 <= i < |t| - 1 ==> !(t[i] == '-' && t[i + 1] == '-'))
  }

  predicate IsSlug(t: Text) {
    1 <= |t| <= 50 && Tidy(t) && t[0] != '-' && t[|t| - 1] != '-'
  }

  lemma {:induction false} CollapseTidy(s: Text, dashed: bool)
    ensures Tidy(Collapse(s, dashed))
    ensures dashed && Collapse(s, dashed) != [] ==> Collapse(s, dashed)[0] != '-'
  {
    if s != [] {
      var m := Mapped(s[0]);
      CollapseTidy(s[1..], m == '-');
      if m != '-' || !dashed {
        var rest := Collapse(s[1..], m == '-');
        assert Collapse(s, dashed) == [m] + rest;
        assert forall i :: 0 < i < |Collapse(s, dashed)| ==> Collapse(s, dashed)[i] == rest[i - 1];
      }
    }
  }

  lemma {:induction false} TrimEndKeeps(t: Text)
    ensures TrimEnd(t) <= t
    ensures TrimEnd(t) != [] ==> TrimEnd(t)[|TrimEnd(t)| - 1] != '-'
    ensures t != [] && t[0] != '-' ==> TrimEnd(t) != []
    ensures forall i :: |TrimEnd(t)| <= i < |t| ==> t[i] == '-'
    decreases |t|
  {
    if t != [] && t[|t| - 1] == '-' { TrimEndKeeps(t[..|t| - 1]); }
  }

  lemma TidyPrefix(t: Text, p: Text)
    requires Tidy(t) && p <= t
    ensures Tidy(p)
  { }

  /** What is left of a text before it is shortened. */
  function Trimmed(s: Text): Text { OrFallback(TrimStart(TrimEnd(Collapse(s, true)))) }

  lemma TrimmedTidy(s: Text)
    ensures TrimStart(TrimEnd(Collapse(s, true))) == TrimEnd(Collapse(s, true))
    ensures var t := Trimmed(s); t != [] && Tidy(t) && t[0] != '-' && t[|t| - 1] != '-'
  {
    CollapseTidy(s, true);
    TrimEndKeeps(Collapse(s, true));
    TidyPrefix(Collapse(s, true), TrimEnd(Collapse(s, true)));
  }

  /** Every text at all becomes a slug. */
  lemma SlugIsSlug(s: Text)
    ensures IsSlug(SlugOf(s))
  {
    TrimmedTidy(s);
    var t := Trimmed(s);
    if |t| > MAX_SLUG {
      TrimEndKeeps(t[..MAX_SLUG]);
      TidyPrefix(t, SlugOf(s));
    }
  }

  lemma {:induction false} TidyCollapses(t: Text, dashed: bool)
    requires Tidy(t) && (dashed && t != [] ==> t[0] != '-')
    ensures Collapse(t, dashed) == t
  {
    if t != [] {
      assert forall i :: 0 <= i < |t[1..]| ==> t[1..][i] == t[i + 1];
      TidyCollapses(t[1..], t[0] == '-');
      assert t == [t[0]] + t[1..];
    }
  }

  /** A text is its own slug exactly when it is a slug; so making one twice is making it
      once. */
  lemma SlugFixedExactly(t: Text)
    ensures SlugOf(t) == t <==> IsSlug(t)
    ensures SlugOf(SlugOf(t)) == SlugOf(t)
  {
    SlugIsSlug(t);
    SlugKeepsSlug(SlugOf(t));
    if IsSlug(t) { SlugKeepsSlug(t); }
  }

  lemma SlugKeepsSlug(t: Text)
    requires IsSlug(t)
    ensures SlugOf(t) == t
  {
    TidyCollapses(t, true);
  }

  // ----- What it keeps of the name ------------------------------------------------------------

  const Upper := "ABCDEFGHIJKLMNOPQRSTUVWXYZ"
  const Lower := "abcdefghijklmnopqrstuvwxyz"

  /** A capital becomes its small letter, small letters and digits stay, all else is a dash. */
  lemma MappedExactly(c: char, i: nat)
    ensures i < 26 ==> Mapped(Upper[i]) == Lower[i]
    ensures IsWord(c) ==> Mapped(c) == c
    ensures !IsWord(c) && c !in Upper ==> Mapped(c) == '-'
  {
    if IsUpper(c) {
      var k := (c - 'A') as int;
      assert Upper[k] == c;
    }
  }

  /** The letters and digits of a text, in lower case. */
  function Words(t: Text): Text {
    if t == [] then [] else (if Mapped(t[0]) == '-' then [] else [Mapped(t[0])]) + Words(t[1..])
  }

  lemma {:induction false} CollapseWords(s: Text, dashed: bool)
    ensures Words(Collapse(s, dashed)) == Words(s)
  {
    if s != [] {
      var m := Mapped(s[0]);
      CollapseWords(s[1..], m == '-');
      if m != '-' || !dashed {
        assert Collapse(s, dashed)[1..] == Collapse(s[1..], m == '-');
      }
    }
  }

  lemma {:induction false} WordsAppend(a: Text, b: Text)
    ensures Words(a + b) == Words(a) + Words(b)
  {
    if a == [] {
      assert a + b == b;
    } else {
      assert (a + b)[1..] == a[1..] + b;
      WordsAppend(a[1..], b);
    }
  }

  lemma {:induction false} DashesNoWords(t: Text)
    requires forall i :: 0 <= i < |t| ==> t[i] == '-'
    ensures Words(t) == []
  {
    if t != [] { DashesNoWords(t[1..]); }
  }

  lemma TrimEndWords(t: Text)
    ensures Words(TrimEnd(t)) == Words(t)
  {
    TrimEndKeeps(t);
    var n := |TrimEnd(t)|;
    DashesNoWords(t[n..]);
    WordsAppend(TrimEnd(t), t[n..]);
    assert TrimEnd(t) + t[n..] == t;
  }

  lemma ShortenedWords(t: Text)
    ensures Words(Shortened(t)) <= Words(t)
  {
    if |t| > MAX_SLUG {
      TrimEndWords(t[..MAX_SLUG]);
      WordsAppend(t[..MAX_SLUG], t[MAX_SLUG..]);
      assert t[..MAX_SLUG] + t[MAX_SLUG..] == t;
    }
  }

  lemma TrimmedWords(s: Text)
    ensures Words(s) == [] ==> Trimmed(s) == FALLBACK
    ensures Words(s) != [] ==> Words(Trimmed(s)) == Words(s)
  {
    TrimmedTidy(s);
    CollapseWords(s, true);
    TrimEndWords(Collapse(s, true));
    TrimEndKeeps(Collapse(s, true));
    CollapseTidy(s, true);
  }

  /** A slug spells the letters and digits of its text from the start, all of them where
      nothing had to be cut; only a text with none at all gets the fallback. */
  lemma SlugSpellsText(s: Text)
    ensures Words(s) == [] ==> SlugOf(s) == "replica"
    ensures Words(s) != [] ==> Words(SlugOf(s)) <= Words(s)
    ensures Words(s) != [] && |Trimmed(s)| <= 50 ==> Words(SlugOf(s)) == Words(s)
  {
    TrimmedWords(s);
    ShortenedWords(Trimmed(s));
  }

  // ----- Namespace names -----------------------------------------------------------------------

  function HexDigit(n: int): char
    requires 0 <= n < 16
  {
    "0123456789abcdef"[n]
  }

  type Byte = x: int | 0 <= x < 256

  function Hex(bytes: seq<Byte>): Text {
    if bytes == [] then [] else [HexDigit(bytes[0] / 16), HexDigit(bytes[0] % 16)] + Hex(bytes[1..])
  }

  lemma {:induction false} HexWords(bytes: seq<Byte>)
    ensures |Hex(bytes)| == 2 * |bytes|
    ensures forall i :: 0 <= i < |Hex(bytes)| ==> IsWord(Hex(bytes)[i])
  {
    if bytes != [] { HexWords(bytes[1..]); }
  }

  lemma HexDigitApart(a: int, b: int)
    requires 0 <= a < 16 && 0 <= b < 16 && HexDigit(a) == HexDigit(b)
    ensures a == b
  { }

  lemma {:induction false} HexApart(a: seq<Byte>, b: seq<Byte>)
    requires |a| == |b| && Hex(a) == Hex(b)
    ensures a == b
  {
    if a != [] {
      assert Hex(a)[0] == Hex(b)[0] && Hex(a)[1] == Hex(b)[1];
      HexDigitApart(a[0] / 16, b[0] / 16);
      HexDigitApart(a[0] % 16, b[0] % 16);
      assert Hex(a)[2..] == Hex(a[1..]) && Hex(b)[2..] == Hex(b[1..]);
      HexApart(a[1..], b[1..]);
      assert a == [a[0]] + a[1..] && b == [b[0]] + b[1..];
    }
  }

  /** The first four bytes of the digest tell apart what the name does not. */
  function NamespaceName(name: Text, digest: seq<Byte>): Text
    requires |digest| == 4
  {
    SlugOf(name) + "-" + Hex(digest)
  }

  /** A label by section 2.1 of RFC 1123, within the limit of section 2.3.4 of RFC 1035. */
  predicate IsLabel(t: Text) {
    && 1 <= |t| <= 63 && IsWord(t[0]) && IsWord(t[|t| - 1])
    && forall i :: 0 <= i < |t| ==> IsWord(t[i]) || t[i] == '-'
  }

  lemma NamespaceNameIsLabel(name: Text, digest: seq<Byte>)
    requires |digest| == 4
    ensures IsLabel(NamespaceName(name, digest))
    ensures |NamespaceName(name, digest)| == |SlugOf(name)| + 9
  {
    SlugIsSlug(name);
    HexWords(digest);
  }

  /** Two entries share a namespace only when both the slug and the digest are the same. */
  lemma NamespaceNamesApart(a: Text, x: seq<Byte>, b: Text, y: seq<Byte>)
    requires |x| == 4 && |y| == 4
    ensures NamespaceName(a, x) == NamespaceName(b, y) <==> SlugOf(a) == SlugOf(b) && x == y
  {
    HexWords(x);
    HexWords(y);
    var n, m := NamespaceName(a, x), NamespaceName(b, y);
    assert n[|n| - 8..] == Hex(x) && m[|m| - 8..] == Hex(y);
    assert n[..|n| - 9] == SlugOf(a) && m[..|m| - 9] == SlugOf(b);
    if n == m { HexApart(x, y); }
  }
}
