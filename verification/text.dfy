/**
 * The pieces of Python's `str` behaviour the chat programs rely on: `strip()`,
 * `lower()`, `split()[0]` and `startswith('/')`, over Dafny strings (sequences
 * of Unicode scalar values).
 */
module Text {

  /** Python's `str.isspace()` for one character: the set `strip()` and `split()` cut on. */
  predicate IsSpace(ch: char) {
    || ch == ' '
    || ('\t' <= ch <= '\r')
    || ('\U{1C}' <= ch <= '\U{1F}')
    || ch == '\U{85}' || ch == '\U{A0}' || ch == '\U{1680}'
    || ('\U{2000}' <= ch <= '\U{200A}')
    || ch == '\U{2028}' || ch == '\U{2029}' || ch == '\U{202F}'
    || ch == '\U{205F}' || ch == '\U{3000}'
  }

  /** Every character is whitespace (the empty string included). */
  predicate Blank(s: string) {
    forall i :: 0 <= i < |s| ==> IsSpace(s[i])
  }

  function TrimStart(s: string): string {
    if s != [] && IsSpace(s[0]) then TrimStart(s[1..]) else s
  }

  function TrimEnd(s: string): string {
    if s != [] && IsSpace(s[|s| - 1]) then TrimEnd(s[..|s| - 1]) else s
  }

  /** Python's `s.strip()`. */
  function Strip(s: string): string {
    TrimEnd(TrimStart(s))
  }

  /** A string that `strip()` leaves alone: it neither starts nor ends with whitespace. */
  predicate Unpadded(t: string) {
    t != [] ==> !IsSpace(t[0]) && !IsSpace(t[|t| - 1])
  }

  lemma {:induction false} TrimStartCuts(s: string)
    ensures |TrimStart(s)| <= |s|
    ensures TrimStart(s) == s[|s| - |TrimStart(s)|..]
    ensures Blank(s[..|s| - |TrimStart(s)|])
    ensures TrimStart(s) != [] ==> !IsSpace(TrimStart(s)[0])
  {
    if s != [] && IsSpace(s[0]) {
      TrimStartCuts(s[1..]);
      var k := |s| - |TrimStart(s)|;
      assert s[1..][..k - 1] == s[1..k];
      assert forall i :: 1 <= i < k ==> s[i] == s[1..][..k - 1][i - 1];
    }
  }

  lemma {:induction false} TrimEndCuts(s: string)
    ensures |TrimEnd(s)| <= |s|
    ensures TrimEnd(s) == s[..|TrimEnd(s)|]
    ensures Blank(s[|TrimEnd(s)|..])
    ensures TrimEnd(s) != [] ==> !IsSpace(TrimEnd(s)[|TrimEnd(s)| - 1])
  {
    if s != [] && IsSpace(s[|s| - 1]) {
      var p := s[..|s| - 1];
      TrimEndCuts(p);
      var k := |TrimEnd(s)|;
      assert p[..k] == s[..k];
      assert forall i :: k <= i < |s| - 1 ==> s[i] == p[k..][i - k];
    }
  }

  lemma {:induction false} TrimEndKeepsHead(s: string)
    requires s != [] && !IsSpace(s[0])
    ensures TrimEnd(s) != [] && TrimEnd(s)[0] == s[0]
  {
    if IsSpace(s[|s| - 1]) {
      TrimEndKeepsHead(s[..|s| - 1]);
    }
  }

  /**
   * What `strip()` computes: the string with its whitespace border cut off
   * on both sides, and nothing else. The result is a contiguous piece of `s`
   * that neither starts nor ends with whitespace, and everything cut is
   * whitespace; the result is empty exactly when `s` is all whitespace.
   */
  lemma StripCutsBorder(s: string)
    ensures Unpadded(Strip(s))
    ensures Strip(s) == [] <==> Blank(s)
    ensures |TrimStart(s)| <= |s|
    ensures var i := |s| - |TrimStart(s)|;
            i + |Strip(s)| <= |s| && Strip(s) == s[i..i + |Strip(s)|]
            && Blank(s[..i]) && Blank(s[i + |Strip(s)|..])
  {
    var t := TrimStart(s);
    TrimStartCuts(s);
    TrimEndCuts(t);
    var i := |s| - |t|;
    var u := Strip(s);
    if t != [] && !IsSpace(t[0]) {
      TrimEndKeepsHead(t);
    }
    assert s[i..][..|u|] == s[i..i + |u|];
    assert forall k :: i + |u| <= k < |s| ==> s[k] == t[|u|..][k - i - |u|];
    if u != [] {
      assert s[i] == u[0];
    } else {
      assert t == [];
      assert s[..i] == s;
    }
  }

  /** Stripping twice is stripping once. */
  lemma StripIdempotent(s: string)
    ensures Strip(Strip(s)) == Strip(s)
  {
    StripCutsBorder(s);
    var u := Strip(s);
    if u != [] {
      assert TrimStart(u) == u;
      assert TrimEnd(u) == u;
    }
  }

  /** ASCII `lower()` of one character. */
  function LowerChar(ch: char): char {
    if 'A' <= ch <= 'Z' then (ch as int + 32) as char else ch
  }

  /**
   * Python's `s.lower()`, restricted to ASCII letters. Every word this model
   * compares a lowered string with is ASCII, and the only non-ASCII characters
   * Python lowers into ASCII ('\U{212A}' to 'k', '\U{130}' to "i\U{307}")
   * cannot produce one of those words, so the comparisons come out the same.
   */
  function Lower(s: string): string {
    seq(|s|, i requires 0 <= i < |s| => LowerChar(s[i]))
  }

  /** The leading run of non-whitespace characters. */
  function Word(s: string): string {
    if s == [] || IsSpace(s[0]) then [] else [s[0]] + Word(s[1..])
  }

  /** Python's `s.split()[0]`: the first whitespace-separated token ("" if there is none). */
  function FirstToken(s: string): string {
    Word(TrimStart(s))
  }

  /** `s.startswith('/')`. */
  predicate IsSlashed(s: string) {
    s != [] && s[0] == '/'
  }

  lemma {:induction false} WordOfJoin(w: string, rest: string)
    requires forall i :: 0 <= i < |w| ==> !IsSpace(w[i])
    requires rest == [] || IsSpace(rest[0])
    ensures Word(w + rest) == w
  {
    if w != [] {
      assert (w + rest)[1..] == w[1..] + rest;
      WordOfJoin(w[1..], rest);
    } else {
      assert w + rest == rest;
    }
  }

  /**
   * The first token of a command is the word before the first whitespace:
   * whatever follows a space does not change it.
   */
  lemma FirstTokenOfJoin(w: string, rest: string)
    requires w != [] && forall i :: 0 <= i < |w| ==> !IsSpace(w[i])
    requires rest == [] || IsSpace(rest[0])
    ensures FirstToken(w + rest) == w
  {
    assert (w + rest)[0] == w[0];
    WordOfJoin(w, rest);
  }

  lemma {:induction false} LowerWord(s: string)
    ensures Lower(Word(s)) == Word(Lower(s))
  {
    if s != [] && !IsSpace(s[0]) {
      LowerWord(s[1..]);
      assert Lower(s)[1..] == Lower(s[1..]);
      assert Lower([s[0]] + Word(s[1..])) == [LowerChar(s[0])] + Lower(Word(s[1..]));
    }
  }

  lemma {:induction false} LowerTrimStart(s: string)
    ensures Lower(TrimStart(s)) == TrimStart(Lower(s))
  {
    if s != [] && IsSpace(s[0]) {
      LowerTrimStart(s[1..]);
      assert Lower(s)[1..] == Lower(s[1..]);
    }
  }

  /** Lowering commutes with taking the first token. */
  lemma LowerFirstToken(s: string)
    ensures Lower(FirstToken(s)) == FirstToken(Lower(s))
  {
    LowerTrimStart(s);
    LowerWord(TrimStart(s));
  }

  /** Lowering is idempotent. */
  lemma LowerIdempotent(s: string)
    ensures Lower(Lower(s)) == Lower(s)
  {
  }
}
