/**
 * `String.prototype.trim`, as the forms use it to decide whether a name or
 * description was left blank.
 */
module Text {

  /**
   * The WhiteSpace and LineTerminator code points of ECMAScript that `trim`
   * removes from both ends of a string.
   */
  predicate IsWhitespace(c: char)
  {
    || c == '\t' || c == '\n' || c == '\U{B}' || c == '\U{C}' || c == '\r'
    || c == ' ' || c == '\U{A0}' || c == '\U{1680}'
    || ('\U{2000}' <= c <= '\U{200A}')
    || c == '\U{2028}' || c == '\U{2029}' || c == '\U{202F}' || c == '\U{205F}'
    || c == '\U{3000}' || c == '\U{FEFF}'
  }

  /** A string made of whitespace only (the empty string included). */
  predicate AllWhitespace(s: string)
  {
    forall i :: 0 <= i < |s| ==> IsWhitespace(s[i])
  }

  /**
   * `s.trim()`: whitespace is peeled off both ends until a non-whitespace
   * character stands at each end. Nothing is left exactly when `s` was all
   * whitespace.
   */
  function Trim(s: string): (r: string)
    ensures r == [] <==> AllWhitespace(s)
    ensures r != [] ==> !IsWhitespace(r[0]) && !IsWhitespace(r[|r| - 1])
    decreases |s|
  {
    if s != [] && IsWhitespace(s[0]) then
      var t := s[1..];
      assert forall i :: 1 <= i < |s| ==> s[i] == t[i - 1];
      Trim(t)
    else if s != [] && IsWhitespace(s[|s| - 1]) then
      var t := s[..|s| - 1];
      assert forall i :: 0 <= i < |t| ==> t[i] == s[i];
      Trim(t)
    else
      s
  }

  /** `r` is `s[i..j]`, and everything of `s` outside that range is whitespace. */
  ghost predicate WhitespaceAround(s: string, i: nat, j: nat, r: string)
  {
    i <= j <= |s| && r == s[i..j] && AllWhitespace(s[..i]) && AllWhitespace(s[j..])
  }

  /** The trimmed string is the middle of `s`, with only whitespace cut off around it. */
  lemma {:induction false} TrimIsInfix(s: string) returns (i: nat, j: nat)
    ensures WhitespaceAround(s, i, j, Trim(s))
    decreases |s|
  {
    if s != [] && IsWhitespace(s[0]) {
      var i', j' := TrimIsInfix(s[1..]);
      i, j := i' + 1, j' + 1;
      WhitespaceAroundFront(s, i', j', Trim(s));
    } else if s != [] && IsWhitespace(s[|s| - 1]) {
      i, j := TrimIsInfix(s[..|s| - 1]);
      WhitespaceAroundBack(s, i, j, Trim(s));
    } else {
      i, j := 0, |s|;
      assert s[..0] == [] && s[|s|..] == [];
    }
  }

  /** Putting a whitespace character in front keeps the middle, one position further on. */
  lemma WhitespaceAroundFront(s: string, i: nat, j: nat, r: string)
    requires s != [] && IsWhitespace(s[0])
    requires WhitespaceAround(s[1..], i, j, r)
    ensures WhitespaceAround(s, i + 1, j + 1, r)
  {
    var t := s[1..];
    assert t[i..j] == s[i + 1..j + 1];
    assert t[j..] == s[j + 1..];
    assert s[..i + 1] == [s[0]] + t[..i];
  }

  /** Putting a whitespace character at the end keeps the middle where it is. */
  lemma WhitespaceAroundBack(s: string, i: nat, j: nat, r: string)
    requires s != [] && IsWhitespace(s[|s| - 1])
    requires WhitespaceAround(s[..|s| - 1], i, j, r)
    ensures WhitespaceAround(s, i, j, r)
  {
    var t := s[..|s| - 1];
    assert t[i..j] == s[i..j];
    assert t[..i] == s[..i];
    assert s[j..] == t[j..] + [s[|s| - 1]];
  }

  /** Trimming twice is trimming once. */
  lemma TrimIdempotent(s: string)
    ensures Trim(Trim(s)) == Trim(s)
  {
  }
}
