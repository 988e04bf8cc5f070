/** The part of JavaScript's `String.prototype.trim` the search guards rely on. */
module Text {

  /** WhiteSpace and LineTerminator code points as ECMAScript defines them: these are what `trim` strips. */
  predicate IsJsSpace(c: char) {
    c == '\U{0009}' || c == '\U{000A}' || c == '\U{000B}' || c == '\U{000C}' || c == '\U{000D}'
    || c == '\U{0020}' || c == '\U{00A0}' || c == '\U{1680}'
    || ('\U{2000}' <= c <= '\U{200A}')
    || c == '\U{2028}' || c == '\U{2029}' || c == '\U{202F}' || c == '\U{205F}'
    || c == '\U{3000}' || c == '\U{FEFF}'
  }

  /** Every character of `s` is white space (the empty string included). */
  ghost predicate AllSpace(s: string) {
    forall i :: 0 <= i < |s| ==> IsJsSpace(s[i])
  }

  /** Drops leading white space. */
  function TrimStart(s: string): (r: string)
    ensures |r| <= |s| && r == s[|s| - |r|..]
    ensures r != [] ==> !IsJsSpace(r[0])
    ensures AllSpace(s[..|s| - |r|])
  {
    if s != [] && IsJsSpace(s[0]) then
      var tail := s[1..];
      var r := TrimStart(tail);
      assert r == s[|s| - |r|..] by { assert tail[|tail| - |r|..] == s[|s| - |r|..]; }
      forall i | 0 <= i < |s| - |r| ensures IsJsSpace(s[i]) {
        if 0 < i {
          assert IsJsSpace(tail[..|tail| - |r|][i - 1]);
        }
      }
      r
    else s
  }

  /** Drops trailing white space. */
  function TrimEnd(s: string): (r: string)
    ensures |r| <= |s| && r == s[..|r|]
    ensures r != [] ==> !IsJsSpace(r[|r| - 1])
    ensures AllSpace(s[|r|..])
  {
    if s != [] && IsJsSpace(s[|s| - 1]) then
      var init := s[..|s| - 1];
      var r := TrimEnd(init);
      assert r == s[..|r|] by { assert init[..|r|] == s[..|r|]; }
      forall i | |r| <= i < |s| ensures IsJsSpace(s[i]) {
        if i < |s| - 1 {
          assert IsJsSpace(init[|r|..][i - |r|]);
        }
      }
      r
    else s
  }

  /** `r` is the run of `s` starting at index `k`. */
  ghost predicate SliceAt(s: string, k: int, r: string) {
    0 <= k <= |s| - |r| && r == s[k..k + |r|]
  }

  /**
   * `s.trim()`: the run of `s` left once the white space at both ends is dropped; only white space
   * is dropped, and the run neither starts nor ends with white space.
   */
  function Trim(s: string): (r: string)
    ensures |r| <= |s|
    ensures r != "" ==> !IsJsSpace(r[0]) && !IsJsSpace(r[|r| - 1])
    ensures exists k :: SliceAt(s, k, r) && AllSpace(s[..k]) && AllSpace(s[k + |r|..])
  {
    var t := TrimStart(s);
    var r := TrimEnd(t);
    var k := |s| - |t|;
    assert t == s[k..];
    assert s[k..k + |r|] == t[..|r|];
    assert s[..k] == s[..|s| - |t|];
    assert s[k + |r|..] == t[|r|..];
    assert SliceAt(s, k, r);
    r
  }

  /** `!s.trim()`: the trimmed string is empty exactly when `s` has no character other than white space. */
  lemma TrimEmptyIffAllSpace(s: string)
    ensures Trim(s) == "" <==> AllSpace(s)
  {
  }
}
