/** The two string operations of JavaScript that the validators rely on:
    `length`, which counts UTF-16 code units, and `String.prototype.trim`,
    which strips the ECMAScript WhiteSpace and LineTerminator code points
    from both ends. */
module JsText {

  /** Number of UTF-16 code units that encode `c`: two for a code point
      outside the Basic Multilingual Plane, one otherwise. */
  function CodeUnits(c: char): (n: nat)
    ensures n == 1 || n == 2
  {
    if c as int >= 0x1_0000 then 2 else 1
  }

  /** The value of a JavaScript string's `length` property. */
  function JsLength(s: string): (n: nat)
    ensures |s| <= n <= 2 * |s|
  {
    if s == [] then 0 else JsLength(s[..|s| - 1]) + CodeUnits(s[|s| - 1])
  }

  lemma {:induction false} JsLengthAppend(a: string, b: string)
    ensures JsLength(a + b) == JsLength(a) + JsLength(b)
    decreases |b|
  {
    if b == [] {
      assert a + b == a;
    } else {
      var n := |b| - 1;
      assert (a + b)[..|a + b| - 1] == a + b[..n];
      assert (a + b)[|a + b| - 1] == b[n];
      JsLengthAppend(a, b[..n]);
    }
  }

  /** A prefix of a string is never longer than the string. */
  lemma JsLengthPrefix(s: string, n: nat)
    requires n <= |s|
    ensures JsLength(s[..n]) <= JsLength(s)
  {
    assert s == s[..n] + s[n..];
    JsLengthAppend(s[..n], s[n..]);
  }

  /** Nor is a suffix. */
  lemma JsLengthSuffix(s: string, n: nat)
    requires n <= |s|
    ensures JsLength(s[n..]) <= JsLength(s)
  {
    assert s == s[..n] + s[n..];
    JsLengthAppend(s[..n], s[n..]);
  }

  /** A string of Basic Multilingual Plane characters is as long as it has characters. */
  lemma {:induction false} JsLengthBmp(s: string)
    requires forall i :: 0 <= i < |s| ==> s[i] as int < 0x1_0000
    ensures JsLength(s) == |s|
    decreases |s|
  {
    if s != [] {
      JsLengthBmp(s[..|s| - 1]);
    }
  }

  /** The code points `trim` removes: WhiteSpace (tab, vertical tab, form feed,
      space, no-break space, byte order mark and the Zs category) and
      LineTerminator (line feed, carriage return, line and paragraph separator). */
  predicate IsJsSpace(c: char) {
    var n := c as int;
    || 0x09 <= n <= 0x0D
    || n == 0x20 || n == 0xA0 || n == 0x1680
    || 0x2000 <= n <= 0x200A
    || n == 0x2028 || n == 0x2029 || n == 0x202F || n == 0x205F
    || n == 0x3000 || n == 0xFEFF
  }

  /** Neither end of `s` is a space character. */
  predicate IsTrimmed(s: string) {
    s == [] || (!IsJsSpace(s[0]) && !IsJsSpace(s[|s| - 1]))
  }

  /** `s` with its leading space characters removed. */
  function TrimStart(s: string): (r: string)
    ensures |r| <= |s| && r == s[|s| - |r|..]
    ensures forall k :: 0 <= k < |s| - |r| ==> IsJsSpace(s[k])
    ensures r == [] || !IsJsSpace(r[0])
  {
    if s != [] && IsJsSpace(s[0]) then TrimStart(s[1..]) else s
  }

  /** `s` with its trailing space characters removed. */
  function TrimEnd(s: string): (r: string)
    ensures |r| <= |s| && r == s[..|r|]
    ensures forall k :: |r| <= k < |s| ==> IsJsSpace(s[k])
    ensures r == [] || !IsJsSpace(r[|r| - 1])
  {
    if s != [] && IsJsSpace(s[|s| - 1]) then TrimEnd(s[..|s| - 1]) else s
  }

  /** A prefix `r` of a suffix `t` of `s` is the slice of `s` where `t` begins. */
  lemma SuffixPrefix(s: string, t: string, r: string)
    requires |t| <= |s| && t == s[|s| - |t|..]
    requires |r| <= |t| && r == t[..|r|]
    ensures r == s[|s| - |t|..|s| - |t| + |r|]
    ensures forall k :: 0 <= k < |t| ==> t[k] == s[|s| - |t| + k]
  {
  }

  /** A prefix `r` of a suffix `t` of `s` that starts and ends on non-spaces. */
  lemma TrimmedInfix(t: string, r: string)
    requires |r| <= |t| && r == t[..|r|]
    requires t == [] || !IsJsSpace(t[0])
    requires r == [] || !IsJsSpace(r[|r| - 1])
    ensures IsTrimmed(r)
  {
    assert r != [] ==> r[0] == t[0];
  }

  /** A prefix `r` of a suffix `t` of `s` is no longer than `s`. */
  lemma InfixNoLonger(s: string, t: string, r: string)
    requires |t| <= |s| && t == s[|s| - |t|..]
    requires |r| <= |t| && r == t[..|r|]
    ensures JsLength(r) <= JsLength(s)
  {
    JsLengthSuffix(s, |s| - |t|);
    JsLengthPrefix(t, |r|);
  }

  /** Stripping both ends leaves an infix of `s` with no space at either end. */
  lemma StripBothEnds(s: string)
    ensures IsTrimmed(TrimEnd(TrimStart(s)))
    ensures JsLength(TrimEnd(TrimStart(s))) <= JsLength(s)
  {
    TrimmedInfix(TrimStart(s), TrimEnd(TrimStart(s)));
    InfixNoLonger(s, TrimStart(s), TrimEnd(TrimStart(s)));
  }

  /** `String.prototype.trim`: `s` without the space characters at either end.
      `TrimInfix` shows the result is the infix of `s` between its leading and
      trailing spaces; so it is never longer than `s`. */
  function Trim(s: string): (r: string)
    ensures IsTrimmed(r)
    ensures JsLength(r) <= JsLength(s)
  {
    StripBothEnds(s);
    TrimEnd(TrimStart(s))
  }

  /** Trimming removes only spaces, and only at the ends: the result is the
      infix of `s` at some offset `i`, and everything before and after it is a
      space. Together with `IsTrimmed(Trim(s))` this determines `Trim(s)`. */
  lemma TrimInfix(s: string) returns (i: nat)
    ensures i + |Trim(s)| <= |s| && Trim(s) == s[i..i + |Trim(s)|]
    ensures forall k :: 0 <= k < i ==> IsJsSpace(s[k])
    ensures forall k :: i + |Trim(s)| <= k < |s| ==> IsJsSpace(s[k])
  {
    var t := TrimStart(s);
    assert Trim(s) == TrimEnd(t);
    i := SpacesAround(s, t, Trim(s));
  }

  /** Spaces dropped from the front of `s` and then from the back of what is
      left surround the rest, at offset `i`. */
  lemma SpacesAround(s: string, t: string, r: string) returns (i: nat)
    requires |t| <= |s| && t == s[|s| - |t|..]
    requires forall k :: 0 <= k < |s| - |t| ==> IsJsSpace(s[k])
    requires |r| <= |t| && r == t[..|r|]
    requires forall k :: |r| <= k < |t| ==> IsJsSpace(t[k])
    ensures i + |r| <= |s| && r == s[i..i + |r|]
    ensures forall k :: 0 <= k < i ==> IsJsSpace(s[k])
    ensures forall k :: i + |r| <= k < |s| ==> IsJsSpace(s[k])
  {
    i := |s| - |t|;
    SuffixPrefix(s, t, r);
    forall k | i + |r| <= k < |s|
      ensures IsJsSpace(s[k])
    {
      assert s[k] == t[k - i];
    }
  }

  /** A trimmed string is left as it is: trimming is idempotent. */
  lemma TrimOfTrimmed(s: string)
    requires IsTrimmed(s)
    ensures Trim(s) == s
  {
  }

  lemma TrimIdempotent(s: string)
    ensures Trim(Trim(s)) == Trim(s)
  {
    TrimOfTrimmed(Trim(s));
  }
}
