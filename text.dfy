/** The string primitives the storefront's forms and searches rely on:
    ECMAScript white space (what `\s` and `String.prototype.trim` use),
    `trim`, removing all white space, lower-casing and `includes`. */
module Text {

  /** ECMAScript WhiteSpace and LineTerminator code points. */
  predicate IsSpace(c: char) {
    || c == '\t' || c == '\n' || c == '\U{000B}' || c == '\U{000C}' || c == '\r'
    || c == ' ' || c == '\U{00A0}' || c == '\U{1680}'
    || ('\U{2000}' <= c <= '\U{200A}')
    || c == '\U{2028}' || c == '\U{2029}' || c == '\U{202F}' || c == '\U{205F}'
    || c == '\U{3000}' || c == '\U{FEFF}'
  }

  predicate AllSpaces(s: string) {
    forall k | 0 <= k < |s| :: IsSpace(s[k])
  }

  predicate NoSpaces(s: string) {
    forall k | 0 <= k < |s| :: !IsSpace(s[k])
  }

  /** Drops leading white space. */
  function TrimStart(s: string): (r: string)
    ensures |r| <= |s| && r == s[|s| - |r|..]
    ensures AllSpaces(s[..|s| - |r|])
    ensures r == [] || !IsSpace(r[0])
  {
    if s != [] && IsSpace(s[0]) then TrimStart(s[1..]) else s
  }

  /** Drops trailing white space. */
  function TrimEnd(s: string): (r: string)
    ensures |r| <= |s| && r == s[..|r|]
    ensures AllSpaces(s[|r|..])
    ensures r == [] || !IsSpace(r[|r| - 1])
  {
    if s != [] && IsSpace(s[|s| - 1]) then TrimEnd(s[..|s| - 1]) else s
  }

  /** `String.prototype.trim`. */
  function Trim(s: string): string {
    TrimEnd(TrimStart(s))
  }

  /** The trimmed string is a slice of the input with only white space cut
      from either end, and neither of its ends is white space. */
  lemma TrimSlice(s: string)
    ensures exists i, j | 0 <= i <= j <= |s| ::
      Trim(s) == s[i..j] && AllSpaces(s[..i]) && AllSpaces(s[j..])
    ensures Trim(s) == [] || (!IsSpace(Trim(s)[0]) && !IsSpace(Trim(s)[|Trim(s)| - 1]))
  {
    var t := TrimStart(s);
    var i := |s| - |t|;
    var j := i + |Trim(s)|;
    assert Trim(s) == s[i..j];
    assert s[j..] == t[|Trim(s)|..];
  }

  /** A string is blank (falsy after `trim`) exactly when it is all white space. */
  lemma {:induction false} BlankIffAllSpaces(s: string)
    ensures Trim(s) == [] <==> AllSpaces(s)
  {
    var t := TrimStart(s);
    if !AllSpaces(s) {
      var k :| 0 <= k < |s| && !IsSpace(s[k]);
      assert k >= |s| - |t|;
      assert t[k - (|s| - |t|)] == s[k];
      TrimEndKeeps(t, k - (|s| - |t|));
    }
  }

  /** `!s.trim()`: the string is empty once trimmed, which `BlankIffAllSpaces`
      shows is the same as being white space only. */
  predicate IsBlank(s: string) {
    AllSpaces(s)
  }

  /** `TrimEnd` never removes a non-space character. */
  lemma {:induction false} TrimEndKeeps(s: string, k: int)
    requires 0 <= k < |s| && !IsSpace(s[k])
    ensures k < |TrimEnd(s)|
  {
  }

  /** Trimming is idempotent. */
  lemma TrimIdempotent(s: string)
    ensures Trim(Trim(s)) == Trim(s)
  {
    var t := Trim(s);
    TrimSlice(s);
    assert TrimStart(t) == t;
    assert TrimEnd(t) == t;
  }

  /** `s.replace(/\s/g, "")`: every white-space character removed. */
  function StripSpaces(s: string): (r: string)
    ensures |r| <= |s|
    ensures NoSpaces(r)
  {
    if s == [] then []
    else StripSpaces(s[..|s| - 1]) + (if IsSpace(s[|s| - 1]) then [] else [s[|s| - 1]])
  }

  /** Removing white space distributes over concatenation, so white space
      anywhere in the input is irrelevant. */
  lemma {:induction false} StripSpacesAppend(a: string, b: string)
    ensures StripSpaces(a + b) == StripSpaces(a) + StripSpaces(b)
  {
    if b == [] {
      assert a + b == a;
    } else {
      var b' := b[..|b| - 1];
      assert (a + b)[..|a + b| - 1] == a + b';
      StripSpacesAppend(a, b');
    }
  }

  /** A string without white space is left as it is. */
  lemma {:induction false} StripSpacesNoop(s: string)
    requires NoSpaces(s)
    ensures StripSpaces(s) == s
  {
    if s != [] {
      StripSpacesNoop(s[..|s| - 1]);
      assert s == s[..|s| - 1] + [s[|s| - 1]];
    }
  }

  /** An all-white-space string is removed entirely. */
  lemma {:induction false} StripSpacesAllSpaces(s: string)
    requires AllSpaces(s)
    ensures StripSpaces(s) == []
  {
    if s != [] {
      StripSpacesAllSpaces(s[..|s| - 1]);
    }
  }

  /** A character survives exactly when it occurs in the input and is not
      white space. */
  lemma {:induction false} StripSpacesMembership(s: string, c: char)
    ensures c in StripSpaces(s) <==> c in s && !IsSpace(c)
  {
    if s != [] {
      var init := s[..|s| - 1];
      StripSpacesMembership(init, c);
      assert s == init + [s[|s| - 1]];
    }
  }

  /** The UTF-16 code units a character takes: two for one beyond U+FFFF. */
  function CodeUnits(c: char): nat {
    if c as int >= 0x1_0000 then 2 else 1
  }

  /** `String.prototype.length`, which counts UTF-16 code units: between
      one and two per character. */
  function Utf16Length(s: string): (n: nat)
    ensures |s| <= n <= 2 * |s|
  {
    if s == [] then 0 else Utf16Length(s[..|s| - 1]) + CodeUnits(s[|s| - 1])
  }

  /** For characters of the Basic Multilingual Plane the two counts agree. */
  lemma {:induction false} Utf16LengthBmp(s: string)
    requires forall k | 0 <= k < |s| :: s[k] as int < 0x1_0000
    ensures Utf16Length(s) == |s|
  {
    if s != [] {
      Utf16LengthBmp(s[..|s| - 1]);
    }
  }

  /** A character beyond U+FFFF counts twice: two emoji are four code units. */
  lemma Utf16LengthAstral()
    ensures Utf16Length("\U{1F600}\U{1F600}") == 4
  {
    var s := "\U{1F600}\U{1F600}";
    assert s[..1] == "\U{1F600}";
    assert s[..1][..0] == [];
  }

  /** ASCII lower-casing of one character. */
  function LowerChar(c: char): (r: char)
    ensures 'A' <= c <= 'Z' ==> 'a' <= r <= 'z' && r as int == c as int + 32
    ensures !('A' <= c <= 'Z') ==> r == c
  {
    if 'A' <= c <= 'Z' then (c as int - 'A' as int + 'a' as int) as char else c
  }

  /** `String.prototype.toLowerCase`, restricted to ASCII letters. */
  function ToLower(s: string): (r: string)
    ensures |r| == |s|
    ensures forall k | 0 <= k < |s| :: r[k] == LowerChar(s[k])
  {
    seq(|s|, k requires 0 <= k < |s| => LowerChar(s[k]))
  }

  /** Lower-casing is idempotent. */
  lemma ToLowerIdempotent(s: string)
    ensures ToLower(ToLower(s)) == ToLower(s)
  {
  }

  /** `s.includes(t)`: `t` occurs as a contiguous part of `s`. */
  predicate Includes(s: string, t: string) {
    exists i | 0 <= i <= |s| :: t <= s[i..]
  }

  /** Every string includes the empty string. */
  lemma IncludesEmpty(s: string)
    ensures Includes(s, "")
  {
    assert "" <= s[0..];
  }
}
