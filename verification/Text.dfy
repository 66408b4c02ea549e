/**
 * The string primitives the chat assistant relies on: `toLowerCase`,
 * `includes`, `trim` and `join(', ')`, stated over Dafny strings.
 */
module Text {

  // ---------------------------------------------------------------- lowering

  /**
   * Lower-casing of one character, as far as keyword matching can observe it:
   * ASCII capitals and the Kelvin sign (which lower-cases to 'k'). Of the
   * other Unicode case mappings only U+0130 produces an ASCII letter, an 'i'
   * that no keyword contains, so leaving those characters alone cannot create
   * or destroy an occurrence of a keyword.
   */
  function LowerChar(c: char): char {
    if 'A' <= c <= 'Z' then (c as int + 32) as char
    else if c == '\U{212A}' then 'k'
    else c
  }

  function ToLower(s: string): string {
    seq(|s|, i requires 0 <= i < |s| => LowerChar(s[i]))
  }

  /** Lower-casing works character by character, so it distributes over concatenation. */
  lemma ToLowerConcat(a: string, b: string)
    ensures ToLower(a + b) == ToLower(a) + ToLower(b)
  {
    assert forall i :: 0 <= i < |a + b| ==> ToLower(a + b)[i] == (ToLower(a) + ToLower(b))[i];
  }

  /** Lowering text that is already lowered changes nothing. */
  lemma ToLowerIdempotent(s: string)
    ensures ToLower(ToLower(s)) == ToLower(s)
  {
    assert forall i :: 0 <= i < |s| ==> ToLower(ToLower(s))[i] == ToLower(s)[i];
  }

  /** Text made of lower-case ASCII letters and spaces is its own lowering. */
  lemma ToLowerOfLowerCase(s: string)
    requires forall i :: 0 <= i < |s| ==> s[i] == ' ' || 'a' <= s[i] <= 'z'
    ensures ToLower(s) == s
  {
  }

  // -------------------------------------------------------------- substrings

  /** `k` occurs in `s` starting at index `i`. */
  ghost predicate OccursAt(s: string, k: string, i: int) {
    0 <= i <= |s| - |k| && s[i..i + |k|] == k
  }

  /** `String.prototype.includes`: an unanchored substring test. */
  function Contains(s: string, k: string): bool
    decreases |s|
  {
    if |s| < |k| then false
    else s[..|k|] == k || Contains(s[1..], k)
  }

  /** `Contains` holds exactly when the keyword occurs at some position. */
  lemma {:induction false} ContainsIffOccurs(s: string, k: string)
    ensures Contains(s, k) <==> exists i :: OccursAt(s, k, i)
    decreases |s|
  {
    if |s| < |k| {
    } else if s[..|k|] == k {
      assert OccursAt(s, k, 0);
    } else {
      ContainsIffOccurs(s[1..], k);
      if exists i :: OccursAt(s[1..], k, i) {
        var i :| OccursAt(s[1..], k, i);
        assert s[1..][i..i + |k|] == s[i + 1..i + 1 + |k|];
        assert OccursAt(s, k, i + 1);
      }
      if exists i :: OccursAt(s, k, i) {
        var i :| OccursAt(s, k, i);
        assert i != 0;
        assert s[1..][i - 1..i - 1 + |k|] == s[i..i + |k|];
        assert OccursAt(s[1..], k, i - 1);
      }
    }
  }

  /** The test is unanchored: the keyword is found whatever surrounds it. */
  lemma ContainsInside(p: string, k: string, q: string)
    ensures Contains(p + k + q, k)
  {
    var s := p + k + q;
    assert s[|p|..|p| + |k|] == k;
    assert OccursAt(s, k, |p|);
    ContainsIffOccurs(s, k);
  }

  /** A keyword with a letter the text lacks does not occur in it. */
  lemma LetterAbsent(s: string, k: string, j: nat)
    requires j < |k| && k[j] !in s
    ensures !Contains(s, k)
  {
    forall i | 0 <= i <= |s| - |k|
      ensures !OccursAt(s, k, i)
    {
      assert s[i..i + |k|][j] == s[i + j] && s[i + j] in s;
    }
    ContainsIffOccurs(s, k);
  }

  // ---------------------------------------------------------------- trimming

  /** The characters `String.prototype.trim` removes: WhiteSpace and LineTerminator of ECMA-262. */
  predicate IsWhiteSpace(c: char) {
    var n := c as int;
    (0x09 <= n <= 0x0D) || n == 0x20 || n == 0xA0 || n == 0x1680 ||
    (0x2000 <= n <= 0x200A) || n == 0x2028 || n == 0x2029 || n == 0x202F ||
    n == 0x205F || n == 0x3000 || n == 0xFEFF
  }

  /** Drops leading white space: the result is a suffix of `s` and starts with a non-blank character. */
  function TrimStart(s: string): (r: string)
    ensures |r| <= |s| && r == s[|s| - |r|..]
    ensures forall i :: 0 <= i < |s| - |r| ==> IsWhiteSpace(s[i])
    ensures r == [] || !IsWhiteSpace(r[0])
    decreases |s|
  {
    if |s| > 0 && IsWhiteSpace(s[0]) then TrimStart(s[1..]) else s
  }

  /** Drops trailing white space: the result is a prefix of `s` and ends with a non-blank character. */
  function TrimEnd(s: string): (r: string)
    ensures |r| <= |s| && r == s[..|r|]
    ensures forall i :: |r| <= i < |s| ==> IsWhiteSpace(s[i])
    ensures r == [] || !IsWhiteSpace(r[|r| - 1])
    decreases |s|
  {
    if |s| > 0 && IsWhiteSpace(s[|s| - 1]) then TrimEnd(s[..|s| - 1]) else s
  }

  function Trim(s: string): string {
    TrimEnd(TrimStart(s))
  }

  /** `!s.trim()`: the trimmed text is empty exactly when every character is white space. */
  lemma TrimEmptyIffBlank(s: string)
    ensures Trim(s) == "" <==> forall i :: 0 <= i < |s| ==> IsWhiteSpace(s[i])
  {
    var t := TrimStart(s);
    if t != "" {
      assert !IsWhiteSpace(t[0]) && t[0] == s[|s| - |t|];
    }
  }

  // ------------------------------------------------------------------ joining

  /** `Array.prototype.join(sep)`: no separator before the first part or after the last. */
  function Join(parts: seq<string>, sep: string): string
    decreases |parts|
  {
    if |parts| == 0 then ""
    else if |parts| == 1 then parts[0]
    else parts[0] + sep + Join(parts[1..], sep)
  }

  /** Index of the first comma of `s`, or `|s|` when there is none. */
  function IndexOfComma(s: string): (i: nat)
    ensures i <= |s|
    ensures i < |s| ==> s[i] == ','
    ensures forall j :: 0 <= j < i ==> s[j] != ','
    decreases |s|
  {
    if |s| == 0 || s[0] == ',' then 0 else 1 + IndexOfComma(s[1..])
  }

  /** Cuts text at each comma and skips the one character after it: undoes a `", "` join. */
  function SplitJoined(s: string): seq<string>
    decreases |s|
  {
    var i := IndexOfComma(s);
    if i + 2 > |s| then [s] else [s[..i]] + SplitJoined(s[i + 2..])
  }

  /** A `", "` join of comma-free parts loses nothing: splitting it gives the parts back. */
  lemma {:induction false} SplitJoinRoundTrip(parts: seq<string>)
    requires |parts| > 0
    requires forall k :: 0 <= k < |parts| ==> ',' !in parts[k]
    ensures SplitJoined(Join(parts, ", ")) == parts
    decreases |parts|
  {
    var x := parts[0];
    if |parts| == 1 {
      assert forall j :: 0 <= j < |x| ==> x[j] != ',' by {
        forall j | 0 <= j < |x| ensures x[j] != ',' { assert x[j] in x; }
      }
      assert IndexOfComma(x) == |x|;
    } else {
      var rest := Join(parts[1..], ", ");
      var s := x + ", " + rest;
      assert Join(parts, ", ") == s;
      assert forall j :: 0 <= j < |x| ==> s[j] != ',' by {
        forall j | 0 <= j < |x| ensures s[j] != ',' { assert s[j] == x[j] && x[j] in x; }
      }
      assert s[|x|] == ',';
      var i := IndexOfComma(s);
      assert i == |x|;
      assert s[..i] == x && s[i + 2..] == rest;
      SplitJoinRoundTrip(parts[1..]);
      assert parts == [x] + parts[1..];
    }
  }

  /** The joined text is empty exactly when there is nothing to join, provided no part is empty. */
  lemma {:induction false} JoinEmptyIff(parts: seq<string>, sep: string)
    requires forall k :: 0 <= k < |parts| ==> parts[k] != ""
    ensures Join(parts, sep) == "" <==> parts == []
  {
    if |parts| >= 2 {
      assert |Join(parts, sep)| >= |parts[0]| > 0;
    }
  }
}
