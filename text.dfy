/**
 * The string operations the browser relies on: lower-casing (`str.lower`,
 * and the case folding of `re.IGNORECASE`), `str.strip`, and the substring
 * test `needle in haystack`. Case folding is ASCII only.
 */
module Text {

  predicate IsUpperAscii(c: char) {
    'A' <= c <= 'Z'
  }

  function LowerChar(c: char): char {
    if IsUpperAscii(c) then (c as int + 32) as char else c
  }

  /** `s.lower()`, restricted to ASCII letters. */
  function Lower(s: string): (r: string)
    ensures |r| == |s|
    ensures forall i :: 0 <= i < |s| ==> !IsUpperAscii(r[i])
    ensures forall i :: 0 <= i < |s| ==> (r[i] == s[i] <==> !IsUpperAscii(s[i]))
    ensures forall i :: 0 <= i < |s| && IsUpperAscii(s[i]) ==> r[i] as int == s[i] as int + 32
  {
    seq(|s|, i requires 0 <= i < |s| => LowerChar(s[i]))
  }

  /** Lower-casing twice is lower-casing once. */
  lemma LowerIdempotent(s: string)
    ensures Lower(Lower(s)) == Lower(s)
  {
    assert forall i :: 0 <= i < |s| ==> Lower(Lower(s))[i] == Lower(s)[i];
  }

  /** Python's `str.isspace`: the 29 code points Python strips by default. */
  predicate IsSpace(c: char) {
    var n := c as int;
    || 9 <= n <= 13
    || 28 <= n <= 32
    || n == 0x85 || n == 0xA0 || n == 0x1680
    || 0x2000 <= n <= 0x200A
    || n == 0x2028 || n == 0x2029 || n == 0x202F || n == 0x205F || n == 0x3000
  }

  /** The string holds nothing but white space (the empty string included). */
  predicate IsBlank(s: string) {
    forall i :: 0 <= i < |s| ==> IsSpace(s[i])
  }

  /** Lower-casing never turns white space into anything else, nor the reverse. */
  lemma LowerKeepsBlankness(s: string)
    ensures IsBlank(Lower(s)) <==> IsBlank(s)
  {
    assert forall i :: 0 <= i < |s| ==> (IsSpace(Lower(s)[i]) <==> IsSpace(s[i]));
  }

  /** `s.lstrip()`: drops the leading white space and nothing else. */
  function TrimStart(s: string): (r: string)
    ensures |r| <= |s| && r == s[|s| - |r|..]
    ensures IsBlank(s[..|s| - |r|])
    ensures r != [] ==> !IsSpace(r[0])
    ensures r == [] <==> IsBlank(s)
    decreases |s|
  {
    if s != [] && IsSpace(s[0]) then
      var r := TrimStart(s[1..]);
      assert s[..|s| - |r|] == [s[0]] + s[1..][..|s[1..]| - |r|];
      r
    else
      s
  }

  /** `s.rstrip()`: drops the trailing white space and nothing else. */
  function TrimEnd(s: string): (r: string)
    ensures |r| <= |s| && r == s[..|r|]
    ensures IsBlank(s[|r|..])
    ensures r != [] ==> !IsSpace(r[|r| - 1])
    ensures r == [] <==> IsBlank(s)
    decreases |s|
  {
    if s != [] && IsSpace(s[|s| - 1]) then
      var r := TrimEnd(s[..|s| - 1]);
      assert s[|r|..] == s[..|s| - 1][|r|..] + [s[|s| - 1]];
      r
    else
      s
  }

  /**
   * `s.strip()`: what is left between the leading and the trailing white
   * space; it is empty exactly when the string is blank.
   */
  function Strip(s: string): (r: string)
    ensures r == [] <==> IsBlank(s)
    ensures r != [] ==> !IsSpace(r[0]) && !IsSpace(r[|r| - 1])
    ensures exists a, b :: 0 <= a <= b <= |s| && r == s[a..b] && IsBlank(s[..a]) && IsBlank(s[b..])
  {
    var t := TrimStart(s);
    var r := TrimEnd(t);
    TrimmedIsSlice(s, t, r);
    r
  }

  /** Cutting a blank prefix and then a blank suffix leaves a slice with blank surroundings. */
  lemma TrimmedIsSlice(s: string, t: string, r: string)
    requires |t| <= |s| && t == s[|s| - |t|..] && IsBlank(s[..|s| - |t|])
    requires |r| <= |t| && r == t[..|r|] && IsBlank(t[|r|..])
    ensures exists a, b :: 0 <= a <= b <= |s| && r == s[a..b] && IsBlank(s[..a]) && IsBlank(s[b..])
  {
    var a := |s| - |t|;
    var b := a + |r|;
    assert s[a..b] == r && s[b..] == t[|r|..];
  }

  /** `pattern` stands in `s` starting at position `i`. */
  predicate OccursAt(pattern: string, s: string, i: nat) {
    i + |pattern| <= |s| && s[i..i + |pattern|] == pattern
  }

  lemma OccursAtShift(pattern: string, s: string)
    requires s != []
    ensures (exists i: nat :: OccursAt(pattern, s, i))
        <==> OccursAt(pattern, s, 0) || exists i: nat :: OccursAt(pattern, s[1..], i)
  {
    forall i: nat
      ensures OccursAt(pattern, s[1..], i) <==> OccursAt(pattern, s, i + 1)
    {
      if i + 1 + |pattern| <= |s| {
        assert s[1..][i..i + |pattern|] == s[i + 1..i + 1 + |pattern|];
      }
    }
    if i: nat :| OccursAt(pattern, s, i) && i > 0 {
      assert OccursAt(pattern, s[1..], i - 1);
    }
  }

  /** Python's `pattern in s` on strings: true exactly when `pattern` occurs somewhere in `s`. */
  function Contains(s: string, pattern: string): (r: bool)
    ensures r <==> exists i: nat :: OccursAt(pattern, s, i)
    decreases |s|
  {
    if |pattern| > |s| then
      false
    else if s[..|pattern|] == pattern then
      assert OccursAt(pattern, s, 0);
      true
    else
      OccursAtShift(pattern, s);
      Contains(s[1..], pattern)
  }
}
