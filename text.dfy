/**
 * The few Python string operations the telemetry code relies on:
 * `str.lower()`, `str.startswith`, the substring test `sub in s`,
 * `s.split(":", 1)[1]` and `str.strip()`.
 */
module Text {
  import opened Wrappers

  /** Characters `str.strip()` removes (the ASCII ones and the Latin-1 ones Python treats as space). */
  predicate IsSpace(c: char) {
    c == ' ' || c == '\t' || c == '\n' || c == '\r' || c == '\U{0B}' || c == '\U{0C}'
    || ('\U{1C}' <= c <= '\U{1F}') || c == '\U{85}' || c == '\U{A0}'
  }

  function LowerChar(c: char): char {
    if 'A' <= c <= 'Z' then (c as int + 32) as char else c
  }

  /** `s.lower()`, restricted to ASCII letters. */
  function Lower(s: string): string {
    seq(|s|, i requires 0 <= i < |s| => LowerChar(s[i]))
  }

  predicate StartsWith(s: string, prefix: string) {
    |prefix| <= |s| && s[..|prefix|] == prefix
  }

  /** `sub` occurs in `s` at position `i`. */
  predicate OccursAt(s: string, sub: string, i: int) {
    0 <= i <= |s| - |sub| && s[i..i + |sub|] == sub
  }

  /** `sub in s`: some suffix of `s` starts with `sub`. */
  predicate Contains(s: string, sub: string)
    decreases |s|
  {
    StartsWith(s, sub) || (s != [] && Contains(s[1..], sub))
  }

  /** The recursive `Contains` agrees with the positional definition of a substring. */
  lemma {:induction false} ContainsIff(s: string, sub: string)
    ensures Contains(s, sub) <==> exists i :: OccursAt(s, sub, i)
  {
    if StartsWith(s, sub) {
      assert OccursAt(s, sub, 0);
    } else if s == [] {
    } else {
      ContainsIff(s[1..], sub);
      if exists i :: OccursAt(s, sub, i) {
        var i :| OccursAt(s, sub, i);
        assert i != 0;
        assert OccursAt(s[1..], sub, i - 1);
      }
      if Contains(s[1..], sub) {
        var i :| OccursAt(s[1..], sub, i);
        assert OccursAt(s, sub, i + 1);
      }
    }
  }

  /** A string that contains `sub` contains every prefix of `sub`. */
  lemma {:induction false} ContainsPrefix(s: string, sub: string, pre: string)
    requires Contains(s, sub) && StartsWith(sub, pre)
    ensures Contains(s, pre)
  {
    if StartsWith(s, sub) {
      assert s[..|pre|] == sub[..|pre|];
    } else {
      ContainsPrefix(s[1..], sub, pre);
    }
  }

  /**
   * What `s.split(c, 1)[1]` yields: the text after the first `c`, or `None`
   * where Python raises `IndexError` because `c` does not occur.
   */
  function AfterFirst(s: string, c: char): (r: Option<string>)
    ensures r.None? <==> c !in s
    ensures r.Some? ==> exists i :: 0 <= i < |s| && s[i] == c && c !in s[..i] && r.value == s[i + 1..]
  {
    if s == [] then None
    else if s[0] == c then
      assert s[0] == c && c !in s[..0] && s[1..] == s[0 + 1..];
      Some(s[1..])
    else
      var r := AfterFirst(s[1..], c);
      assert c in s <==> c in s[1..];
      if r.Some? then
        var i :| 0 <= i < |s[1..]| && s[1..][i] == c && c !in s[1..][..i] && r.value == s[1..][i + 1..];
        assert s[..i + 1] == [s[0]] + s[1..][..i];
        assert s[i + 1] == c && c !in s[..i + 1] && r.value == s[i + 1 + 1..];
        r
      else r
  }

  /** There is only one first occurrence of `c`. */
  lemma FirstOccurrenceUnique(s: string, c: char, i: int, j: int)
    requires 0 <= i < |s| && s[i] == c && c !in s[..i]
    requires 0 <= j < |s| && s[j] == c && c !in s[..j]
    ensures i == j
  {
  }

  /** `s.lstrip()`: the longest suffix of `s` that does not start with a space. */
  function StripLeft(s: string): (r: string)
    ensures |r| <= |s| && r == s[|s| - |r|..]
    ensures forall k :: 0 <= k < |s| - |r| ==> IsSpace(s[k])
    ensures r == [] || !IsSpace(r[0])
  {
    if s != [] && IsSpace(s[0]) then StripLeft(s[1..]) else s
  }

  /** `s.rstrip()`: the longest prefix of `s` that does not end with a space. */
  function StripRight(s: string): (r: string)
    ensures |r| <= |s| && r == s[..|r|]
    ensures forall k :: |r| <= k < |s| ==> IsSpace(s[k])
    ensures r == [] || !IsSpace(r[|r| - 1])
  {
    if s != [] && IsSpace(s[|s| - 1]) then StripRight(s[..|s| - 1]) else s
  }

  /**
   * `s.strip()`: the part of `s` left after dropping whitespace at both ends;
   * everything dropped is whitespace and what is kept neither starts nor ends
   * with it.
   */
  function Strip(s: string): (r: string)
    ensures r == [] || (!IsSpace(r[0]) && !IsSpace(r[|r| - 1]))
    ensures var i := |s| - |StripLeft(s)|;
            && OccursAt(s, r, i)
            && (forall k :: 0 <= k < i ==> IsSpace(s[k]))
            && (forall k :: i + |r| <= k < |s| ==> IsSpace(s[k]))
  {
    var left := StripLeft(s);
    var r := StripRight(left);
    TrimmedSlice(s, left, r);
    r
  }

  /** A prefix `r` of a suffix `left` of `s` sits in `s` where `left` starts. */
  lemma TrimmedSlice(s: string, left: string, r: string)
    requires |left| <= |s| && left == s[|s| - |left|..]
    requires |r| <= |left| && r == left[..|r|]
    requires forall k :: |r| <= k < |left| ==> IsSpace(left[k])
    ensures var i := |s| - |left|;
            && OccursAt(s, r, i)
            && (forall k :: i + |r| <= k < |s| ==> IsSpace(s[k]))
  {
    var i := |s| - |left|;
    assert s[i..i + |r|] == left[..|r|];
    forall k | i + |r| <= k < |s|
      ensures IsSpace(s[k])
    {
      assert s[k] == left[k - i];
    }
  }
}
