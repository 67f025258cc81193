/** The string operations the dialogue relies on: Python's `str.strip()`,
    `str.lower()` (ASCII letters only), the `in` substring test and
    `str.split(sep)[0]`. */
module Strings {

  /** Python's `str.isspace()` for one character: the characters `str.strip()` removes. */
  predicate IsSpace(c: char)
  {
    ('\U{0009}' <= c <= '\U{000D}') || ('\U{001C}' <= c <= '\U{0020}')
    || c == '\U{0085}' || c == '\U{00A0}' || c == '\U{1680}'
    || ('\U{2000}' <= c <= '\U{200A}') || c == '\U{2028}' || c == '\U{2029}'
    || c == '\U{202F}' || c == '\U{205F}' || c == '\U{3000}'
  }

  /** `s.lstrip()`. */
  function TrimStart(s: string): string
  {
    if s != [] && IsSpace(s[0]) then TrimStart(s[1..]) else s
  }

  /** `s.rstrip()`. */
  function TrimEnd(s: string): string
  {
    if s != [] && IsSpace(s[|s| - 1]) then TrimEnd(s[..|s| - 1]) else s
  }

  /** `lstrip` keeps the suffix of `s` left after its leading whitespace. */
  lemma {:induction false} TrimStartIsSuffix(s: string)
    ensures |TrimStart(s)| <= |s| && TrimStart(s) == s[|s| - |TrimStart(s)|..]
    ensures forall k :: 0 <= k < |s| - |TrimStart(s)| ==> IsSpace(s[k])
    ensures TrimStart(s) == [] || !IsSpace(TrimStart(s)[0])
    decreases |s|
  {
    if s != [] && IsSpace(s[0]) {
      TrimStartIsSuffix(s[1..]);
    }
  }

  /** `rstrip` keeps the prefix of `s` left after its trailing whitespace. */
  lemma {:induction false} TrimEndIsPrefix(s: string)
    ensures |TrimEnd(s)| <= |s| && TrimEnd(s) == s[..|TrimEnd(s)|]
    ensures forall k :: |TrimEnd(s)| <= k < |s| ==> IsSpace(s[k])
    ensures TrimEnd(s) == [] || !IsSpace(TrimEnd(s)[|TrimEnd(s)| - 1])
    decreases |s|
  {
    if s != [] && IsSpace(s[|s| - 1]) {
      TrimEndIsPrefix(s[..|s| - 1]);
    }
  }

  /** `s.strip()`. */
  function Strip(s: string): string
  {
    TrimEnd(TrimStart(s))
  }

  /** `str.lower()` on one character, for the ASCII letters. */
  function LowerChar(c: char): char
  {
    if 'A' <= c <= 'Z' then (c as int + 32) as char else c
  }

  /** `s.lower()`, ASCII letters only. */
  function Lower(s: string): string
  {
    if s == [] then [] else [LowerChar(s[0])] + Lower(s[1..])
  }

  /** Lowering works character by character. */
  lemma {:induction false} LowerPointwise(s: string)
    ensures |Lower(s)| == |s|
    ensures forall k :: 0 <= k < |s| ==> Lower(s)[k] == LowerChar(s[k])
    decreases |s|
  {
    if s != [] {
      LowerPointwise(s[1..]);
    }
  }

  predicate StartsWith(s: string, pat: string)
  {
    |pat| <= |s| && s[..|pat|] == pat
  }

  /** `pat` occurs in `s` starting at index `i`. */
  ghost predicate OccursAt(s: string, pat: string, i: int)
  {
    0 <= i && i + |pat| <= |s| && s[i..i + |pat|] == pat
  }

  /** Python's `pat in s`, searching from the left. */
  predicate Contains(s: string, pat: string)
    decreases |s|
  {
    StartsWith(s, pat) || (s != [] && Contains(s[1..], pat))
  }

  /** `s.split(pat)[0]`: the text of `s` before the first occurrence of `pat`,
      or all of `s` when `pat` does not occur. Python refuses an empty separator. */
  function Before(s: string, pat: string): string
    requires pat != []
    decreases |s|
  {
    if StartsWith(s, pat) then []
    else if s == [] then []
    else [s[0]] + Before(s[1..], pat)
  }

  /** `split(pat)[0]` is a prefix of the string. */
  lemma {:induction false} BeforeIsPrefix(s: string, pat: string)
    requires pat != []
    ensures |Before(s, pat)| <= |s| && Before(s, pat) == s[..|Before(s, pat)|]
    decreases |s|
  {
    if !StartsWith(s, pat) && s != [] {
      BeforeIsPrefix(s[1..], pat);
      var r' := Before(s[1..], pat);
      assert s[..1 + |r'|] == [s[0]] + s[1..][..|r'|];
    }
  }

  /** Unless `split(pat)[0]` is the whole string, the pattern follows it. */
  lemma {:induction false} BeforeStopsAtPattern(s: string, pat: string)
    requires pat != []
    ensures |Before(s, pat)| < |s| ==> StartsWith(s[|Before(s, pat)|..], pat)
    decreases |s|
  {
    if !StartsWith(s, pat) && s != [] {
      BeforeStopsAtPattern(s[1..], pat);
      var r' := Before(s[1..], pat);
      BeforeIsPrefix(s[1..], pat);
      assert s[1 + |r'|..] == s[1..][|r'|..];
    }
  }

  /** `split(pat)[0]` does not contain the pattern. */
  lemma {:induction false} BeforeAvoidsPattern(s: string, pat: string)
    requires pat != []
    ensures !Contains(Before(s, pat), pat)
    decreases |s|
  {
    if !StartsWith(s, pat) && s != [] {
      BeforeAvoidsPattern(s[1..], pat);
      var r := Before(s, pat);
      var r' := Before(s[1..], pat);
      assert r[1..] == r';
      BeforeIsPrefix(s, pat);
      if |pat| <= |r| {
        assert r[..|pat|] == s[..|pat|];
      }
    }
  }

  /** `split(pat)[0]` ends at the first occurrence: no occurrence of the
      pattern starts inside it. */
  lemma {:induction false} BeforeIsFirst(s: string, pat: string)
    requires pat != []
    ensures |Before(s, pat)| <= |s|
    ensures forall j :: 0 <= j < |Before(s, pat)| ==> !StartsWith(s[j..], pat)
    decreases |s|
  {
    BeforeIsPrefix(s, pat);
    if !StartsWith(s, pat) && s != [] {
      BeforeIsFirst(s[1..], pat);
      assert |Before(s, pat)| == 1 + |Before(s[1..], pat)|;
      forall j | 1 <= j < |Before(s, pat)|
        ensures !StartsWith(s[j..], pat)
      {
        assert s[j..] == s[1..][j - 1..];
      }
    }
  }

  /** The left-to-right search agrees with "occurs at some index". */
  lemma {:induction false} ContainsIff(s: string, pat: string)
    ensures Contains(s, pat) <==> exists i :: OccursAt(s, pat, i)
    decreases |s|
  {
    if StartsWith(s, pat) {
      assert OccursAt(s, pat, 0);
    }
    if s != [] {
      ContainsIff(s[1..], pat);
      if exists i :: OccursAt(s[1..], pat, i) {
        var i :| OccursAt(s[1..], pat, i);
        assert s[i + 1..i + 1 + |pat|] == s[1..][i..i + |pat|];
        assert OccursAt(s, pat, i + 1);
      }
      if exists i :: OccursAt(s, pat, i) {
        var i :| OccursAt(s, pat, i);
        if i > 0 {
          assert s[1..][i - 1..i - 1 + |pat|] == s[i..i + |pat|];
          assert OccursAt(s[1..], pat, i - 1);
        } else {
          assert StartsWith(s, pat);
        }
      }
    } else {
      if exists i :: OccursAt(s, pat, i) {
        var i :| OccursAt(s, pat, i);
        assert pat == [];
        assert StartsWith(s, pat);
      }
    }
  }

  /** A pattern found in a slice of `s` is found in `s`. */
  lemma ContainsInSlice(s: string, pat: string, lo: int, hi: int)
    requires 0 <= lo <= hi <= |s|
    requires Contains(s[lo..hi], pat)
    ensures Contains(s, pat)
  {
    ContainsIff(s[lo..hi], pat);
    var i :| OccursAt(s[lo..hi], pat, i);
    forall k | 0 <= k < |pat| ensures s[lo + i + k] == pat[k] {
      assert s[lo..hi][i..i + |pat|][k] == pat[k];
    }
    assert s[lo + i..lo + i + |pat|] == pat;
    assert OccursAt(s, pat, lo + i);
    ContainsIff(s, pat);
  }

  /** `Strip` keeps a slice of its input, with no whitespace at either end. */
  lemma StripIsSlice(s: string) returns (lo: nat, hi: nat)
    ensures lo <= hi <= |s| && Strip(s) == s[lo..hi]
    ensures forall k :: 0 <= k < lo ==> IsSpace(s[k])
    ensures forall k :: hi <= k < |s| ==> IsSpace(s[k])
    ensures Strip(s) == [] || (!IsSpace(Strip(s)[0]) && !IsSpace(Strip(s)[|Strip(s)| - 1]))
  {
    var t := TrimStart(s);
    var r := TrimEnd(t);
    TrimStartIsSuffix(s);
    TrimEndIsPrefix(t);
    assert Strip(s) == r;
    lo := |s| - |t|;
    hi := lo + |r|;
    assert t == s[lo..];
    assert r == t[..|r|];
    SliceOfSuffix(s, lo, |r|);
    forall k | hi <= k < |s| ensures IsSpace(s[k]) {
      assert s[k] == t[k - lo];
    }
    if r != [] {
      assert r[0] == t[0];
    }
  }

  lemma SliceOfSuffix(s: string, lo: nat, n: nat)
    requires lo + n <= |s|
    ensures s[lo..][..n] == s[lo..lo + n]
  {
  }

  /** Stripping twice is stripping once. */
  lemma StripIdempotent(s: string)
    ensures Strip(Strip(s)) == Strip(s)
  {
    var r := Strip(s);
    var lo, hi := StripIsSlice(s);
    if r != [] {
      assert TrimStart(r) == r;
      assert TrimEnd(r) == r;
    }
  }

  /** `Before` leaves a string without the pattern unchanged. */
  lemma BeforeAbsent(s: string, pat: string)
    requires pat != [] && !Contains(s, pat)
    ensures Before(s, pat) == s
  {

  }
}
