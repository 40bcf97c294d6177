// Small shared vocabulary: optional values, Python's str.strip, and slices of sequences.
module Prelude {
  datatype Option<+T> = None | Some(value: T)

  function Max(a: int, b: int): int {
    if a < b then b else a
  }

  function Min(a: int, b: int): int {
    if a < b then a else b
  }

  // xs[:n] for n >= 0: a slice never fails on a short list.
  function Take<T>(xs: seq<T>, n: nat): (r: seq<T>)
    ensures |r| == Min(|xs|, n)
  {
    if n < |xs| then xs[..n] else xs
  }

  predicate IsSpace(c: char) {
    || '\t' <= c <= '\r'
    || '\U{1c}' <= c <= ' '
    || c == '\U{85}' || c == '\U{a0}' || c == '\U{1680}'
    || '\U{2000}' <= c <= '\U{200a}'
    || c == '\U{2028}' || c == '\U{2029}' || c == '\U{202f}' || c == '\U{205f}' || c == '\U{3000}'
  }

  // The first place from n on that holds no white space.
  function Leading(s: string, n: nat): (k: nat)
    requires n <= |s|
    ensures n <= k <= |s| && (k < |s| ==> !IsSpace(s[k]))
    decreases |s| - n
  {
    if n < |s| && IsSpace(s[n]) then Leading(s, n + 1) else n
  }

  // The end of the first n characters without the white space that ends them.
  function Trailing(s: string, n: nat): (k: nat)
    requires n <= |s|
    ensures k <= n && (k > 0 ==> !IsSpace(s[k - 1]))
  {
    if n > 0 && IsSpace(s[n - 1]) then Trailing(s, n - 1) else n
  }

  // str.strip
  function Strip(s: string): (r: string)
    ensures Stripped(r)
    ensures |r| <= |s|
  {
    var lo, hi := Leading(s, 0), Trailing(s, |s|);
    if lo < hi then s[lo..hi] else ""
  }

  // Neither end of s is white space.
  predicate Stripped(s: string) {
    s != "" ==> !IsSpace(s[0]) && !IsSpace(s[|s| - 1])
  }

  // r is s, from lo on, without the white space at its ends.
  ghost predicate IsCore(s: string, r: string, lo: nat) {
    && lo + |r| <= |s| && r == s[lo..lo + |r|]
    && (forall i :: 0 <= i < lo || lo + |r| <= i < |s| ==> IsSpace(s[i]))
    && (r != "" ==> !IsSpace(r[0]) && !IsSpace(r[|r| - 1]))
  }

  lemma {:induction false} LeadingSkipsSpace(s: string, n: nat)
    requires n <= |s|
    ensures forall i :: n <= i < Leading(s, n) ==> IsSpace(s[i])
    decreases |s| - n
  {
    hide IsSpace;
    if n < |s| && IsSpace(s[n]) {
      LeadingSkipsSpace(s, n + 1);
    }
  }

  lemma {:induction false} TrailingSkipsSpace(s: string, n: nat)
    requires n <= |s|
    ensures forall i :: Trailing(s, n) <= i < n ==> IsSpace(s[i])
  {
    hide IsSpace;
    if n > 0 && IsSpace(s[n - 1]) {
      TrailingSkipsSpace(s, n - 1);
    }
  }

  // str.strip is what it should be: there is one such core, and this is it.
  lemma StripIsCore(s: string) returns (lo: nat)
    ensures IsCore(s, Strip(s), lo)
    ensures forall r, k: nat :: IsCore(s, r, k) ==> r == Strip(s)
  {
    hide IsSpace;
    LeadingSkipsSpace(s, 0);
    TrailingSkipsSpace(s, |s|);
    lo := if Strip(s) == "" then |s| else Leading(s, 0);
    forall r, k: nat | IsCore(s, r, k) ensures r == Strip(s) {
      SameCore(s, r, k, Strip(s), lo);
    }
  }

  lemma SameCore(s: string, a: string, i: nat, b: string, j: nat)
    requires IsCore(s, a, i) && IsCore(s, b, j)
    ensures a == b
  {
    hide IsSpace;
    if a != "" {
      assert a[0] == s[i] && a[|a| - 1] == s[i + |a| - 1];
    }
    if b != "" {
      assert b[0] == s[j] && b[|b| - 1] == s[j + |b| - 1];
    }
  }

  // Of the first 128 characters, tab to carriage return, the four separators and the blank are space.
  lemma AsciiSpaces(c: char)
    requires c as int < 128
    ensures IsSpace(c) <==> 9 <= c as int <= 13 || 28 <= c as int <= 32
  {
  }

  lemma {:induction false} SubsetSize<T>(a: set<T>, b: set<T>)
    requires a <= b
    ensures |a| <= |b|
  {
    if a != {} {
      var x :| x in a;
      SubsetSize(a - {x}, b - {x});
    }
  }
}
