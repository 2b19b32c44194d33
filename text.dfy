/** Java string operations the core relies on: String.trim, ASCII case mapping,
    String.indexOf and Element.getAttribute, as functions on seq<char>. */
module Text {

  datatype Option<T> = None | Some(value: T)

  /** String.trim removes every leading and trailing char whose code is at most U+0020. */
  predicate IsTrimmable(c: char) { c <= ' ' }

  predicate AllTrimmable(s: string) { forall k :: 0 <= k < |s| ==> IsTrimmable(s[k]) }

  /** Trimmable chars in s[i..j]. */
  predicate TrimmableIn(s: string, i: nat, j: nat)
    requires i <= j <= |s|
  {
    forall k :: i <= k < j ==> IsTrimmable(s[k])
  }

  /** Index of the first char at or after i that is not trimmable, or |s|. */
  function SkipLeading(s: string, i: nat): (r: nat)
    requires i <= |s|
    ensures i <= r <= |s| && TrimmableIn(s, i, r)
    ensures r == |s| || !IsTrimmable(s[r])
    decreases |s| - i
  {
    if i < |s| && IsTrimmable(s[i]) then SkipLeading(s, i + 1) else i
  }

  /** Index just past the last char before j and at or after lo that is not trimmable, or lo. */
  function SkipTrailing(s: string, lo: nat, j: nat): (r: nat)
    requires lo <= j <= |s|
    ensures lo <= r <= j && TrimmableIn(s, r, j)
    ensures r == lo || !IsTrimmable(s[r - 1])
    ensures lo < j && !IsTrimmable(s[lo]) ==> lo < r
    decreases j
  {
    if lo < j && IsTrimmable(s[j - 1]) then SkipTrailing(s, lo, j - 1) else j
  }

  /** String.trim: the slice of s between its leading and trailing runs of
      trimmable chars, which neither starts nor ends with one. */
  function Trim(s: string): (r: string)
    ensures |r| <= |s|
    ensures r == [] || (!IsTrimmable(r[0]) && !IsTrimmable(r[|r| - 1]))
  {
    var i := SkipLeading(s, 0);
    s[i..SkipTrailing(s, i, |s|)]
  }

  lemma {:induction false} SkipLeadingTo(s: string, i: nat, j: nat)
    requires i <= j <= |s| && TrimmableIn(s, i, j)
    requires j == |s| || !IsTrimmable(s[j])
    ensures SkipLeading(s, i) == j
    decreases j - i
  {
    if i < j {
      SkipLeadingTo(s, i + 1, j);
    }
  }

  lemma {:induction false} SkipTrailingTo(s: string, lo: nat, r: nat, j: nat)
    requires lo <= r <= j <= |s| && TrimmableIn(s, r, j)
    requires r == lo || !IsTrimmable(s[r - 1])
    ensures SkipTrailing(s, lo, j) == r
    decreases j
  {
    if r < j {
      SkipTrailingTo(s, lo, r, j - 1);
    }
  }

  /** What String.trim keeps is a slice of s between two runs of trimmable chars. */
  lemma TrimIsSlice(s: string)
    ensures exists i :: 0 <= i <= |s| - |Trim(s)| && Trim(s) == s[i..i + |Trim(s)|]
                     && AllTrimmable(s[..i]) && AllTrimmable(s[i + |Trim(s)|..])
  {
    var i := SkipLeading(s, 0);
    var j := SkipTrailing(s, i, |s|);
    assert forall k :: 0 <= k < i ==> s[..i][k] == s[k];
    assert forall k :: 0 <= k < |s| - j ==> s[j..][k] == s[j + k];
    assert Trim(s) == s[i..j];
  }

  /** Trimming a value padded with trimmable chars gives back the value. */
  lemma TrimPadded(p: string, m: string, q: string)
    requires AllTrimmable(p) && AllTrimmable(q)
    requires m == [] || (!IsTrimmable(m[0]) && !IsTrimmable(m[|m| - 1]))
    ensures Trim(p + m + q) == m
  {
    var s := p + m + q;
    var i, j := |p|, |p| + |m|;
    assert forall k :: 0 <= k < i ==> s[k] == p[k];
    assert forall k :: j <= k < |s| ==> s[k] == q[k - j];
    if m == [] {
      SkipLeadingTo(s, 0, |s|);
      SkipTrailingTo(s, |s|, |s|, |s|);
    } else {
      assert s[i] == m[0] && s[j - 1] == m[|m| - 1];
      SkipLeadingTo(s, 0, i);
      SkipTrailingTo(s, i, j, |s|);
    }
    assert s[i..j] == m;
  }

  /** Trimming a string whose first non-trimmable char sits at j starts with that char. */
  lemma TrimStartsAt(s: string, j: nat)
    requires j < |s| && AllTrimmable(s[..j]) && !IsTrimmable(s[j])
    ensures |Trim(s)| > 0 && Trim(s)[0] == s[j]
  {
    assert forall k :: 0 <= k < j ==> s[..j][k] == s[k];
    SkipLeadingTo(s, 0, j);
  }

  /** Trimming a string of trimmable chars gives the empty string. */
  lemma TrimBlank(s: string)
    requires AllTrimmable(s)
    ensures Trim(s) == []
  {
    SkipLeadingTo(s, 0, |s|);
  }

  /** Element.getAttribute: the attribute's value, or "" when it is absent. */
  function Attribute(attrs: map<string, string>, name: string): string
  {
    if name in attrs then attrs[name] else ""
  }

  /** The flag idiom `!el.getAttribute(name).trim().equals("no")`. */
  function FlagAttribute(value: string): bool
  {
    Trim(value) != "no"
  }

  /** A value that is "no" padded with trimmable chars switches a flag off. */
  lemma FlagOffWhenPaddedNo(p: string, q: string)
    requires AllTrimmable(p) && AllTrimmable(q)
    ensures !FlagAttribute(p + "no" + q)
  {
    TrimPadded(p, "no", q);
  }

  /** The value is "no" with trimmable chars on either side. */
  ghost predicate PaddedNo(value: string)
  {
    exists p, q :: AllTrimmable(p) && AllTrimmable(q) && value == p + "no" + q
  }

  /** Only such a value switches a flag off: an absent attribute, "No" or "yes" leave it on. */
  lemma FlagOffOnlyWhenPaddedNo(value: string)
    requires !FlagAttribute(value)
    ensures PaddedNo(value)
  {
    var i := SkipLeading(value, 0);
    PaddedSlice(value, i, SkipTrailing(value, i, |value|));
  }

  lemma PaddedSlice(value: string, i: nat, j: nat)
    requires i <= j <= |value| && TrimmableIn(value, 0, i) && TrimmableIn(value, j, |value|)
    requires value[i..j] == "no"
    ensures PaddedNo(value)
  {
    var p, q := value[..i], value[j..];
    assert forall k :: 0 <= k < i ==> p[k] == value[k];
    assert forall k :: 0 <= k < |q| ==> q[k] == value[j + k];
    assert value == p + "no" + q;
    assert AllTrimmable(p) && AllTrimmable(q);
  }

  function UpperChar(c: char): char
  {
    if 'a' <= c <= 'z' then (c as int - 32) as char else c
  }

  function LowerChar(c: char): char
  {
    if 'A' <= c <= 'Z' then (c as int + 32) as char else c
  }

  /** String.toUpperCase restricted to ASCII letters. */
  function Upper(s: string): string
  {
    seq(|s|, k requires 0 <= k < |s| => UpperChar(s[k]))
  }

  /** String.toLowerCase restricted to ASCII letters. */
  function Lower(s: string): string
  {
    seq(|s|, k requires 0 <= k < |s| => LowerChar(s[k]))
  }

  predicate OccursAt(s: string, pat: string, i: nat)
  {
    i + |pat| <= |s| && s[i..i + |pat|] == pat
  }

  /** String.indexOf(pat, from): the first occurrence at or after from, or -1. */
  function IndexFrom(s: string, pat: string, from: nat): (r: int)
    requires from <= |s|
    ensures r == -1 || (from <= r && OccursAt(s, pat, r))
    ensures r == -1 ==> forall i :: from <= i <= |s| ==> !OccursAt(s, pat, i)
    ensures r != -1 ==> forall i :: from <= i < r ==> !OccursAt(s, pat, i)
    decreases |s| - from
  {
    if from + |pat| > |s| then -1
    else if s[from..from + |pat|] == pat then from
    else IndexFrom(s, pat, from + 1)
  }

  function IndexOf(s: string, pat: string): int
  {
    IndexFrom(s, pat, 0)
  }
}
