/** Go `strings.TrimSpace` and the substring predicates the model's
    properties are stated with. Dafny characters are Unicode scalar values,
    so the model trims by code point, as Go does after decoding UTF-8. */
module Strings {

  /** Go `unicode.IsSpace`: the ASCII white space characters, NEL, NBSP and
      the other characters with the Unicode White_Space property. */
  predicate IsSpace(c: char) {
    || c == '\t' || c == '\n' || c == '\U{000B}' || c == '\U{000C}' || c == '\r' || c == ' '
    || c == '\U{0085}' || c == '\U{00A0}' || c == '\U{1680}'
    || ('\U{2000}' <= c <= '\U{200A}')
    || c == '\U{2028}' || c == '\U{2029}' || c == '\U{202F}' || c == '\U{205F}' || c == '\U{3000}'
  }

  /** Every character of `s` satisfies `f`. */
  predicate All(s: string, f: char -> bool) {
    forall i :: 0 <= i < |s| ==> f(s[i])
  }

  predicate AllSpace(s: string) {
    All(s, IsSpace)
  }

  predicate StartsWith(s: string, p: string) {
    |p| <= |s| && s[..|p|] == p
  }

  predicate EndsWith(s: string, p: string) {
    |p| <= |s| && s[|s| - |p|..] == p
  }

  /** `x` occurs in `s` starting at offset `i`. */
  predicate OccursAt(s: string, x: string, i: int) {
    0 <= i && i + |x| <= |s| && s[i..i + |x|] == x
  }

  /** The end of the run of characters satisfying `f` that starts at `i`. */
  function LeadingEnd(s: string, f: char -> bool, i: nat): (n: nat)
    requires i <= |s|
    ensures i <= n <= |s|
    ensures forall k :: i <= k < n ==> f(s[k])
    ensures n < |s| ==> !f(s[n])
    decreases |s| - i
  {
    if i < |s| && f(s[i]) then LeadingEnd(s, f, i + 1) else i
  }

  /** The start of the run of characters satisfying `f` that ends at `j`,
      going no further left than `lo`. */
  function TrailingStart(s: string, f: char -> bool, lo: nat, j: nat): (n: nat)
    requires lo <= j <= |s|
    ensures lo <= n <= j
    ensures forall k :: n <= k < j ==> f(s[k])
    ensures n > lo ==> !f(s[n - 1])
    decreases j
  {
    if j > lo && f(s[j - 1]) then TrailingStart(s, f, lo, j - 1) else j
  }

  /** Go `strings.TrimFunc`: the slice of `s` left after removing the
      characters that satisfy `f` at both ends. It starts where the leading
      run ends. */
  function TrimFunc(s: string, f: char -> bool): (r: string)
    ensures OccursAt(s, r, LeadingEnd(s, f, 0))
    ensures forall k :: 0 <= k < LeadingEnd(s, f, 0) ==> f(s[k])
    ensures forall k :: LeadingEnd(s, f, 0) + |r| <= k < |s| ==> f(s[k])
    ensures |r| > 0 ==> !f(r[0]) && !f(r[|r| - 1])
  {
    var a := LeadingEnd(s, f, 0);
    s[a..TrailingStart(s, f, a, |s|)]
  }

  /** Go `strings.TrimSpace`, which trims `unicode.IsSpace` at both ends. */
  function TrimSpace(s: string): (r: string)
    ensures OccursAt(s, r, LeadingEnd(s, IsSpace, 0))
    ensures forall k :: 0 <= k < LeadingEnd(s, IsSpace, 0) ==> IsSpace(s[k])
    ensures forall k :: LeadingEnd(s, IsSpace, 0) + |r| <= k < |s| ==> IsSpace(s[k])
    ensures |r| > 0 ==> !IsSpace(r[0]) && !IsSpace(r[|r| - 1])
  {
    TrimFunc(s, IsSpace)
  }

  /** `LeadingEnd` is the only index with its contract. */
  lemma {:induction false} LeadingEndIs(s: string, f: char -> bool, i: nat, n: nat)
    requires i <= n <= |s|
    requires forall k :: i <= k < n ==> f(s[k])
    requires n < |s| ==> !f(s[n])
    ensures LeadingEnd(s, f, i) == n
    decreases n - i
  {
    if i < n {
      LeadingEndIs(s, f, i + 1, n);
    }
  }

  /** `TrailingStart` is the only index with its contract. */
  lemma {:induction false} TrailingStartIs(s: string, f: char -> bool, lo: nat, j: nat, n: nat)
    requires lo <= n <= j <= |s|
    requires forall k :: n <= k < j ==> f(s[k])
    requires n > lo ==> !f(s[n - 1])
    ensures TrailingStart(s, f, lo, j) == n
    decreases j - n
  {
    if n < j {
      TrailingStartIs(s, f, lo, j - 1, n);
    }
  }

  /** Trimming recovers exactly the text between padding, provided that
      text does not itself begin or end with a trimmed character. */
  lemma TrimFuncOfPadded(p: string, t: string, q: string, f: char -> bool)
    requires All(p, f) && All(q, f)
    requires |t| > 0 ==> !f(t[0]) && !f(t[|t| - 1])
    ensures TrimFunc(p + t + q, f) == t
  {
    var x := p + t + q;
    if |t| == 0 {
      PaddingOnly(p, q, f);
      assert x == p + q;
      LeadingEndIs(x, f, 0, |x|);
    } else {
      LeadingPadding(p, t + q, f);
      assert x == p + (t + q);
      TrailingPadding(p + t, q, |p|, f);
      assert x[|p|..|p| + |t|] == t;
    }
  }

  lemma PaddingOnly(p: string, q: string, f: char -> bool)
    requires All(p, f) && All(q, f)
    ensures forall k :: 0 <= k < |p + q| ==> f((p + q)[k])
  {
    forall k | 0 <= k < |p + q|
      ensures f((p + q)[k])
    {
      if k < |p| {
        assert (p + q)[k] == p[k];
      } else {
        assert (p + q)[k] == q[k - |p|];
      }
    }
  }

  /** Padding before a text that does not start with a trimmed character
      is exactly the leading run. */
  lemma LeadingPadding(p: string, u: string, f: char -> bool)
    requires All(p, f)
    requires |u| > 0 && !f(u[0])
    ensures LeadingEnd(p + u, f, 0) == |p|
  {
    var x := p + u;
    forall k | 0 <= k < |p|
      ensures f(x[k])
    {
      assert x[k] == p[k];
    }
    assert x[|p|] == u[0];
    LeadingEndIs(x, f, 0, |p|);
  }

  /** Padding after a text that does not end with a trimmed character is
      exactly the trailing run, as far left as `lo`. */
  lemma TrailingPadding(u: string, q: string, lo: nat, f: char -> bool)
    requires All(q, f)
    requires lo < |u| && !f(u[|u| - 1])
    ensures TrailingStart(u + q, f, lo, |u + q|) == |u|
  {
    var x := u + q;
    forall k | |u| <= k < |x|
      ensures f(x[k])
    {
      assert x[k] == q[k - |u|];
    }
    assert x[|u| - 1] == u[|u| - 1];
    TrailingStartIs(x, f, lo, |x|, |u|);
  }

  /** Trimming white-space padding from a text whose own ends are not white
      space returns that text. */
  lemma TrimSpaceOfPadded(p: string, t: string, q: string)
    requires AllSpace(p) && AllSpace(q)
    requires |t| > 0 ==> !IsSpace(t[0]) && !IsSpace(t[|t| - 1])
    ensures TrimSpace(p + t + q) == t
  {
    TrimFuncOfPadded(p, t, q, IsSpace);
  }

  /** Trimming twice is trimming once. */
  lemma TrimFuncIdempotent(s: string, f: char -> bool)
    ensures TrimFunc(TrimFunc(s, f), f) == TrimFunc(s, f)
  {
    var r := TrimFunc(s, f);
    assert "" + r + "" == r;
    TrimFuncOfPadded("", r, "", f);
  }

  lemma TrimSpaceIdempotent(s: string)
    ensures TrimSpace(TrimSpace(s)) == TrimSpace(s)
  {
    TrimFuncIdempotent(s, IsSpace);
  }

  // ----- text assembled from parts -----

  /** The parts joined in order. */
  function Concat(parts: seq<string>): string {
    if |parts| == 0 then "" else parts[0] + Concat(parts[1..])
  }

  lemma {:induction false} ConcatAppend(a: seq<string>, b: seq<string>)
    ensures Concat(a + b) == Concat(a) + Concat(b)
    decreases |a|
  {
    if |a| == 0 {
      assert a + b == b;
    } else {
      assert (a + b)[1..] == a[1..] + b;
      ConcatAppend(a[1..], b);
    }
  }

  /** Joining splits off the first and the last part. */
  lemma FirstAndLast(parts: seq<string>)
    requires |parts| >= 2
    ensures Concat(parts) == parts[0] + Concat(parts[1..|parts| - 1]) + parts[|parts| - 1]
  {
    var n := |parts|;
    var first, middle, last := parts[0], parts[1..n - 1], parts[n - 1];
    EndsSplit(parts);
    ConcatPadded(first, middle, last);
  }

  lemma EndsSplit<T>(s: seq<T>)
    requires |s| >= 2
    ensures s == [s[0]] + s[1..|s| - 1] + [s[|s| - 1]]
  {
  }

  lemma ConcatPadded(first: string, middle: seq<string>, last: string)
    ensures Concat([first] + middle + [last]) == first + Concat(middle) + last
  {
    ConcatAppend([first] + middle, [last]);
    ConcatAppend([first], middle);
    assert Concat([first]) == first + Concat([]);
    assert Concat([last]) == last + Concat([]);
  }

  /** The parts in the middle of a list occur in the joined text right
      after the text of the parts before them. */
  lemma ConcatOccurs(a: seq<string>, x: seq<string>, b: seq<string>)
    ensures OccursAt(Concat(a + x + b), Concat(x), |Concat(a)|)
  {
    ConcatAppend(a + x, b);
    ConcatAppend(a, x);
    var s := Concat(a + x + b);
    assert s == Concat(a) + Concat(x) + Concat(b);
    assert s[|Concat(a)|..|Concat(a)| + |Concat(x)|] == Concat(x);
  }

  lemma OccursAtCompose(s: string, x: string, i: int, y: string, j: int)
    requires OccursAt(s, x, i) && OccursAt(x, y, j)
    ensures OccursAt(s, y, i + j)
  {
    forall k | 0 <= k < |y|
      ensures s[i + j + k] == y[k]
    {
      assert y[k] == x[j + k] == s[i + j + k];
    }
    assert s[i + j..i + j + |y|] == y;
  }

  /** A short list of pieces concatenates to the pieces joined by `+`. */
  lemma Concat2(a: string, b: string)
    ensures Concat([a, b]) == a + b
  {
    assert [a, b][1..] == [b];
    assert [b][1..] == [];
    assert Concat([b]) == b + Concat([]);
    assert b + "" == b;
  }
  lemma Concat3(a: string, b: string, c: string)
    ensures Concat([a, b, c]) == a + b + c
  {
    assert [a, b, c][1..] == [b, c];
    Concat2(b, c);
  }
  lemma Concat4(a: string, b: string, c: string, d: string)
    ensures Concat([a, b, c, d]) == a + b + c + d
  {
    assert [a, b, c, d][1..] == [b, c, d];
    Concat3(b, c, d);
  }
  lemma Concat5(a: string, b: string, c: string, d: string, e: string)
    ensures Concat([a, b, c, d, e]) == a + b + c + d + e
  {
    assert [a, b, c, d, e][1..] == [b, c, d, e];
    Concat4(b, c, d, e);
  }
  lemma Concat6(a: string, b: string, c: string, d: string, e: string, f: string)
    ensures Concat([a, b, c, d, e, f]) == a + b + c + d + e + f
  {
    assert [a, b, c, d, e, f][1..] == [b, c, d, e, f];
    Concat5(b, c, d, e, f);
  }

  /** An occurrence inside the first of two adjacent runs. */
  lemma OccursWithin(s: string, x: string, y: string, i: int, z: string, k: int)
    requires OccursAt(s, x + y, i) && OccursAt(x, z, k)
    ensures OccursAt(s, z, i + k)
    ensures i <= i + k && i + k + |z| <= i + |x|
  {
    assert OccursAt(x + y, x, 0) by {
      assert (x + y)[..|x|] == x;
    }
    OccursAtCompose(s, x + y, i, x, 0);
    OccursAtCompose(s, x, i, z, k);
  }

  /** Concatenating three runs of pieces whose outer runs are known. */
  lemma ConcatFrame(first: seq<string>, middle: seq<string>, last: seq<string>, head: string, rest: string,
                    tail: string)
    requires Concat(first) == head + rest
    requires Concat(last) == tail
    ensures Concat(first + middle + last) == head + (rest + Concat(middle)) + tail
  {
    ConcatAppend(first + middle, last);
    ConcatAppend(first, middle);
  }

  /** A concatenation starts with its first part and ends with its last. */
  lemma FramedBy(p: string, x: string, q: string)
    ensures StartsWith(p + x + q, p)
    ensures EndsWith(p + x + q, q)
  {
  }

  lemma EndsWithExtend(s: string, p: string, tail: string)
    requires EndsWith(s, p)
    ensures EndsWith(s + tail, p + tail)
  {
    assert (s + tail)[|s + tail| - |p + tail|..] == s[|s| - |p|..] + tail;
  }

  lemma StartsWithCompose(s: string, p: string, q: string)
    requires StartsWith(s, p) && StartsWith(p, q)
    ensures StartsWith(s, q)
  {
    assert s[..|q|] == p[..|q|];
  }

  lemma EndsWithCompose(s: string, p: string, q: string)
    requires EndsWith(s, p) && EndsWith(p, q)
    ensures EndsWith(s, q)
  {
    assert s[|s| - |q|..] == p[|p| - |q|..];
  }
}
