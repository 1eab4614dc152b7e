/** String helpers: `Array.prototype.join` and where each part lands in the joined text. */
module Text {

  /** `parts.join(sep)`: the parts in order with `sep` between neighbours. */
  function Join(parts: seq<string>, sep: string): string {
    JoinPrefix(parts, sep, |parts|)
  }

  /** `parts.slice(0, n).join(sep)` */
  function JoinPrefix(parts: seq<string>, sep: string, n: nat): string
    requires n <= |parts|
    decreases n
  {
    if n == 0 then ""
    else if n == 1 then parts[0]
    else JoinPrefix(parts, sep, n - 1) + sep + parts[n - 1]
  }

  /** The index at which `parts[i]` starts inside `Join(parts, sep)`. */
  function Offset(parts: seq<string>, sep: string, i: nat): nat
    requires i <= |parts|
  {
    if i == 0 then 0 else Offset(parts, sep, i - 1) + |parts[i - 1]| + |sep|
  }

  predicate StartsWith(s: string, prefix: string) {
    |prefix| <= |s| && s[..|prefix|] == prefix
  }

  /** A slice of the first part of a concatenation. */
  lemma SliceOfPrefix(a: string, b: string, lo: nat, hi: nat)
    requires lo <= hi <= |a|
    ensures (a + b)[lo..hi] == a[lo..hi]
  {
    assert forall k :: lo <= k < hi ==> (a + b)[k] == a[k];
  }

  /** A slice within the first of three concatenated parts. */
  lemma SliceOfFirst(a: string, b: string, c: string, lo: nat, hi: nat, x: string)
    requires lo <= hi <= |a| && a[lo..hi] == x
    ensures hi <= |a + b + c| && (a + b + c)[lo..hi] == x
  {
    SliceOfPrefix(a + b, c, lo, hi);
    SliceOfPrefix(a, b, lo, hi);
  }

  /** The last part of a concatenation. */
  lemma SliceOfSuffix(a: string, b: string)
    ensures (a + b)[|a|..|a| + |b|] == b
  {
    assert forall k :: 0 <= k < |b| ==> (a + b)[|a| + k] == b[k];
  }

  /** A slice of the middle part of a concatenation is the same slice of that part. */
  lemma SliceInside(head: string, middle: string, tail: string, at: nat, part: string)
    requires at + |part| <= |middle| && middle[at..at + |part|] == part
    ensures |head| + at + |part| <= |head + middle + tail|
    ensures (head + middle + tail)[|head| + at..|head| + at + |part|] == part
  {
    assert (head + middle + tail)[|head| + at..|head| + at + |part|] == middle[at..at + |part|];
  }

  /** The first `n` parts joined are as long as those parts plus one separator between each neighbour pair. */
  lemma {:induction false} JoinPrefixLength(parts: seq<string>, sep: string, n: nat)
    requires 0 < n <= |parts|
    ensures |JoinPrefix(parts, sep, n)| + |sep| == Offset(parts, sep, n)
  {
    if n > 1 {
      JoinPrefixLength(parts, sep, n - 1);
    }
  }

  /** Among the first `n` parts joined, part `i` sits at its offset. */
  lemma {:induction false} JoinPrefixPart(parts: seq<string>, sep: string, n: nat, i: nat)
    requires i < n <= |parts|
    ensures Offset(parts, sep, i) + |parts[i]| <= |JoinPrefix(parts, sep, n)|
    ensures JoinPrefix(parts, sep, n)[Offset(parts, sep, i)..Offset(parts, sep, i) + |parts[i]|] == parts[i]
    decreases n
  {
    if n == 1 {
      assert parts[0][0..|parts[0]|] == parts[0];
    } else {
      var j := JoinPrefix(parts, sep, n - 1);
      assert JoinPrefix(parts, sep, n) == j + sep + parts[n - 1];
      JoinPrefixLength(parts, sep, n - 1);
      if i < n - 1 {
        var lo := Offset(parts, sep, i);
        JoinPrefixPart(parts, sep, n - 1, i);
        SliceOfFirst(j, sep, parts[n - 1], lo, lo + |parts[i]|, parts[i]);
      } else {
        SliceOfSuffix(j + sep, parts[n - 1]);
      }
    }
  }

  /** Among the first `n` parts joined, exactly `sep` separates part `i` from part `i + 1`. */
  lemma {:induction false} JoinPrefixSeparator(parts: seq<string>, sep: string, n: nat, i: nat)
    requires i + 1 < n <= |parts|
    ensures Offset(parts, sep, i + 1) <= |JoinPrefix(parts, sep, n)|
    ensures JoinPrefix(parts, sep, n)[Offset(parts, sep, i) + |parts[i]|..Offset(parts, sep, i + 1)] == sep
    decreases n
  {
    var j := JoinPrefix(parts, sep, n - 1);
    assert JoinPrefix(parts, sep, n) == j + sep + parts[n - 1];
    JoinPrefixLength(parts, sep, n - 1);
    var lo := Offset(parts, sep, i) + |parts[i]|;
    if i + 1 < n - 1 {
      JoinPrefixSeparator(parts, sep, n - 1, i);
      SliceOfFirst(j, sep, parts[n - 1], lo, Offset(parts, sep, i + 1), sep);
    } else {
      assert Offset(parts, sep, i + 1) == |j| + |sep| && lo == |j|;
      SliceOfPrefix(j + sep, parts[n - 1], |j|, |j| + |sep|);
      SliceOfSuffix(j, sep);
    }
  }

  /**
   * Every part sits at its offset in the joined text, in order, and exactly
   * `sep` separates it from the next one; with JoinLength this determines the
   * joined text completely.
   */
  lemma JoinAt(parts: seq<string>, sep: string, i: nat)
    requires i < |parts|
    ensures Offset(parts, sep, i) + |parts[i]| <= |Join(parts, sep)|
    ensures Join(parts, sep)[Offset(parts, sep, i)..Offset(parts, sep, i) + |parts[i]|] == parts[i]
    ensures i + 1 < |parts| ==>
              Offset(parts, sep, i + 1) <= |Join(parts, sep)| &&
              Join(parts, sep)[Offset(parts, sep, i) + |parts[i]|..Offset(parts, sep, i + 1)] == sep
  {
    JoinPrefixPart(parts, sep, |parts|, i);
    if i + 1 < |parts| {
      JoinPrefixSeparator(parts, sep, |parts|, i);
    }
  }

  /** The joined text is as long as all parts plus one separator between each neighbour pair. */
  lemma JoinLength(parts: seq<string>, sep: string)
    requires |parts| > 0
    ensures |Join(parts, sep)| + |sep| == Offset(parts, sep, |parts|)
  {
    JoinPrefixLength(parts, sep, |parts|);
  }

  /** Inside `head + Join(parts, sep) + tail`, part `i` sits `|head|` past its offset. */
  lemma PartInContext(head: string, parts: seq<string>, sep: string, tail: string, i: nat)
    requires i < |parts|
    ensures |head| + Offset(parts, sep, i) + |parts[i]| <= |head + Join(parts, sep) + tail|
    ensures (head + Join(parts, sep) + tail)[|head| + Offset(parts, sep, i)..|head| + Offset(parts, sep, i) + |parts[i]|]
            == parts[i]
  {
    JoinAt(parts, sep, i);
    SliceInside(head, Join(parts, sep), tail, Offset(parts, sep, i), parts[i]);
  }

  /** Every string starts with itself followed by anything. */
  lemma StartsWithConcat(s: string, rest: string)
    ensures StartsWith(s + rest, s)
  {
    assert (s + rest)[..|s|] == s;
  }
}
