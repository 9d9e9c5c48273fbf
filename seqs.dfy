/** The slice and string primitives the source uses from Go's `strings` and
    `bytes` packages (HasPrefix, Index, Contains, Count, Cut), stated once over
    sequences so that they serve both `string` and `[]byte`. */
module Seqs {
  import opened Wrappers

  predicate StartsWith<T(==)>(s: seq<T>, prefix: seq<T>) {
    |prefix| <= |s| && s[..|prefix|] == prefix
  }

  predicate EndsWith<T(==)>(s: seq<T>, suffix: seq<T>) {
    |suffix| <= |s| && s[|s| - |suffix|..] == suffix
  }

  /** `pat` occurs in `s` starting at index `i`. */
  predicate OccursAt<T(==)>(s: seq<T>, pat: seq<T>, i: nat) {
    i + |pat| <= |s| && s[i..i + |pat|] == pat
  }

  /** `pat` occurs nowhere in `s`. */
  ghost predicate Absent<T>(s: seq<T>, pat: seq<T>) {
    forall j: nat :: !OccursAt(s, pat, j)
  }

  /** `i` is the first index at which `pat` occurs in `s`. */
  predicate FirstAt<T(==)>(s: seq<T>, pat: seq<T>, i: nat) {
    OccursAt(s, pat, i) && forall j: nat :: j < i ==> !OccursAt(s, pat, j)
  }

  /** The first occurrence of `pat` at or after `from` (Go's `bytes.Index` and
      `strings.Index` when `from` is 0). */
  function IndexFrom<T(==)>(s: seq<T>, pat: seq<T>, from: nat): (r: Option<nat>)
    ensures r.Some? ==> from <= r.value && OccursAt(s, pat, r.value)
    ensures r.Some? ==> forall j: nat :: from <= j < r.value ==> !OccursAt(s, pat, j)
    ensures r.None? ==> forall j: nat :: from <= j ==> !OccursAt(s, pat, j)
    decreases |s| - from
  {
    if from + |pat| > |s| then None
    else if s[from..from + |pat|] == pat then Some(from)
    else IndexFrom(s, pat, from + 1)
  }

  function IndexOf<T(==)>(s: seq<T>, pat: seq<T>): (r: Option<nat>)
    ensures r.Some? ==> FirstAt(s, pat, r.value)
    ensures r.None? <==> Absent(s, pat)
  {
    IndexFrom(s, pat, 0)
  }

  /** Go's `strings.Contains`. */
  predicate Contains<T(==)>(s: seq<T>, pat: seq<T>) {
    IndexOf(s, pat).Some?
  }

  /** The number of occurrences of the single element `x` in `s`; this is what
      `strings.Count(s, "/")` computes for a one-character separator. */
  function CountOf<T(==)>(s: seq<T>, x: T): nat {
    if s == [] then 0 else (if s[0] == x then 1 else 0) + CountOf(s[1..], x)
  }

  lemma {:induction false} CountOfAppend<T>(a: seq<T>, b: seq<T>, x: T)
    ensures CountOf(a + b, x) == CountOf(a, x) + CountOf(b, x)
  {
    if a == [] {
      assert a + b == b;
    } else {
      assert (a + b)[1..] == a[1..] + b;
      CountOfAppend(a[1..], b, x);
    }
  }

  /** The result of Go's `bytes.Cut` / `strings.Cut` with a one-element separator. */
  datatype Cut<T> = Cut(before: seq<T>, after: seq<T>, found: bool)

  /** Splits `s` around the first `sep`; when there is none, everything is `before`. */
  function CutAt<T(==)>(s: seq<T>, sep: T): (c: Cut<T>)
    ensures c.found ==> s == c.before + [sep] + c.after && sep !in c.before
    ensures !c.found ==> c.before == s && c.after == [] && sep !in s
  {
    match IndexOf(s, [sep])
    case Some(i) =>
      assert forall j: nat :: j < i ==> s[j] != sep by {
        forall j: nat | j < i ensures s[j] != sep {
          assert !OccursAt(s, [sep], j);
        }
      }
      assert s == s[..i] + [sep] + s[i + 1..];
      Cut(s[..i], s[i + 1..], true)
    case None =>
      assert forall j: nat :: j < |s| ==> s[j] != sep by {
        forall j: nat | j < |s| ensures s[j] != sep {
          assert !OccursAt(s, [sep], j);
        }
      }
      Cut(s, [], false)
  }

  /** Two first occurrences are the same occurrence. */
  lemma FirstAtUnique<T>(s: seq<T>, pat: seq<T>, i: nat, k: nat)
    requires FirstAt(s, pat, i) && FirstAt(s, pat, k)
    ensures i == k
  {
  }

  /** Cutting `a + [sep] + b` where `a` holds no separator gives back `a` and `b`. */
  lemma CutAtJoin<T>(a: seq<T>, sep: T, b: seq<T>)
    requires sep !in a
    ensures CutAt(a + [sep] + b, sep) == Cut(a, b, true)
  {
    var s := a + [sep] + b;
    assert s[|a|..|a| + 1] == [sep];
    forall j: nat | j < |a| ensures !OccursAt(s, [sep], j) {
      assert s[j] == a[j];
    }
    assert FirstAt(s, [sep], |a|);
    FirstAtUnique(s, [sep], IndexOf(s, [sep]).value, |a|);
    assert s[..|a|] == a;
    assert s[|a| + 1..] == b;
  }

  lemma StartsWithAppend<T>(prefix: seq<T>, rest: seq<T>)
    ensures StartsWith(prefix + rest, prefix)
  {
    assert (prefix + rest)[..|prefix|] == prefix;
  }

  lemma EndsWithAppend<T>(rest: seq<T>, suffix: seq<T>)
    ensures EndsWith(rest + suffix, suffix)
  {
    assert (rest + suffix)[|rest|..] == suffix;
  }

  /** A prefix of a prefix: `p` starts `s` when it starts some prefix `q` of `s`. */
  lemma StartsWithTrans<T>(s: seq<T>, q: seq<T>, p: seq<T>)
    requires StartsWith(s, q) && StartsWith(q, p)
    ensures StartsWith(s, p)
  {
    assert s[..|p|] == q[..|p|];
  }

  /** `pat` occurring inside `mid` occurs inside `pre + mid + post`. */
  lemma OccursInside<T>(pre: seq<T>, mid: seq<T>, post: seq<T>, pat: seq<T>)
    requires |mid| == |pat| && mid == pat
    ensures OccursAt(pre + mid + post, pat, |pre|)
    ensures Contains(pre + mid + post, pat)
  {
    var s := pre + mid + post;
    assert s[|pre|..|pre| + |pat|] == mid;
    assert OccursAt(s, pat, |pre|);
    assert !Absent(s, pat);
  }

  /** Concatenation is associative. */
  lemma AppendAssoc<T>(a: seq<T>, b: seq<T>, c: seq<T>)
    ensures a + (b + c) == a + b + c
  {
  }
}
