/** Shared vocabulary: optional values and results, the few JavaScript
    library operations the dashboard relies on (`String.prototype.includes`,
    `toLowerCase`, `Math.round` of a ratio, `Array.prototype.find` and
    `Array.prototype.filter`), stated once and proved once. */
module Common {

  datatype Option<T> = None | Some(value: T)

  datatype Result<T, E> = Ok(value: T) | Err(error: E)

  // ---------------------------------------------------------------------
  // Strings
  // ---------------------------------------------------------------------

  /** `sub` occurs in `s` starting at position `i`. */
  predicate OccursAt(s: string, sub: string, i: nat)
  {
    i + |sub| <= |s| && s[i..i + |sub|] == sub
  }

  /** `s.includes(sub)`: some position of `s` starts an occurrence of `sub`. */
  function Includes(s: string, sub: string): (r: bool)
    ensures r <==> exists i: nat :: OccursAt(s, sub, i)
    decreases |s|
  {
    if |sub| > |s| then
      false
    else if s[..|sub|] == sub then
      assert OccursAt(s, sub, 0);
      true
    else
      var rest := Includes(s[1..], sub);
      if rest then
        var i: nat :| OccursAt(s[1..], sub, i);
        assert OccursAt(s, sub, i + 1) by {
          assert s[i + 1..i + 1 + |sub|] == s[1..][i..i + |sub|];
        }
        rest
      else
        assert !OccursAt(s, sub, 0);
        forall i: nat | i > 0 && OccursAt(s, sub, i)
          ensures OccursAt(s[1..], sub, i - 1)
        {
          assert s[1..][i - 1..i - 1 + |sub|] == s[i..i + |sub|];
        }
        rest
  }

  /** The empty string is included in every string (`"abc".includes("")`). */
  lemma IncludesEmpty(s: string)
    ensures Includes(s, "")
  {
    assert OccursAt(s, "", 0);
  }

  /** ASCII `toLowerCase` of one character. */
  function LowerChar(c: char): (r: char)
    ensures 'A' <= c <= 'Z' ==> 'a' <= r <= 'z'
    ensures !('A' <= c <= 'Z') ==> r == c
  {
    if 'A' <= c <= 'Z' then (c as int + 32) as char else c
  }

  /** ASCII `toLowerCase`: same length, every character lowered, no upper-case letter left. */
  function Lower(s: string): (r: string)
    ensures |r| == |s|
    ensures forall i :: 0 <= i < |s| ==> r[i] == LowerChar(s[i])
    ensures forall i :: 0 <= i < |r| ==> !('A' <= r[i] <= 'Z')
  {
    if s == [] then [] else [LowerChar(s[0])] + Lower(s[1..])
  }

  /** `a.toLowerCase().includes(b.toLowerCase())`. */
  predicate IncludesIgnoringCase(s: string, sub: string)
  {
    Includes(Lower(s), Lower(sub))
  }

  // ---------------------------------------------------------------------
  // Numbers
  // ---------------------------------------------------------------------

  /** `Math.round(n / d)` for a positive divisor, computed exactly: the
      nearest integer, halves rounded up (towards +infinity). */
  function RoundRatio(n: int, d: nat): (r: int)
    requires d > 0
    ensures 2 * d * r <= 2 * n + d < 2 * d * (r + 1)
  {
    var q := (2 * n + d) / (2 * d);
    assert 2 * n + d == (2 * d) * q + (2 * n + d) % (2 * d);
    q
  }

  /** Rounding is monotone in the numerator. */
  lemma RoundRatioMonotone(m: int, n: int, d: nat)
    requires d > 0 && m <= n
    ensures RoundRatio(m, d) <= RoundRatio(n, d)
  {
    var a, b := RoundRatio(m, d), RoundRatio(n, d);
    CancelFactor(2 * d, a, b + 1);
  }

  /** `Math.round(k * d / d)` is `k`: an exact ratio is not moved by rounding. */
  lemma RoundRatioExact(k: int, d: nat)
    requires d > 0
    ensures RoundRatio(k * d, d) == k
  {
    var r := RoundRatio(k * d, d);
    CancelFactor(2 * d, r, k + 1);
    CancelFactor(2 * d, k, r + 1);
  }

  /** A rounded percentage of a part of a whole is between 0 and 100. */
  lemma PercentBounds(part: nat, whole: nat)
    requires 0 < whole && part <= whole
    ensures 0 <= RoundRatio(100 * part, whole) <= 100
  {
    RoundRatioMonotone(0, 100 * part, whole);
    RoundRatioMonotone(100 * part, 100 * whole, whole);
    RoundRatioExact(0, whole);
    RoundRatioExact(100, whole);
  }

  /** A positive factor can be cancelled from a strict inequality. */
  lemma CancelFactor(c: nat, x: int, y: int)
    requires c > 0
    ensures c * x < c * y ==> x < y
  {
    if x >= y {
      assert c * x - c * y == c * (x - y);
    }
  }

  // ---------------------------------------------------------------------
  // Sequences
  // ---------------------------------------------------------------------

  /** `s.findIndex(p)`: the first position whose element satisfies `p`. */
  function FindFirst<T>(s: seq<T>, p: T -> bool): (r: Option<nat>)
    ensures r.Some? ==> r.value < |s| && p(s[r.value])
    ensures r.Some? ==> forall k :: 0 <= k < r.value ==> !p(s[k])
    ensures r.None? <==> forall k :: 0 <= k < |s| ==> !p(s[k])
  {
    if s == [] then
      None
    else if p(s[0]) then
      Some(0)
    else
      match FindFirst(s[1..], p)
      case None => None
      case Some(k) => Some(k + 1)
  }

  /** Replacing elements with ones `p` judges alike leaves the first match where it was. */
  lemma {:induction false} FindFirstStable<T>(s: seq<T>, t: seq<T>, p: T -> bool)
    requires |s| == |t|
    requires forall k :: 0 <= k < |s| ==> p(s[k]) == p(t[k])
    ensures FindFirst(s, p) == FindFirst(t, p)
  {
    if s != [] && !p(s[0]) {
      FindFirstStable(s[1..], t[1..], p);
    }
  }

  /** `s.filter(p)`: the elements satisfying `p`, in their order. */
  function Filter<T>(s: seq<T>, p: T -> bool): (r: seq<T>)
    ensures |r| <= |s|
    ensures forall k :: 0 <= k < |r| ==> r[k] in s && p(r[k])
    ensures forall k :: 0 <= k < |s| && p(s[k]) ==> s[k] in r
  {
    if s == [] then []
    else if p(s[0]) then [s[0]] + Filter(s[1..], p)
    else Filter(s[1..], p)
  }

  /** An element of the input that passes the predicate is kept. */
  lemma FilterKeeps<T>(s: seq<T>, p: T -> bool, x: T)
    requires x in s && p(x)
    ensures x in Filter(s, p)
  {
    var k :| 0 <= k < |s| && s[k] == x;
  }

  /** Two predicates that agree on every element filter alike. */
  lemma {:induction false} FilterAgreeing<T>(s: seq<T>, p: T -> bool, q: T -> bool)
    requires forall k :: 0 <= k < |s| ==> p(s[k]) == q(s[k])
    ensures Filter(s, p) == Filter(s, q)
  {
    if s != [] {
      FilterAgreeing(s[1..], p, q);
    }
  }

  /** One step of the filter: the head is kept or dropped. */
  lemma FilterCons<T>(s: seq<T>, p: T -> bool)
    requires s != []
    ensures Filter(s, p) == (if p(s[0]) then [s[0]] else []) + Filter(s[1..], p)
  {
  }

  /** A filter that no element passes returns nothing. */
  lemma {:induction false} FilterKeepsNone<T>(s: seq<T>, p: T -> bool)
    requires forall k :: 0 <= k < |s| ==> !p(s[k])
    ensures Filter(s, p) == []
  {
    if s != [] {
      FilterKeepsNone(s[1..], p);
    }
  }

  /** Filtering keeps every copy of a passing element and drops every copy of the others. */
  lemma {:induction false} FilterMultiplicity<T>(s: seq<T>, p: T -> bool, x: T)
    ensures multiset(Filter(s, p))[x] == if p(x) then multiset(s)[x] else 0
  {
    if s != [] {
      FilterMultiplicity(s[1..], p, x);
      assert s == [s[0]] + s[1..];
      assert multiset(s) == multiset([s[0]]) + multiset(s[1..]);
      if p(s[0]) {
        assert multiset(Filter(s, p)) == multiset([s[0]]) + multiset(Filter(s[1..], p));
      }
    }
  }

  /** A filter that every element passes returns its input. */
  lemma {:induction false} FilterKeepsAll<T>(s: seq<T>, p: T -> bool)
    requires forall x :: x in s ==> p(x)
    ensures Filter(s, p) == s
  {
    if s != [] {
      FilterKeepsAll(s[1..], p);
    }
  }

  /** A predicate and its negation split a sequence: the two filters' lengths add up. */
  lemma {:induction false} FilterPartition<T>(s: seq<T>, p: T -> bool, q: T -> bool)
    requires forall x :: q(x) == !p(x)
    ensures |Filter(s, p)| + |Filter(s, q)| == |s|
  {
    if s != [] {
      FilterPartition(s[1..], p, q);
    }
  }

  /** Filtering by a weaker predicate keeps at least as many elements. */
  lemma {:induction false} FilterWeaker<T>(s: seq<T>, p: T -> bool, q: T -> bool)
    requires forall x :: p(x) ==> q(x)
    ensures |Filter(s, p)| <= |Filter(s, q)|
  {
    if s != [] {
      FilterWeaker(s[1..], p, q);
    }
  }

  /** `r` is `s` with some elements dropped and the rest in their order. */
  predicate IsSubsequence<T(==)>(r: seq<T>, s: seq<T>)
    decreases |s|
  {
    if r == [] then true
    else if s == [] then false
    else (r[0] == s[0] && IsSubsequence(r[1..], s[1..])) || IsSubsequence(r, s[1..])
  }

  /** A filter keeps the order of what it keeps. */
  lemma {:induction false} FilterSubsequence<T>(s: seq<T>, p: T -> bool)
    ensures IsSubsequence(Filter(s, p), s)
  {
    if s != [] {
      FilterSubsequence(s[1..], p);
      if p(s[0]) {
        assert ([s[0]] + Filter(s[1..], p))[1..] == Filter(s[1..], p);
      }
    }
  }

  /** A subsequence of a subsequence is a subsequence. */
  lemma {:induction false} SubsequenceTransitive<T>(a: seq<T>, b: seq<T>, c: seq<T>)
    requires IsSubsequence(a, b) && IsSubsequence(b, c)
    ensures IsSubsequence(a, c)
    decreases |c|
  {
    if a != [] && c != [] {
      if b[0] == c[0] && IsSubsequence(b[1..], c[1..]) {
        if a[0] == b[0] && IsSubsequence(a[1..], b[1..]) {
          SubsequenceTransitive(a[1..], b[1..], c[1..]);
        } else {
          SubsequenceTransitive(a, b[1..], c[1..]);
        }
      } else {
        SubsequenceTransitive(a, b, c[1..]);
      }
    }
  }

  /** Every sequence is a subsequence of itself. */
  lemma {:induction false} SubsequenceReflexive<T>(s: seq<T>)
    ensures IsSubsequence(s, s)
  {
    if s != [] {
      SubsequenceReflexive(s[1..]);
    }
  }

  /** The elements of a subsequence come from the sequence. */
  lemma {:induction false} SubsequenceMember<T>(r: seq<T>, s: seq<T>, k: nat)
    requires IsSubsequence(r, s) && k < |r|
    ensures r[k] in s
    decreases |s|
  {
    if r[0] == s[0] && IsSubsequence(r[1..], s[1..]) {
      if k > 0 {
        SubsequenceMember(r[1..], s[1..], k - 1);
      }
    } else {
      SubsequenceMember(r, s[1..], k);
    }
  }
}
