/** The two string operations the path builder relies on: `String.prototype.includes`
    with a string argument, and a global replacement of a literal pattern
    (`replace(/pattern/g, replacement)` where the pattern has no metacharacters),
    which scans left to right and replaces non-overlapping matches. */
module Text {

  /** `p` is a prefix of `s`. */
  predicate StartsWith(s: string, p: string) {
    |p| <= |s| && s[..|p|] == p
  }

  /** `p` occurs in `s` at index `i`: the reference meaning of "contains". */
  ghost predicate OccursAt(s: string, p: string, i: int) {
    0 <= i && i + |p| <= |s| && s[i..i + |p|] == p
  }

  /** `s.includes(p)`, computed by scanning `s`. */
  predicate Contains(s: string, p: string)
    decreases |s|
  {
    StartsWith(s, p) || (s != [] && Contains(s[1..], p))
  }

  /** Every non-overlapping occurrence of `p` in `s`, leftmost first, replaced by `r`. */
  function ReplaceAll(s: string, p: string, r: string): string
    requires p != []
    decreases |s|
  {
    if s == [] then []
    else if StartsWith(s, p) then r + ReplaceAll(s[|p|..], p, r)
    else [s[0]] + ReplaceAll(s[1..], p, r)
  }

  /** The number of occurrences `ReplaceAll` replaces. */
  function Count(s: string, p: string): nat
    requires p != []
    decreases |s|
  {
    if s == [] then 0
    else if StartsWith(s, p) then 1 + Count(s[|p|..], p)
    else Count(s[1..], p)
  }

  /** The scan agrees with the reference meaning, in both directions. */
  lemma {:induction false} ContainsIff(s: string, p: string)
    ensures Contains(s, p) <==> exists i :: OccursAt(s, p, i)
    decreases |s|
  {
    if StartsWith(s, p) {
      assert OccursAt(s, p, 0);
    } else if s == [] {
      assert p != [];
    } else {
      ContainsIff(s[1..], p);
      if Contains(s[1..], p) {
        var j :| OccursAt(s[1..], p, j);
        SliceOfTail(s, j + 1, |p|);
        assert OccursAt(s, p, j + 1);
      } else {
        forall i ensures !OccursAt(s, p, i) {
          if 0 < i && i + |p| <= |s| {
            SliceOfTail(s, i, |p|);
            assert !OccursAt(s[1..], p, i - 1);
          }
        }
      }
    }
  }

  lemma SliceOfTail(s: string, i: int, n: nat)
    requires 0 < i && i + n <= |s|
    ensures s[1..][i - 1..i - 1 + n] == s[i..i + n]
  {
    var u, v := s[1..][i - 1..i - 1 + n], s[i..i + n];
    forall k | 0 <= k < n ensures u[k] == v[k] { }
  }

  /** Replacement changes nothing in a string where the pattern does not occur. */
  lemma {:induction false} ReplaceAllAbsent(s: string, p: string, r: string)
    requires p != [] && !Contains(s, p)
    ensures ReplaceAll(s, p, r) == s
    decreases |s|
  {
    if s != [] {
      ReplaceAllAbsent(s[1..], p, r);
      assert [s[0]] + s[1..] == s;
    }
  }

  /** Each replaced occurrence trades |p| characters for |r|. */
  lemma {:induction false} ReplaceAllLength(s: string, p: string, r: string)
    requires p != []
    ensures |ReplaceAll(s, p, r)| == |s| + Count(s, p) * (|r| - |p|)
    decreases |s|
  {
    if s == [] {
    } else if StartsWith(s, p) {
      var rest := s[|p|..];
      ReplaceAllLength(rest, p, r);
      assert |ReplaceAll(s, p, r)| == |r| + |ReplaceAll(rest, p, r)|;
      Distribute(Count(rest, p), |r| - |p|);
    } else {
      ReplaceAllLength(s[1..], p, r);
      assert |ReplaceAll(s, p, r)| == 1 + |ReplaceAll(s[1..], p, r)|;
    }
  }

  lemma Distribute(c: int, k: int)
    ensures (1 + c) * k == c * k + k
  {
  }

  /** Something is replaced exactly when the pattern occurs. */
  lemma {:induction false} CountPositiveIff(s: string, p: string)
    requires p != []
    ensures Count(s, p) > 0 <==> Contains(s, p)
    decreases |s|
  {
    if s != [] && !StartsWith(s, p) {
      CountPositiveIff(s[1..], p);
    }
  }

  /** A prefix free of the pattern's first character passes through unchanged,
      and no occurrence can start inside it. */
  lemma {:induction false} ReplaceAllPrefix(a: string, b: string, p: string, r: string)
    requires p != [] && p[0] !in a
    ensures ReplaceAll(a + b, p, r) == a + ReplaceAll(b, p, r)
    decreases |a|
  {
    if a == [] {
      assert a + b == b;
    } else {
      assert (a + b)[0] == a[0];
      assert !StartsWith(a + b, p);
      assert (a + b)[1..] == a[1..] + b;
      ReplaceAllPrefix(a[1..], b, p, r);
      assert [a[0]] + (a[1..] + ReplaceAll(b, p, r)) == a + ReplaceAll(b, p, r);
    }
  }

  /** A string that opens with the pattern has that occurrence replaced first. */
  lemma ReplaceAllLeading(b: string, p: string, r: string)
    requires p != []
    ensures ReplaceAll(p + b, p, r) == r + ReplaceAll(b, p, r)
  {
    assert StartsWith(p + b, p);
    assert (p + b)[|p|..] == b;
  }

  /** A string without the pattern's first character is left as it is. */
  lemma ReplaceAllFree(s: string, p: string, r: string)
    requires p != [] && p[0] !in s
    ensures ReplaceAll(s, p, r) == s
  {
    ReplaceAllPrefix(s, [], p, r);
    assert s + [] == s;
  }
}
