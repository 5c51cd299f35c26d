/**
  The Levenshtein edit distance with unit costs for insertion, deletion and
  substitution, written as the Wagner-Fischer recurrence over prefixes: cell
  (i, j) of the table is the distance between the first i characters of `a`
  and the first j characters of `b`. Everything else in the engine is proved
  against this definition.
 */
module Levenshtein {

  function Min3(x: nat, y: nat, z: nat): nat {
    if x <= y && x <= z then x else if y <= z then y else z
  }

  /** Cell (i, j) of the Wagner-Fischer table: row 0 and column 0 hold j and i,
      every other cell is the least of up + 1, left + 1 and diagonal + cost. */
  function Dist(a: string, b: string, i: nat, j: nat): nat
    requires i <= |a| && j <= |b|
    decreases i + j
  {
    if i == 0 then j
    else if j == 0 then i
    else Min3(Dist(a, b, i - 1, j) + 1, Dist(a, b, i, j - 1) + 1,
              Dist(a, b, i - 1, j - 1) + (if a[i - 1] == b[j - 1] then 0 else 1))
  }

  /** One interior cell from the three cells it reads. */
  lemma DistStep(a: string, b: string, i: nat, j: nat, up: nat, left: nat, diag: nat)
    requires 0 < i <= |a| && 0 < j <= |b|
    requires up == Dist(a, b, i - 1, j) && left == Dist(a, b, i, j - 1) && diag == Dist(a, b, i - 1, j - 1)
    ensures Dist(a, b, i, j) == Min3(up + 1, left + 1, diag + if a[i - 1] == b[j - 1] then 0 else 1)
  {
  }

  /** The edit distance between two whole strings: the bottom-right cell. It
      lies between the length difference and the longer length, and it is 0
      exactly when the two strings are equal. */
  function Lev(a: string, b: string): (r: nat)
    ensures Abs(|a| - |b|) <= r <= if |a| < |b| then |b| else |a|
    ensures r == 0 <==> a == b
  {
    DistBounds(a, b, |a|, |b|);
    CornerZeroIff(a, b);
    Dist(a, b, |a|, |b|)
  }

  function Abs(x: int): nat {
    if x < 0 then -x else x
  }

  /** No prefix pair is further apart than the longer of the two, and at
      least as far apart as their lengths differ. */
  lemma DistBounds(a: string, b: string, i: nat, j: nat)
    requires i <= |a| && j <= |b|
    ensures Abs(i - j) <= Dist(a, b, i, j) <= if i < j then j else i
  {
    DistAtMostLonger(a, b, i, j);
    DistAtLeastLengthGap(a, b, i, j);
  }

  lemma {:induction false} DistAtMostLonger(a: string, b: string, i: nat, j: nat)
    requires i <= |a| && j <= |b|
    ensures Dist(a, b, i, j) <= if i < j then j else i
    decreases i + j
  {
    if i > 0 && j > 0 {
      DistAtMostLonger(a, b, i - 1, j - 1);
    }
  }

  lemma {:induction false} DistAtLeastLengthGap(a: string, b: string, i: nat, j: nat)
    requires i <= |a| && j <= |b|
    ensures i <= Dist(a, b, i, j) + j && j <= Dist(a, b, i, j) + i
    decreases i + j
  {
    if i > 0 && j > 0 {
      DistAtLeastLengthGap(a, b, i - 1, j);
      DistAtLeastLengthGap(a, b, i, j - 1);
      DistAtLeastLengthGap(a, b, i - 1, j - 1);
    }
  }

  /** The distance to the empty string is the length. */
  lemma LevToEmpty(a: string)
    ensures Lev(a, "") == |a| && Lev("", a) == |a|
  {
  }

  lemma {:induction false} DistDiagonalZero(a: string, b: string, i: nat)
    requires i <= |a| && i <= |b| && a[..i] == b[..i]
    ensures Dist(a, b, i, i) == 0
  {
    if i > 0 {
      assert a[i - 1] == a[..i][i - 1] == b[..i][i - 1] == b[i - 1];
      assert a[..i - 1] == a[..i][..i - 1] && b[..i - 1] == b[..i][..i - 1];
      DistDiagonalZero(a, b, i - 1);
    }
  }

  lemma {:induction false} DistZeroMeansEqualPrefixes(a: string, b: string, i: nat, j: nat)
    requires i <= |a| && j <= |b| && Dist(a, b, i, j) == 0
    ensures i == j && a[..i] == b[..j]
    decreases i + j
  {
    DistBounds(a, b, i, j);
    if i > 0 && j > 0 {
      // Only the diagonal step can contribute 0.
      DistZeroMeansEqualPrefixes(a, b, i - 1, j - 1);
      assert a[..i] == a[..i - 1] + [a[i - 1]];
      assert b[..j] == b[..j - 1] + [b[j - 1]];
    }
  }

  /** Identity of indiscernibles: the corner of the table is 0 exactly for
      equal strings. */
  lemma CornerZeroIff(a: string, b: string)
    ensures Dist(a, b, |a|, |b|) == 0 <==> a == b
  {
    if a == b {
      DistDiagonalZero(a, b, |a|);
    }
    if Dist(a, b, |a|, |b|) == 0 {
      DistZeroMeansEqualPrefixes(a, b, |a|, |b|);
      assert a == a[..|a|] && b == b[..|b|];
    }
  }

  lemma {:induction false} DistSymmetric(a: string, b: string, i: nat, j: nat)
    requires i <= |a| && j <= |b|
    ensures Dist(a, b, i, j) == Dist(b, a, j, i)
    decreases i + j
  {
    if i > 0 && j > 0 {
      var i0, j0 := i - 1, j - 1;
      DistSymmetric(a, b, i0, j);
      DistSymmetric(a, b, i, j0);
      DistSymmetric(a, b, i0, j0);
      Min3Swap(Dist(a, b, i0, j) + 1, Dist(a, b, i, j0) + 1, Dist(a, b, i0, j0) + if a[i0] == b[j0] then 0 else 1);
    }
  }

  lemma Min3Swap(x: nat, y: nat, z: nat)
    ensures Min3(x, y, z) == Min3(y, x, z)
  {
  }

  /** Symmetry: transforming a into b costs as much as b into a. */
  lemma LevSymmetric(a: string, b: string)
    ensures Lev(a, b) == Lev(b, a)
  {
    DistSymmetric(a, b, |a|, |b|);
  }

  /** Moving down one row costs at most one more (a deletion). */
  lemma DistDownStep(a: string, b: string, i: nat, j: nat)
    requires i < |a| && j <= |b|
    ensures Dist(a, b, i + 1, j) <= Dist(a, b, i, j) + 1
  {
  }

  /** Deleting a suffix costs its length: Lev(s + p, s) == |p|. */
  lemma LevStripSuffix(s: string, p: string)
    ensures Lev(s + p, s) == |p|
  {
    var a := s + p;
    assert a[..|s|] == s[..|s|];
    DistDiagonalZero(a, s, |s|);
    DistRowsBelow(a, s, |s|, |p|);
  }

  lemma {:induction false} DistRowsBelow(a: string, b: string, i: nat, k: nat)
    requires i + k <= |a| && |b| <= |a|
    ensures Dist(a, b, i + k, |b|) <= Dist(a, b, i, |b|) + k
  {
    if k > 0 {
      DistRowsBelow(a, b, i, k - 1);
      DistDownStep(a, b, i + k - 1, |b|);
    }
  }

  /** Deleting a prefix costs its length: Lev(p + s, s) == |p|. */
  lemma LevStripPrefix(p: string, s: string)
    ensures Lev(p + s, s) == |p|
  {
    var a := p + s;
    assert a[|p|..|p| + |s|] == s == s[0..|s|];
    DistDiagonalRun(a, s, |p|, 0, |s|);
  }

  /** Inserting one character anywhere costs exactly one edit. */
  lemma LevInsertOne(p: string, c: char, s: string)
    ensures Lev(p + [c] + s, p + s) == 1
  {
    var a, b := p + [c] + s, p + s;
    var n := |p|;
    assert a[..n] == p == b[..n];
    DistDiagonalZero(a, b, n);
    DistDownStep(a, b, n, n);
    assert a[n + 1..n + 1 + |s|] == s == b[n..n + |s|];
    DistDiagonalRun(a, b, n + 1, n, |s|);
    assert Lev(a, b) <= 1;
    assert |a| != |b|;
  }

  /** Walking down the diagonal over matching characters changes nothing. */
  lemma {:induction false} DistDiagonalRun(a: string, b: string, i: nat, j: nat, k: nat)
    requires i + k <= |a| && j + k <= |b|
    requires a[i..i + k] == b[j..j + k]
    ensures Dist(a, b, i + k, j + k) == Dist(a, b, i, j)
  {
    if k > 0 {
      var k0 := k - 1;
      assert a[i..i + k0] == a[i..i + k][..k0] == b[j..j + k][..k0] == b[j..j + k0];
      assert a[i + k0] == a[i..i + k][k0] == b[j..j + k][k0] == b[j + k0];
      DistDiagonalRun(a, b, i, j, k0);
      DistMatch(a, b, i + k0, j + k0);
    }
  }

  /** A common last character costs nothing: the diagonal is the minimum. */
  lemma DistMatch(a: string, b: string, i: nat, j: nat)
    requires i < |a| && j < |b| && a[i] == b[j]
    ensures Dist(a, b, i + 1, j + 1) == Dist(a, b, i, j)
  {
    DistRightStep(a, b, i, j);
    DistSymmetric(a, b, i, j);
    DistSymmetric(a, b, i + 1, j);
    DistRightStep(b, a, j, i);
  }

  /** Dropping the last character of b's prefix costs at most one. */
  lemma {:induction false} DistRightStep(a: string, b: string, i: nat, j: nat)
    requires i <= |a| && j < |b|
    ensures Dist(a, b, i, j) <= Dist(a, b, i, j + 1) + 1
  {
    if i > 0 {
      var i0 := i - 1;
      DistRightStep(a, b, i0, j);
      DistDownStep(a, b, i0, j);
    }
  }

  /** A common suffix does not change the distance: the whole table's corner
      equals the cell where the suffix starts. */
  lemma LevCommonSuffix(a: string, b: string, i: nat, j: nat)
    requires i <= |a| && j <= |b| && a[i..] == b[j..]
    ensures Lev(a, b) == Dist(a, b, i, j)
  {
    var k := |a| - i;
    assert a[i..i + k] == a[i..] && b[j..j + k] == b[j..];
    DistDiagonalRun(a, b, i, j, k);
  }

  /** Number of positions below i at which s holds a character of cs. */
  function Count(s: string, cs: set<char>, i: nat): nat
    requires i <= |s|
  {
    if i == 0 then 0 else Count(s, cs, i - 1) + if s[i - 1] in cs then 1 else 0
  }

  /** Every edit changes how many characters of cs a string holds by at most
      one, so the gap in those counts bounds each cell from below. */
  lemma {:induction false} DistAtLeastCountGap(a: string, b: string, cs: set<char>, i: nat, j: nat)
    requires i <= |a| && j <= |b|
    ensures Count(a, cs, i) <= Dist(a, b, i, j) + Count(b, cs, j)
    ensures Count(b, cs, j) <= Dist(a, b, i, j) + Count(a, cs, i)
    decreases i + j
  {
    if i == 0 {
      CountAtMost(b, cs, j);
    } else if j == 0 {
      CountAtMost(a, cs, i);
    } else {
      var i0, j0 := i - 1, j - 1;
      DistAtLeastCountGap(a, b, cs, i0, j);
      DistAtLeastCountGap(a, b, cs, i, j0);
      DistAtLeastCountGap(a, b, cs, i0, j0);
    }
  }

  lemma {:induction false} CountAtMost(s: string, cs: set<char>, i: nat)
    requires i <= |s|
    ensures Count(s, cs, i) <= i
  {
    if i > 0 {
      CountAtMost(s, cs, i - 1);
    }
  }

  /** The count lower bound on whole strings, in both directions. */
  lemma LevAtLeastCountGap(a: string, b: string, cs: set<char>)
    ensures Count(a, cs, |a|) <= Lev(a, b) + Count(b, cs, |b|)
    ensures Count(b, cs, |b|) <= Lev(a, b) + Count(a, cs, |a|)
  {
    DistAtLeastCountGap(a, b, cs, |a|, |b|);
  }

  /** If every cell of row i is at least m, so is every cell of row i + 1. */
  lemma {:induction false} NextRowAtLeast(a: string, b: string, i: nat, m: nat, j: nat)
    requires i < |a| && j <= |b|
    requires forall k :: 0 <= k <= |b| ==> m <= Dist(a, b, i, k)
    ensures m <= Dist(a, b, i + 1, j)
  {
    if j > 0 {
      NextRowAtLeast(a, b, i, m, j - 1);
    }
  }

  /** Rows never get cheaper going down: once a whole row exceeds a bound, the
      final distance exceeds it too. This is what justifies stopping early. */
  lemma {:induction false} RowMinimumBoundsLev(a: string, b: string, i: nat, m: nat)
    requires i <= |a|
    requires forall k :: 0 <= k <= |b| ==> m <= Dist(a, b, i, k)
    ensures m <= Lev(a, b)
    decreases |a| - i
  {
    if i < |a| {
      var next := i + 1;
      forall k | 0 <= k <= |b|
        ensures m <= Dist(a, b, next, k)
      {
        NextRowAtLeast(a, b, i, m, k);
      }
      RowMinimumBoundsLev(a, b, next, m);
    }
  }
}
