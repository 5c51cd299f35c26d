/**
  The two distance computations the engine exposes: the reference
  Wagner-Fischer table, and the banded, early-exit computation used to decide
  whether a token is within the maximum distance of the pattern.
 */
module DistanceEngine {
  import opened Levenshtein
  import opened Outcomes

  /** Reference algorithm: fill the whole (|a| + 1) x (|b| + 1) table, first
      column 0 and row 0, then the interior row by row. */
  method WagnerFischer(a: string, b: string) returns (distance: nat)
    ensures distance == Lev(a, b)
  {
    var table := new nat[|a| + 1, |b| + 1];
    for i := 0 to |a| + 1
      invariant forall ii {:trigger table[ii, 0]} :: 0 <= ii < i ==> table[ii, 0] == Dist(a, b, ii, 0)
    {
      table[i, 0] := i;
    }
    for j := 1 to |b| + 1
      invariant forall ii {:trigger table[ii, 0]} :: 0 <= ii <= |a| ==> table[ii, 0] == Dist(a, b, ii, 0)
      invariant forall jj {:trigger table[0, jj]} :: 0 <= jj < j ==> table[0, jj] == Dist(a, b, 0, jj)
    {
      table[0, j] := j;
    }
    for i := 1 to |a| + 1
      invariant forall ii, jj {:trigger table[ii, jj]} :: 0 <= ii < i && 0 <= jj <= |b| ==> table[ii, jj] == Dist(a, b, ii, jj)
      invariant forall ii {:trigger table[ii, 0]} :: 0 <= ii <= |a| ==> table[ii, 0] == Dist(a, b, ii, 0)
    {
      FillRow(a, b, table, i);
    }
    distance := table[|a|, |b|];
  }

  /** Fills the interior of row i of the table from row i - 1 and column 0. */
  method FillRow(a: string, b: string, table: array2<nat>, i: nat)
    requires table.Length0 == |a| + 1 && table.Length1 == |b| + 1 && 0 < i <= |a|
    requires forall ii, jj {:trigger table[ii, jj]} :: 0 <= ii < i && 0 <= jj <= |b| ==> table[ii, jj] == Dist(a, b, ii, jj)
    requires table[i, 0] == Dist(a, b, i, 0)
    modifies table
    ensures forall jj {:trigger table[i, jj]} :: 0 <= jj <= |b| ==> table[i, jj] == Dist(a, b, i, jj)
    ensures forall ii, jj {:trigger table[ii, jj]} :: 0 <= ii <= |a| && ii != i && 0 <= jj <= |b| ==> table[ii, jj] == old(table[ii, jj])
  {
    for j := 1 to |b| + 1
      invariant forall jj {:trigger table[i, jj]} :: 0 <= jj < j ==> table[i, jj] == Dist(a, b, i, jj)
      invariant forall ii, jj {:trigger table[ii, jj]} :: 0 <= ii <= |a| && ii != i && 0 <= jj <= |b| ==> table[ii, jj] == old(table[ii, jj])
    {
      var up, left, diag := table[i - 1, j], table[i, j - 1], table[i - 1, j - 1];
      var cost := if a[i - 1] == b[j - 1] then 0 else 1;
      DistStep(a, b, i, j, up, left, diag);
      table[i, j] := Min3(up + 1, left + 1, diag + cost);
    }
  }

  /** A value clamped to the bound: anything above d reads as d + 1. */
  function Cap(x: nat, d: nat): nat {
    if x <= d then x else d + 1
  }

  /** Cell (i, j) of the banded table: cells further than d from the diagonal
      are never evaluated and read as d + 1, every other cell holds the true
      cell capped at d + 1. */
  function BandCell(a: string, b: string, d: nat, i: nat, j: nat): nat
    requires i <= |a| && j <= |b|
  {
    if i > j + d || j > i + d then d + 1 else Cap(Dist(a, b, i, j), d)
  }

  /** Off the band the true distance already exceeds d, so leaving those cells
      out loses nothing: every banded cell is the true cell, capped. */
  lemma BandCellIsCappedDist(a: string, b: string, d: nat, i: nat, j: nat)
    requires i <= |a| && j <= |b|
    ensures BandCell(a, b, d, i, j) == Cap(Dist(a, b, i, j), d)
  {
    DistBounds(a, b, i, j);
  }

  /** An evaluated cell of the banded table from the three cells it reads,
      whether or not those lie on the band. */
  lemma BandStep(a: string, b: string, d: nat, i: nat, j: nat, up: nat, left: nat, diag: nat)
    requires 0 < i <= |a| && 0 < j <= |b| && i <= j + d && j <= i + d
    requires up == BandCell(a, b, d, i - 1, j) && left == BandCell(a, b, d, i, j - 1)
    requires diag == BandCell(a, b, d, i - 1, j - 1)
    ensures BandCell(a, b, d, i, j) == Cap(Min3(up + 1, left + 1, diag + if a[i - 1] == b[j - 1] then 0 else 1), d)
  {
    BandCellIsCappedDist(a, b, d, i - 1, j);
    BandCellIsCappedDist(a, b, d, i, j - 1);
    BandCellIsCappedDist(a, b, d, i - 1, j - 1);
    BandCellIsCappedDist(a, b, d, i, j);
    CappedStep(a, b, d, i, j, up, left, diag);
  }

  /** The recurrence still holds once every cell is capped: a capped cell
      follows from the three capped cells it reads. */
  lemma CappedStep(a: string, b: string, d: nat, i: nat, j: nat, up: nat, left: nat, diag: nat)
    requires 0 < i <= |a| && 0 < j <= |b|
    requires up == Cap(Dist(a, b, i - 1, j), d) && left == Cap(Dist(a, b, i, j - 1), d)
    requires diag == Cap(Dist(a, b, i - 1, j - 1), d)
    ensures Cap(Dist(a, b, i, j), d) == Cap(Min3(up + 1, left + 1, diag + if a[i - 1] == b[j - 1] then 0 else 1), d)
  {
    var i0, j0 := i - 1, j - 1;
    CapMin3(Dist(a, b, i0, j), Dist(a, b, i, j0), Dist(a, b, i0, j0), if a[i0] == b[j0] then 0 else 1, d);
  }

  /** Capping the three candidates before taking the minimum changes nothing
      once the minimum itself is capped. */
  lemma CapMin3(x: nat, y: nat, z: nat, c: nat, d: nat)
    ensures Cap(Min3(x + 1, y + 1, z + c), d)
         == Cap(Min3(Cap(x, d) + 1, Cap(y, d) + 1, Cap(z, d) + c), d)
  {
  }

  /** Bounded distance with two rolling rows: only the cells of the band are
      evaluated, and the scan stops as soon as a whole row exceeds d. Returns
      the exact distance when it is at most d, and None (the EXCEEDS marker)
      otherwise. */
  method BoundedDistance(a: string, b: string, d: nat) returns (r: Option<nat>)
    ensures r == if Lev(a, b) <= d then Some(Lev(a, b)) else None
  {
    var n := |b|;
    var prev := new nat[n + 1](k => if k <= d then k else d + 1);
    var cur := new nat[n + 1](k => d + 1);
    var i := 0;
    while i < |a|
      invariant 0 <= i <= |a|
      invariant fresh(prev) && fresh(cur)
      invariant prev.Length == n + 1 && cur.Length == n + 1 && prev != cur
      invariant forall k {:trigger prev[k]} :: 0 <= k <= n ==> prev[k] == BandCell(a, b, d, i, k)
      // cur still holds the row above prev, which is d + 1 outside its band
      invariant forall k :: 0 <= k <= n && (k + d + 1 < i || i + d <= k) ==> cur[k] == d + 1
    {
      var alive := NextBandRow(a, b, d, i + 1, prev, cur);
      if !alive {
        var row := i + 1;
        forall k | 0 <= k <= n
          ensures d + 1 <= Dist(a, b, row, k)
        {
          assert cur[k] == BandCell(a, b, d, row, k) > d;
          BandCellIsCappedDist(a, b, d, row, k);
        }
        RowMinimumBoundsLev(a, b, row, d + 1);
        return None;
      }
      prev, cur := cur, prev;
      i := i + 1;
    }
    BandCellIsCappedDist(a, b, d, |a|, n);
    var v := prev[n];
    if v <= d {
      r := Some(v);
    } else {
      r := None;
    }
  }

  /** Computes row `row` of the banded table into cur from row - 1 in prev,
      evaluating only the cells of the band. Reports whether any cell of the
      new row is within d. */
  method NextBandRow(a: string, b: string, d: nat, row: nat, prev: array<nat>, cur: array<nat>)
    returns (alive: bool)
    requires 0 < row <= |a| && prev.Length == |b| + 1 && cur.Length == |b| + 1 && prev != cur
    requires forall k {:trigger prev[k]} :: 0 <= k <= |b| ==> prev[k] == BandCell(a, b, d, row - 1, k)
    requires forall k :: 0 <= k <= |b| && (k + d + 2 < row || row + d <= k + 1) ==> cur[k] == d + 1
    modifies cur
    ensures forall k {:trigger cur[k]} :: 0 <= k <= |b| ==> cur[k] == BandCell(a, b, d, row, k)
    ensures alive <==> exists k :: 0 <= k <= |b| && cur[k] <= d
  {
    var n := |b|;
    var lo := if row <= d then 0 else if row - d <= n + 1 then row - d else n + 1;
    var hi := if row + d < n then row + d else n;
    // The two cells that left the band since cur last held a row.
    if lo >= 1 { cur[lo - 1] := d + 1; }
    if lo >= 2 { cur[lo - 2] := d + 1; }
    alive := FillBand(a, b, d, row, lo, hi, prev, cur);
  }

  /** Evaluates the cells lo..hi of row `row`, left to right. */
  method FillBand(a: string, b: string, d: nat, row: nat, lo: nat, hi: nat, prev: array<nat>, cur: array<nat>)
    returns (alive: bool)
    requires 0 < row <= |a| && prev.Length == |b| + 1 && cur.Length == |b| + 1 && prev != cur
    requires lo <= hi + 1 && hi <= |b| && (lo <= hi ==> row <= lo + d) && row + d >= hi
    requires forall k {:trigger prev[k]} :: 0 <= k <= |b| ==> prev[k] == BandCell(a, b, d, row - 1, k)
    requires forall m {:trigger cur[m]} :: 0 <= m < lo ==> cur[m] == BandCell(a, b, d, row, m)
    modifies cur
    ensures forall m {:trigger cur[m]} :: 0 <= m <= hi ==> cur[m] == BandCell(a, b, d, row, m)
    ensures forall m {:trigger cur[m]} :: hi < m <= |b| ==> cur[m] == old(cur[m])
    ensures alive <==> exists m :: lo <= m <= hi && cur[m] <= d
  {
    alive := false;
    ghost var found := lo;
    var j := lo;
    while j <= hi
      invariant lo <= j <= hi + 1
      invariant forall m {:trigger cur[m]} :: 0 <= m < j ==> cur[m] == BandCell(a, b, d, row, m)
      invariant forall m {:trigger cur[m]} :: hi < m <= |b| ==> cur[m] == old(cur[m])
      invariant alive ==> lo <= found < j && cur[found] <= d
      invariant !alive ==> forall m :: lo <= m < j ==> cur[m] > d
    {
      var v: nat;
      if j == 0 {
        v := row;
      } else {
        var up, left, diag := prev[j], cur[j - 1], prev[j - 1];
        var cost := if a[row - 1] == b[j - 1] then 0 else 1;
        BandStep(a, b, d, row, j, up, left, diag);
        v := Cap(Min3(up + 1, left + 1, diag + cost), d);
      }
      cur[j] := v;
      if !alive && v <= d {
        found := j;
      }
      alive := alive || v <= d;
      j := j + 1;
    }
  }
}
