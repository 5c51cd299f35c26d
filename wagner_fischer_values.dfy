/**
  The distances the Wagner-Fischer computation is expected to return. Each is
  a fact about Lev, so through WagnerFischer's contract each is also what
  the method returns, with no corpus involved.
 */
module WagnerFischerValues {
  import opened Levenshtein

  /** Deleting every character: "a" and "abc" are 1 and 3 from "". */
  lemma ToEmpty(a: string, b: string)
    requires a == "a" && b == "abc"
    ensures Lev(a, "") == 1 && Lev(b, "") == 3
  {
    LevToEmpty(a);
    LevToEmpty(b);
  }

  /** One deletion at the front. */
  lemma IslanderVsSlander(a: string, b: string)
    requires a == "islander" && b == "slander"
    ensures Lev(a, b) == 1
  {
    assert a == "i" + b;
    LevStripPrefix("i", b);
  }

  /** Deleting a four-character prefix, and a four-character suffix. */
  lemma FootballVsBallAndFoot(a: string, b: string, c: string)
    requires a == "football" && b == "ball" && c == "foot"
    ensures Lev(a, b) == 4 && Lev(a, c) == 4
  {
    assert a == c + b;
    LevStripPrefix(c, b);
    LevStripSuffix(c, b);
  }

  /** Three edits between "mart" and "karma". */
  lemma MartVsKarma(a: string, b: string)
    requires a == "mart" && b == "karma"
    ensures Lev(a, b) == 3
  {
    assert a[0] == 'm' && a[1] == 'a' && a[2] == 'r' && a[3] == 't';
    assert b[0] == 'k' && b[1] == 'a' && b[2] == 'r' && b[3] == 'm' && b[4] == 'a';
    MartVsKarmaTable(a, b);
  }

  /** The table for "mart" against "karma", cell by cell, from the characters alone. */
  lemma MartVsKarmaTable(a: string, b: string)
    requires |a| == 4 && |b| == 5
    requires a[0] == 'm' && a[1] == 'a' && a[2] == 'r' && a[3] == 't'
    requires b[0] == 'k' && b[1] == 'a' && b[2] == 'r' && b[3] == 'm' && b[4] == 'a'
    ensures Lev(a, b) == 3
  {
    assert Dist(a, b, 1, 1) == 1;
    assert Dist(a, b, 1, 2) == 2;
    assert Dist(a, b, 1, 3) == 3;
    assert Dist(a, b, 1, 4) == 3;
    assert Dist(a, b, 1, 5) == 4;
    assert Dist(a, b, 2, 1) == 2;
    assert Dist(a, b, 2, 2) == 1;
    assert Dist(a, b, 2, 3) == 2;
    assert Dist(a, b, 2, 4) == 3;
    assert Dist(a, b, 2, 5) == 3;
    assert Dist(a, b, 3, 1) == 3;
    assert Dist(a, b, 3, 2) == 2;
    assert Dist(a, b, 3, 3) == 1;
    assert Dist(a, b, 3, 4) == 2;
    assert Dist(a, b, 3, 5) == 3;
    assert Dist(a, b, 4, 1) == 4;
    assert Dist(a, b, 4, 2) == 3;
    assert Dist(a, b, 4, 3) == 2;
    assert Dist(a, b, 4, 4) == 2;
    assert Dist(a, b, 4, 5) == 3;
  }

  /** Two substitutions and one deletion. */
  lemma SittingVsKitten(a: string, b: string)
    requires a == "sitting" && b == "kitten"
    ensures Lev(a, b) == 3
  {
    assert a[0] == 's' && a[1] == 'i' && a[2] == 't' && a[3] == 't' && a[4] == 'i' && a[5] == 'n' && a[6] == 'g';
    assert b[0] == 'k' && b[1] == 'i' && b[2] == 't' && b[3] == 't' && b[4] == 'e' && b[5] == 'n';
    SittingVsKittenTable(a, b);
  }

  /** The table for "sitting" against "kitten", cell by cell, from the characters alone. */
  lemma SittingVsKittenTable(a: string, b: string)
    requires |a| == 7 && |b| == 6
    requires a[0] == 's' && a[1] == 'i' && a[2] == 't' && a[3] == 't' && a[4] == 'i' && a[5] == 'n' && a[6] == 'g'
    requires b[0] == 'k' && b[1] == 'i' && b[2] == 't' && b[3] == 't' && b[4] == 'e' && b[5] == 'n'
    ensures Lev(a, b) == 3
  {
    assert Dist(a, b, 1, 1) == 1;
    assert Dist(a, b, 1, 2) == 2;
    assert Dist(a, b, 1, 3) == 3;
    assert Dist(a, b, 1, 4) == 4;
    assert Dist(a, b, 1, 5) == 5;
    assert Dist(a, b, 1, 6) == 6;
    assert Dist(a, b, 2, 1) == 2;
    assert Dist(a, b, 2, 2) == 1;
    assert Dist(a, b, 2, 3) == 2;
    assert Dist(a, b, 2, 4) == 3;
    assert Dist(a, b, 2, 5) == 4;
    assert Dist(a, b, 2, 6) == 5;
    assert Dist(a, b, 3, 1) == 3;
    assert Dist(a, b, 3, 2) == 2;
    assert Dist(a, b, 3, 3) == 1;
    assert Dist(a, b, 3, 4) == 2;
    assert Dist(a, b, 3, 5) == 3;
    assert Dist(a, b, 3, 6) == 4;
    assert Dist(a, b, 4, 1) == 4;
    assert Dist(a, b, 4, 2) == 3;
    assert Dist(a, b, 4, 3) == 2;
    assert Dist(a, b, 4, 4) == 1;
    assert Dist(a, b, 4, 5) == 2;
    assert Dist(a, b, 4, 6) == 3;
    assert Dist(a, b, 5, 1) == 5;
    assert Dist(a, b, 5, 2) == 4;
    assert Dist(a, b, 5, 3) == 3;
    assert Dist(a, b, 5, 4) == 2;
    assert Dist(a, b, 5, 5) == 2;
    assert Dist(a, b, 5, 6) == 3;
    assert Dist(a, b, 6, 1) == 6;
    assert Dist(a, b, 6, 2) == 5;
    assert Dist(a, b, 6, 3) == 4;
    assert Dist(a, b, 6, 4) == 3;
    assert Dist(a, b, 6, 5) == 3;
    assert Dist(a, b, 6, 6) == 2;
    assert Dist(a, b, 7, 1) == 7;
    assert Dist(a, b, 7, 2) == 6;
    assert Dist(a, b, 7, 3) == 5;
    assert Dist(a, b, 7, 4) == 4;
    assert Dist(a, b, 7, 5) == 4;
    assert Dist(a, b, 7, 6) == 3;
  }

  /** Five edits, all of them in front of the common suffix "tion". */
  lemma IntentionVsExecution(a: string, b: string)
    requires a == "intention" && b == "execution"
    ensures Lev(a, b) == 5
  {
    assert a[0] == 'i' && a[1] == 'n' && a[2] == 't' && a[3] == 'e' && a[4] == 'n' && a[5] == 't' && a[6] == 'i' && a[7] == 'o' && a[8] == 'n';
    assert b[0] == 'e' && b[1] == 'x' && b[2] == 'e' && b[3] == 'c' && b[4] == 'u' && b[5] == 't' && b[6] == 'i' && b[7] == 'o' && b[8] == 'n';
    assert a[5..] == "tion" == b[5..];
    LevCommonSuffix(a, b, 5, 5);
    IntentionVsExecutionCorner(a, b);
  }

  /** The table for "inten" against "execu", cell by cell, from the characters alone. */
  lemma IntentionVsExecutionCorner(a: string, b: string)
    requires 5 <= |a| && 5 <= |b|
    requires a[0] == 'i' && a[1] == 'n' && a[2] == 't' && a[3] == 'e' && a[4] == 'n'
    requires b[0] == 'e' && b[1] == 'x' && b[2] == 'e' && b[3] == 'c' && b[4] == 'u'
    ensures Dist(a, b, 5, 5) == 5
  {
    assert Dist(a, b, 1, 1) == 1;
    assert Dist(a, b, 1, 2) == 2;
    assert Dist(a, b, 1, 3) == 3;
    assert Dist(a, b, 1, 4) == 4;
    assert Dist(a, b, 1, 5) == 5;
    assert Dist(a, b, 2, 1) == 2;
    assert Dist(a, b, 2, 2) == 2;
    assert Dist(a, b, 2, 3) == 3;
    assert Dist(a, b, 2, 4) == 4;
    assert Dist(a, b, 2, 5) == 5;
    assert Dist(a, b, 3, 1) == 3;
    assert Dist(a, b, 3, 2) == 3;
    assert Dist(a, b, 3, 3) == 3;
    assert Dist(a, b, 3, 4) == 4;
    assert Dist(a, b, 3, 5) == 5;
    assert Dist(a, b, 4, 1) == 3;
    assert Dist(a, b, 4, 2) == 4;
    assert Dist(a, b, 4, 3) == 3;
    assert Dist(a, b, 4, 4) == 4;
    assert Dist(a, b, 4, 5) == 5;
    assert Dist(a, b, 5, 1) == 4;
    assert Dist(a, b, 5, 2) == 4;
    assert Dist(a, b, 5, 3) == 4;
    assert Dist(a, b, 5, 4) == 4;
    assert Dist(a, b, 5, 5) == 5;
  }
}
