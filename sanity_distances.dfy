/**
  Distances behind the expected lookups over the eleven-line corpus. A field
  is kept out of a result by a lower bound on its distance to the pattern:
  each edit changes by at most one how many characters of a chosen set a
  string holds. The three distances no such count settles are computed
  cell by cell.
 */
module SanityDistances {
  import opened Levenshtein

  /** "firstline" holds 2 more of the characters {'i', 's'} than "forthline". */
  lemma FirstlineVsForthline(t: string, p: string)
    requires t == "firstline" && p == "forthline"
    ensures 2 <= Lev(t, p)
  {
    var cs := {'i', 's'};
    assert t[0] == 'f' && t[1] == 'i' && t[2] == 'r' && t[3] == 's' && t[4] == 't' && t[5] == 'l' && t[6] == 'i' && t[7] == 'n' && t[8] == 'e';
    assert Count(t, cs, 1) == 0;
    assert Count(t, cs, 2) == 1;
    assert Count(t, cs, 3) == 1;
    assert Count(t, cs, 4) == 2;
    assert Count(t, cs, 5) == 2;
    assert Count(t, cs, 6) == 2;
    assert Count(t, cs, 7) == 3;
    assert Count(t, cs, 8) == 3;
    assert Count(t, cs, 9) == 3;
    assert p[0] == 'f' && p[1] == 'o' && p[2] == 'r' && p[3] == 't' && p[4] == 'h' && p[5] == 'l' && p[6] == 'i' && p[7] == 'n' && p[8] == 'e';
    assert Count(p, cs, 1) == 0;
    assert Count(p, cs, 2) == 0;
    assert Count(p, cs, 3) == 0;
    assert Count(p, cs, 4) == 0;
    assert Count(p, cs, 5) == 0;
    assert Count(p, cs, 6) == 0;
    assert Count(p, cs, 7) == 1;
    assert Count(p, cs, 8) == 1;
    assert Count(p, cs, 9) == 1;
    LevAtLeastCountGap(t, p, cs);
  }

  /** "secondline" holds 5 more of the characters {'c', 'd', 'e', 'n', 's'} than "forthline". */
  lemma SecondlineVsForthline(t: string, p: string)
    requires t == "secondline" && p == "forthline"
    ensures 2 <= Lev(t, p)
  {
    var cs := {'c', 'd', 'e', 'n', 's'};
    assert t[0] == 's' && t[1] == 'e' && t[2] == 'c' && t[3] == 'o' && t[4] == 'n' && t[5] == 'd' && t[6] == 'l' && t[7] == 'i' && t[8] == 'n' && t[9] == 'e';
    assert Count(t, cs, 1) == 1;
    assert Count(t, cs, 2) == 2;
    assert Count(t, cs, 3) == 3;
    assert Count(t, cs, 4) == 3;
    assert Count(t, cs, 5) == 4;
    assert Count(t, cs, 6) == 5;
    assert Count(t, cs, 7) == 5;
    assert Count(t, cs, 8) == 5;
    assert Count(t, cs, 9) == 6;
    assert Count(t, cs, 10) == 7;
    assert p[0] == 'f' && p[1] == 'o' && p[2] == 'r' && p[3] == 't' && p[4] == 'h' && p[5] == 'l' && p[6] == 'i' && p[7] == 'n' && p[8] == 'e';
    assert Count(p, cs, 1) == 0;
    assert Count(p, cs, 2) == 0;
    assert Count(p, cs, 3) == 0;
    assert Count(p, cs, 4) == 0;
    assert Count(p, cs, 5) == 0;
    assert Count(p, cs, 6) == 0;
    assert Count(p, cs, 7) == 0;
    assert Count(p, cs, 8) == 1;
    assert Count(p, cs, 9) == 2;
    LevAtLeastCountGap(t, p, cs);
  }

  /** "thirdline" holds 2 more of the characters {'d', 'i'} than "forthline". */
  lemma ThirdlineVsForthline(t: string, p: string)
    requires t == "thirdline" && p == "forthline"
    ensures 2 <= Lev(t, p)
  {
    var cs := {'d', 'i'};
    assert t[0] == 't' && t[1] == 'h' && t[2] == 'i' && t[3] == 'r' && t[4] == 'd' && t[5] == 'l' && t[6] == 'i' && t[7] == 'n' && t[8] == 'e';
    assert Count(t, cs, 1) == 0;
    assert Count(t, cs, 2) == 0;
    assert Count(t, cs, 3) == 1;
    assert Count(t, cs, 4) == 1;
    assert Count(t, cs, 5) == 2;
    assert Count(t, cs, 6) == 2;
    assert Count(t, cs, 7) == 3;
    assert Count(t, cs, 8) == 3;
    assert Count(t, cs, 9) == 3;
    assert p[0] == 'f' && p[1] == 'o' && p[2] == 'r' && p[3] == 't' && p[4] == 'h' && p[5] == 'l' && p[6] == 'i' && p[7] == 'n' && p[8] == 'e';
    assert Count(p, cs, 1) == 0;
    assert Count(p, cs, 2) == 0;
    assert Count(p, cs, 3) == 0;
    assert Count(p, cs, 4) == 0;
    assert Count(p, cs, 5) == 0;
    assert Count(p, cs, 6) == 0;
    assert Count(p, cs, 7) == 1;
    assert Count(p, cs, 8) == 1;
    assert Count(p, cs, 9) == 1;
    LevAtLeastCountGap(t, p, cs);
  }

  /** "fifthline" holds 2 more of the characters {'f', 'i'} than "forthline". */
  lemma FifthlineVsForthline(t: string, p: string)
    requires t == "fifthline" && p == "forthline"
    ensures 2 <= Lev(t, p)
  {
    var cs := {'f', 'i'};
    assert t[0] == 'f' && t[1] == 'i' && t[2] == 'f' && t[3] == 't' && t[4] == 'h' && t[5] == 'l' && t[6] == 'i' && t[7] == 'n' && t[8] == 'e';
    assert Count(t, cs, 1) == 1;
    assert Count(t, cs, 2) == 2;
    assert Count(t, cs, 3) == 3;
    assert Count(t, cs, 4) == 3;
    assert Count(t, cs, 5) == 3;
    assert Count(t, cs, 6) == 3;
    assert Count(t, cs, 7) == 4;
    assert Count(t, cs, 8) == 4;
    assert Count(t, cs, 9) == 4;
    assert p[0] == 'f' && p[1] == 'o' && p[2] == 'r' && p[3] == 't' && p[4] == 'h' && p[5] == 'l' && p[6] == 'i' && p[7] == 'n' && p[8] == 'e';
    assert Count(p, cs, 1) == 1;
    assert Count(p, cs, 2) == 1;
    assert Count(p, cs, 3) == 1;
    assert Count(p, cs, 4) == 1;
    assert Count(p, cs, 5) == 1;
    assert Count(p, cs, 6) == 1;
    assert Count(p, cs, 7) == 2;
    assert Count(p, cs, 8) == 2;
    assert Count(p, cs, 9) == 2;
    LevAtLeastCountGap(t, p, cs);
  }

  /** "first.line" holds 3 more of the characters {'.', 'i', 's'} than "forthline". */
  lemma FirstDotLineVsForthline(t: string, p: string)
    requires t == "first.line" && p == "forthline"
    ensures 2 <= Lev(t, p)
  {
    var cs := {'.', 'i', 's'};
    assert t[0] == 'f' && t[1] == 'i' && t[2] == 'r' && t[3] == 's' && t[4] == 't' && t[5] == '.' && t[6] == 'l' && t[7] == 'i' && t[8] == 'n' && t[9] == 'e';
    assert Count(t, cs, 1) == 0;
    assert Count(t, cs, 2) == 1;
    assert Count(t, cs, 3) == 1;
    assert Count(t, cs, 4) == 2;
    assert Count(t, cs, 5) == 2;
    assert Count(t, cs, 6) == 3;
    assert Count(t, cs, 7) == 3;
    assert Count(t, cs, 8) == 4;
    assert Count(t, cs, 9) == 4;
    assert Count(t, cs, 10) == 4;
    assert p[0] == 'f' && p[1] == 'o' && p[2] == 'r' && p[3] == 't' && p[4] == 'h' && p[5] == 'l' && p[6] == 'i' && p[7] == 'n' && p[8] == 'e';
    assert Count(p, cs, 1) == 0;
    assert Count(p, cs, 2) == 0;
    assert Count(p, cs, 3) == 0;
    assert Count(p, cs, 4) == 0;
    assert Count(p, cs, 5) == 0;
    assert Count(p, cs, 6) == 0;
    assert Count(p, cs, 7) == 1;
    assert Count(p, cs, 8) == 1;
    assert Count(p, cs, 9) == 1;
    LevAtLeastCountGap(t, p, cs);
  }

  /** "third.line" holds 3 more of the characters {'.', 'd', 'i'} than "forthline". */
  lemma ThirdDotLineVsForthline(t: string, p: string)
    requires t == "third.line" && p == "forthline"
    ensures 2 <= Lev(t, p)
  {
    var cs := {'.', 'd', 'i'};
    assert t[0] == 't' && t[1] == 'h' && t[2] == 'i' && t[3] == 'r' && t[4] == 'd' && t[5] == '.' && t[6] == 'l' && t[7] == 'i' && t[8] == 'n' && t[9] == 'e';
    assert Count(t, cs, 1) == 0;
    assert Count(t, cs, 2) == 0;
    assert Count(t, cs, 3) == 1;
    assert Count(t, cs, 4) == 1;
    assert Count(t, cs, 5) == 2;
    assert Count(t, cs, 6) == 3;
    assert Count(t, cs, 7) == 3;
    assert Count(t, cs, 8) == 4;
    assert Count(t, cs, 9) == 4;
    assert Count(t, cs, 10) == 4;
    assert p[0] == 'f' && p[1] == 'o' && p[2] == 'r' && p[3] == 't' && p[4] == 'h' && p[5] == 'l' && p[6] == 'i' && p[7] == 'n' && p[8] == 'e';
    assert Count(p, cs, 1) == 0;
    assert Count(p, cs, 2) == 0;
    assert Count(p, cs, 3) == 0;
    assert Count(p, cs, 4) == 0;
    assert Count(p, cs, 5) == 0;
    assert Count(p, cs, 6) == 0;
    assert Count(p, cs, 7) == 1;
    assert Count(p, cs, 8) == 1;
    assert Count(p, cs, 9) == 1;
    LevAtLeastCountGap(t, p, cs);
  }

  /** "fifth.line" holds 3 more of the characters {'.', 'f', 'i'} than "forthline". */
  lemma FifthDotLineVsForthline(t: string, p: string)
    requires t == "fifth.line" && p == "forthline"
    ensures 2 <= Lev(t, p)
  {
    var cs := {'.', 'f', 'i'};
    assert t[0] == 'f' && t[1] == 'i' && t[2] == 'f' && t[3] == 't' && t[4] == 'h' && t[5] == '.' && t[6] == 'l' && t[7] == 'i' && t[8] == 'n' && t[9] == 'e';
    assert Count(t, cs, 1) == 1;
    assert Count(t, cs, 2) == 2;
    assert Count(t, cs, 3) == 3;
    assert Count(t, cs, 4) == 3;
    assert Count(t, cs, 5) == 3;
    assert Count(t, cs, 6) == 4;
    assert Count(t, cs, 7) == 4;
    assert Count(t, cs, 8) == 5;
    assert Count(t, cs, 9) == 5;
    assert Count(t, cs, 10) == 5;
    assert p[0] == 'f' && p[1] == 'o' && p[2] == 'r' && p[3] == 't' && p[4] == 'h' && p[5] == 'l' && p[6] == 'i' && p[7] == 'n' && p[8] == 'e';
    assert Count(p, cs, 1) == 1;
    assert Count(p, cs, 2) == 1;
    assert Count(p, cs, 3) == 1;
    assert Count(p, cs, 4) == 1;
    assert Count(p, cs, 5) == 1;
    assert Count(p, cs, 6) == 1;
    assert Count(p, cs, 7) == 2;
    assert Count(p, cs, 8) == 2;
    assert Count(p, cs, 9) == 2;
    LevAtLeastCountGap(t, p, cs);
  }

  /** "secondline" holds 5 more of the characters {'c', 'd', 'e', 'n', 'o'} than "firstline". */
  lemma SecondlineVsFirstline(t: string, p: string)
    requires t == "secondline" && p == "firstline"
    ensures 2 <= Lev(t, p)
  {
    var cs := {'c', 'd', 'e', 'n', 'o'};
    assert t[0] == 's' && t[1] == 'e' && t[2] == 'c' && t[3] == 'o' && t[4] == 'n' && t[5] == 'd' && t[6] == 'l' && t[7] == 'i' && t[8] == 'n' && t[9] == 'e';
    assert Count(t, cs, 1) == 0;
    assert Count(t, cs, 2) == 1;
    assert Count(t, cs, 3) == 2;
    assert Count(t, cs, 4) == 3;
    assert Count(t, cs, 5) == 4;
    assert Count(t, cs, 6) == 5;
    assert Count(t, cs, 7) == 5;
    assert Count(t, cs, 8) == 5;
    assert Count(t, cs, 9) == 6;
    assert Count(t, cs, 10) == 7;
    assert p[0] == 'f' && p[1] == 'i' && p[2] == 'r' && p[3] == 's' && p[4] == 't' && p[5] == 'l' && p[6] == 'i' && p[7] == 'n' && p[8] == 'e';
    assert Count(p, cs, 1) == 0;
    assert Count(p, cs, 2) == 0;
    assert Count(p, cs, 3) == 0;
    assert Count(p, cs, 4) == 0;
    assert Count(p, cs, 5) == 0;
    assert Count(p, cs, 6) == 0;
    assert Count(p, cs, 7) == 0;
    assert Count(p, cs, 8) == 1;
    assert Count(p, cs, 9) == 2;
    LevAtLeastCountGap(t, p, cs);
  }

  /** "thirdline" holds 2 more of the characters {'d', 'h'} than "firstline". */
  lemma ThirdlineVsFirstline(t: string, p: string)
    requires t == "thirdline" && p == "firstline"
    ensures 2 <= Lev(t, p)
  {
    var cs := {'d', 'h'};
    assert t[0] == 't' && t[1] == 'h' && t[2] == 'i' && t[3] == 'r' && t[4] == 'd' && t[5] == 'l' && t[6] == 'i' && t[7] == 'n' && t[8] == 'e';
    assert Count(t, cs, 1) == 0;
    assert Count(t, cs, 2) == 1;
    assert Count(t, cs, 3) == 1;
    assert Count(t, cs, 4) == 1;
    assert Count(t, cs, 5) == 2;
    assert Count(t, cs, 6) == 2;
    assert Count(t, cs, 7) == 2;
    assert Count(t, cs, 8) == 2;
    assert Count(t, cs, 9) == 2;
    assert p[0] == 'f' && p[1] == 'i' && p[2] == 'r' && p[3] == 's' && p[4] == 't' && p[5] == 'l' && p[6] == 'i' && p[7] == 'n' && p[8] == 'e';
    assert Count(p, cs, 1) == 0;
    assert Count(p, cs, 2) == 0;
    assert Count(p, cs, 3) == 0;
    assert Count(p, cs, 4) == 0;
    assert Count(p, cs, 5) == 0;
    assert Count(p, cs, 6) == 0;
    assert Count(p, cs, 7) == 0;
    assert Count(p, cs, 8) == 0;
    assert Count(p, cs, 9) == 0;
    LevAtLeastCountGap(t, p, cs);
  }

  /** "fourthline" holds 3 more of the characters {'h', 'o', 'u'} than "firstline". */
  lemma FourthlineVsFirstline(t: string, p: string)
    requires t == "fourthline" && p == "firstline"
    ensures 2 <= Lev(t, p)
  {
    var cs := {'h', 'o', 'u'};
    assert t[0] == 'f' && t[1] == 'o' && t[2] == 'u' && t[3] == 'r' && t[4] == 't' && t[5] == 'h' && t[6] == 'l' && t[7] == 'i' && t[8] == 'n' && t[9] == 'e';
    assert Count(t, cs, 1) == 0;
    assert Count(t, cs, 2) == 1;
    assert Count(t, cs, 3) == 2;
    assert Count(t, cs, 4) == 2;
    assert Count(t, cs, 5) == 2;
    assert Count(t, cs, 6) == 3;
    assert Count(t, cs, 7) == 3;
    assert Count(t, cs, 8) == 3;
    assert Count(t, cs, 9) == 3;
    assert Count(t, cs, 10) == 3;
    assert p[0] == 'f' && p[1] == 'i' && p[2] == 'r' && p[3] == 's' && p[4] == 't' && p[5] == 'l' && p[6] == 'i' && p[7] == 'n' && p[8] == 'e';
    assert Count(p, cs, 1) == 0;
    assert Count(p, cs, 2) == 0;
    assert Count(p, cs, 3) == 0;
    assert Count(p, cs, 4) == 0;
    assert Count(p, cs, 5) == 0;
    assert Count(p, cs, 6) == 0;
    assert Count(p, cs, 7) == 0;
    assert Count(p, cs, 8) == 0;
    assert Count(p, cs, 9) == 0;
    LevAtLeastCountGap(t, p, cs);
  }

  /** "fifthline" holds 2 more of the characters {'f', 'h'} than "firstline". */
  lemma FifthlineVsFirstline(t: string, p: string)
    requires t == "fifthline" && p == "firstline"
    ensures 2 <= Lev(t, p)
  {
    var cs := {'f', 'h'};
    assert t[0] == 'f' && t[1] == 'i' && t[2] == 'f' && t[3] == 't' && t[4] == 'h' && t[5] == 'l' && t[6] == 'i' && t[7] == 'n' && t[8] == 'e';
    assert Count(t, cs, 1) == 1;
    assert Count(t, cs, 2) == 1;
    assert Count(t, cs, 3) == 2;
    assert Count(t, cs, 4) == 2;
    assert Count(t, cs, 5) == 3;
    assert Count(t, cs, 6) == 3;
    assert Count(t, cs, 7) == 3;
    assert Count(t, cs, 8) == 3;
    assert Count(t, cs, 9) == 3;
    assert p[0] == 'f' && p[1] == 'i' && p[2] == 'r' && p[3] == 's' && p[4] == 't' && p[5] == 'l' && p[6] == 'i' && p[7] == 'n' && p[8] == 'e';
    assert Count(p, cs, 1) == 1;
    assert Count(p, cs, 2) == 1;
    assert Count(p, cs, 3) == 1;
    assert Count(p, cs, 4) == 1;
    assert Count(p, cs, 5) == 1;
    assert Count(p, cs, 6) == 1;
    assert Count(p, cs, 7) == 1;
    assert Count(p, cs, 8) == 1;
    assert Count(p, cs, 9) == 1;
    LevAtLeastCountGap(t, p, cs);
  }

  /** "third.line" holds 3 more of the characters {'.', 'd', 'h'} than "firstline". */
  lemma ThirdDotLineVsFirstline(t: string, p: string)
    requires t == "third.line" && p == "firstline"
    ensures 2 <= Lev(t, p)
  {
    var cs := {'.', 'd', 'h'};
    assert t[0] == 't' && t[1] == 'h' && t[2] == 'i' && t[3] == 'r' && t[4] == 'd' && t[5] == '.' && t[6] == 'l' && t[7] == 'i' && t[8] == 'n' && t[9] == 'e';
    assert Count(t, cs, 1) == 0;
    assert Count(t, cs, 2) == 1;
    assert Count(t, cs, 3) == 1;
    assert Count(t, cs, 4) == 1;
    assert Count(t, cs, 5) == 2;
    assert Count(t, cs, 6) == 3;
    assert Count(t, cs, 7) == 3;
    assert Count(t, cs, 8) == 3;
    assert Count(t, cs, 9) == 3;
    assert Count(t, cs, 10) == 3;
    assert p[0] == 'f' && p[1] == 'i' && p[2] == 'r' && p[3] == 's' && p[4] == 't' && p[5] == 'l' && p[6] == 'i' && p[7] == 'n' && p[8] == 'e';
    assert Count(p, cs, 1) == 0;
    assert Count(p, cs, 2) == 0;
    assert Count(p, cs, 3) == 0;
    assert Count(p, cs, 4) == 0;
    assert Count(p, cs, 5) == 0;
    assert Count(p, cs, 6) == 0;
    assert Count(p, cs, 7) == 0;
    assert Count(p, cs, 8) == 0;
    assert Count(p, cs, 9) == 0;
    LevAtLeastCountGap(t, p, cs);
  }

  /** "fifth.line" holds 3 more of the characters {'.', 'f', 'h'} than "firstline". */
  lemma FifthDotLineVsFirstline(t: string, p: string)
    requires t == "fifth.line" && p == "firstline"
    ensures 2 <= Lev(t, p)
  {
    var cs := {'.', 'f', 'h'};
    assert t[0] == 'f' && t[1] == 'i' && t[2] == 'f' && t[3] == 't' && t[4] == 'h' && t[5] == '.' && t[6] == 'l' && t[7] == 'i' && t[8] == 'n' && t[9] == 'e';
    assert Count(t, cs, 1) == 1;
    assert Count(t, cs, 2) == 1;
    assert Count(t, cs, 3) == 2;
    assert Count(t, cs, 4) == 2;
    assert Count(t, cs, 5) == 3;
    assert Count(t, cs, 6) == 4;
    assert Count(t, cs, 7) == 4;
    assert Count(t, cs, 8) == 4;
    assert Count(t, cs, 9) == 4;
    assert Count(t, cs, 10) == 4;
    assert p[0] == 'f' && p[1] == 'i' && p[2] == 'r' && p[3] == 's' && p[4] == 't' && p[5] == 'l' && p[6] == 'i' && p[7] == 'n' && p[8] == 'e';
    assert Count(p, cs, 1) == 1;
    assert Count(p, cs, 2) == 1;
    assert Count(p, cs, 3) == 1;
    assert Count(p, cs, 4) == 1;
    assert Count(p, cs, 5) == 1;
    assert Count(p, cs, 6) == 1;
    assert Count(p, cs, 7) == 1;
    assert Count(p, cs, 8) == 1;
    assert Count(p, cs, 9) == 1;
    LevAtLeastCountGap(t, p, cs);
  }

  /** "line" holds 3 more of the characters {'e', 'l', 'n'} than "fist". */
  lemma LineVsFist(t: string, p: string)
    requires t == "line" && p == "fist"
    ensures 2 <= Lev(t, p)
  {
    var cs := {'e', 'l', 'n'};
    assert t[0] == 'l' && t[1] == 'i' && t[2] == 'n' && t[3] == 'e';
    assert Count(t, cs, 1) == 1;
    assert Count(t, cs, 2) == 1;
    assert Count(t, cs, 3) == 2;
    assert Count(t, cs, 4) == 3;
    assert p[0] == 'f' && p[1] == 'i' && p[2] == 's' && p[3] == 't';
    assert Count(p, cs, 1) == 0;
    assert Count(p, cs, 2) == 0;
    assert Count(p, cs, 3) == 0;
    assert Count(p, cs, 4) == 0;
    LevAtLeastCountGap(t, p, cs);
  }

  /** "third" holds 3 more of the characters {'d', 'h', 'r'} than "fist". */
  lemma ThirdVsFist(t: string, p: string)
    requires t == "third" && p == "fist"
    ensures 2 <= Lev(t, p)
  {
    var cs := {'d', 'h', 'r'};
    assert t[0] == 't' && t[1] == 'h' && t[2] == 'i' && t[3] == 'r' && t[4] == 'd';
    assert Count(t, cs, 1) == 0;
    assert Count(t, cs, 2) == 1;
    assert Count(t, cs, 3) == 1;
    assert Count(t, cs, 4) == 2;
    assert Count(t, cs, 5) == 3;
    assert p[0] == 'f' && p[1] == 'i' && p[2] == 's' && p[3] == 't';
    assert Count(p, cs, 1) == 0;
    assert Count(p, cs, 2) == 0;
    assert Count(p, cs, 3) == 0;
    assert Count(p, cs, 4) == 0;
    LevAtLeastCountGap(t, p, cs);
  }

  /** "fifth" holds 2 more of the characters {'f', 'h'} than "fist". */
  lemma FifthVsFist(t: string, p: string)
    requires t == "fifth" && p == "fist"
    ensures 2 <= Lev(t, p)
  {
    var cs := {'f', 'h'};
    assert t[0] == 'f' && t[1] == 'i' && t[2] == 'f' && t[3] == 't' && t[4] == 'h';
    assert Count(t, cs, 1) == 1;
    assert Count(t, cs, 2) == 1;
    assert Count(t, cs, 3) == 2;
    assert Count(t, cs, 4) == 2;
    assert Count(t, cs, 5) == 3;
    assert p[0] == 'f' && p[1] == 'i' && p[2] == 's' && p[3] == 't';
    assert Count(p, cs, 1) == 1;
    assert Count(p, cs, 2) == 1;
    assert Count(p, cs, 3) == 1;
    assert Count(p, cs, 4) == 1;
    LevAtLeastCountGap(t, p, cs);
  }

  /** "fourth" holds 6 more of the characters {'f', 'h', 'o', 'r', 't', 'u'} than "line". */
  lemma LineVsFourth(t: string, p: string)
    requires t == "line" && p == "fourth"
    ensures 5 <= Lev(t, p)
  {
    var cs := {'f', 'h', 'o', 'r', 't', 'u'};
    assert t[0] == 'l' && t[1] == 'i' && t[2] == 'n' && t[3] == 'e';
    assert Count(t, cs, 1) == 0;
    assert Count(t, cs, 2) == 0;
    assert Count(t, cs, 3) == 0;
    assert Count(t, cs, 4) == 0;
    assert p[0] == 'f' && p[1] == 'o' && p[2] == 'u' && p[3] == 'r' && p[4] == 't' && p[5] == 'h';
    assert Count(p, cs, 1) == 1;
    assert Count(p, cs, 2) == 2;
    assert Count(p, cs, 3) == 3;
    assert Count(p, cs, 4) == 4;
    assert Count(p, cs, 5) == 5;
    assert Count(p, cs, 6) == 6;
    LevAtLeastCountGap(t, p, cs);
  }

  /** "second" holds 5 more of the characters {'c', 'd', 'e', 'n', 's'} than "fourth". */
  lemma SecondVsFourth(t: string, p: string)
    requires t == "second" && p == "fourth"
    ensures 5 <= Lev(t, p)
  {
    var cs := {'c', 'd', 'e', 'n', 's'};
    assert t[0] == 's' && t[1] == 'e' && t[2] == 'c' && t[3] == 'o' && t[4] == 'n' && t[5] == 'd';
    assert Count(t, cs, 1) == 1;
    assert Count(t, cs, 2) == 2;
    assert Count(t, cs, 3) == 3;
    assert Count(t, cs, 4) == 3;
    assert Count(t, cs, 5) == 4;
    assert Count(t, cs, 6) == 5;
    assert p[0] == 'f' && p[1] == 'o' && p[2] == 'u' && p[3] == 'r' && p[4] == 't' && p[5] == 'h';
    assert Count(p, cs, 1) == 0;
    assert Count(p, cs, 2) == 0;
    assert Count(p, cs, 3) == 0;
    assert Count(p, cs, 4) == 0;
    assert Count(p, cs, 5) == 0;
    assert Count(p, cs, 6) == 0;
    LevAtLeastCountGap(t, p, cs);
  }

  /** Four edits: within 4 of "fourth", but not within 3. */
  lemma FirstVsFourth(a: string, b: string)
    requires a == "first" && b == "fourth"
    ensures Lev(a, b) == 4
  {
    assert a[0] == 'f' && a[1] == 'i' && a[2] == 'r' && a[3] == 's' && a[4] == 't';
    assert b[0] == 'f' && b[1] == 'o' && b[2] == 'u' && b[3] == 'r' && b[4] == 't' && b[5] == 'h';
    FirstVsFourthTable(a, b);
  }

  /** The table for "first" against "fourth", cell by cell, from the characters alone. */
  lemma FirstVsFourthTable(a: string, b: string)
    requires |a| == 5 && |b| == 6
    requires a[0] == 'f' && a[1] == 'i' && a[2] == 'r' && a[3] == 's' && a[4] == 't'
    requires b[0] == 'f' && b[1] == 'o' && b[2] == 'u' && b[3] == 'r' && b[4] == 't' && b[5] == 'h'
    ensures Lev(a, b) == 4
  {
    assert Dist(a, b, 1, 1) == 0;
    assert Dist(a, b, 1, 2) == 1;
    assert Dist(a, b, 1, 3) == 2;
    assert Dist(a, b, 1, 4) == 3;
    assert Dist(a, b, 1, 5) == 4;
    assert Dist(a, b, 1, 6) == 5;
    assert Dist(a, b, 2, 1) == 1;
    assert Dist(a, b, 2, 2) == 1;
    assert Dist(a, b, 2, 3) == 2;
    assert Dist(a, b, 2, 4) == 3;
    assert Dist(a, b, 2, 5) == 4;
    assert Dist(a, b, 2, 6) == 5;
    assert Dist(a, b, 3, 1) == 2;
    assert Dist(a, b, 3, 2) == 2;
    assert Dist(a, b, 3, 3) == 2;
    assert Dist(a, b, 3, 4) == 2;
    assert Dist(a, b, 3, 5) == 3;
    assert Dist(a, b, 3, 6) == 4;
    assert Dist(a, b, 4, 1) == 3;
    assert Dist(a, b, 4, 2) == 3;
    assert Dist(a, b, 4, 3) == 3;
    assert Dist(a, b, 4, 4) == 3;
    assert Dist(a, b, 4, 5) == 3;
    assert Dist(a, b, 4, 6) == 4;
    assert Dist(a, b, 5, 1) == 4;
    assert Dist(a, b, 5, 2) == 4;
    assert Dist(a, b, 5, 3) == 4;
    assert Dist(a, b, 5, 4) == 4;
    assert Dist(a, b, 5, 5) == 3;
    assert Dist(a, b, 5, 6) == 4;
  }

  /** Five edits: not within 4 of "fourth". */
  lemma ThirdVsFourth(a: string, b: string)
    requires a == "third" && b == "fourth"
    ensures Lev(a, b) == 5
  {
    assert a[0] == 't' && a[1] == 'h' && a[2] == 'i' && a[3] == 'r' && a[4] == 'd';
    assert b[0] == 'f' && b[1] == 'o' && b[2] == 'u' && b[3] == 'r' && b[4] == 't' && b[5] == 'h';
    ThirdVsFourthTable(a, b);
  }

  /** The table for "third" against "fourth", cell by cell, from the characters alone. */
  lemma ThirdVsFourthTable(a: string, b: string)
    requires |a| == 5 && |b| == 6
    requires a[0] == 't' && a[1] == 'h' && a[2] == 'i' && a[3] == 'r' && a[4] == 'd'
    requires b[0] == 'f' && b[1] == 'o' && b[2] == 'u' && b[3] == 'r' && b[4] == 't' && b[5] == 'h'
    ensures Lev(a, b) == 5
  {
    assert Dist(a, b, 1, 1) == 1;
    assert Dist(a, b, 1, 2) == 2;
    assert Dist(a, b, 1, 3) == 3;
    assert Dist(a, b, 1, 4) == 4;
    assert Dist(a, b, 1, 5) == 4;
    assert Dist(a, b, 1, 6) == 5;
    assert Dist(a, b, 2, 1) == 2;
    assert Dist(a, b, 2, 2) == 2;
    assert Dist(a, b, 2, 3) == 3;
    assert Dist(a, b, 2, 4) == 4;
    assert Dist(a, b, 2, 5) == 5;
    assert Dist(a, b, 2, 6) == 4;
    assert Dist(a, b, 3, 1) == 3;
    assert Dist(a, b, 3, 2) == 3;
    assert Dist(a, b, 3, 3) == 3;
    assert Dist(a, b, 3, 4) == 4;
    assert Dist(a, b, 3, 5) == 5;
    assert Dist(a, b, 3, 6) == 5;
    assert Dist(a, b, 4, 1) == 4;
    assert Dist(a, b, 4, 2) == 4;
    assert Dist(a, b, 4, 3) == 4;
    assert Dist(a, b, 4, 4) == 3;
    assert Dist(a, b, 4, 5) == 4;
    assert Dist(a, b, 4, 6) == 5;
    assert Dist(a, b, 5, 1) == 5;
    assert Dist(a, b, 5, 2) == 5;
    assert Dist(a, b, 5, 3) == 5;
    assert Dist(a, b, 5, 4) == 4;
    assert Dist(a, b, 5, 5) == 4;
    assert Dist(a, b, 5, 6) == 5;
  }

  /** Three edits, in front of the common suffix "th": within 3 of "fourth". */
  lemma FifthVsFourth(a: string, b: string)
    requires a == "fifth" && b == "fourth"
    ensures Lev(a, b) == 3
  {
    assert a[0] == 'f' && a[1] == 'i' && a[2] == 'f' && a[3] == 't' && a[4] == 'h';
    assert b[0] == 'f' && b[1] == 'o' && b[2] == 'u' && b[3] == 'r' && b[4] == 't' && b[5] == 'h';
    assert a[3..] == "th" == b[4..];
    LevCommonSuffix(a, b, 3, 4);
    FifthVsFourthCorner(a, b);
  }

  /** The table for "fif" against "four", cell by cell, from the characters alone. */
  lemma FifthVsFourthCorner(a: string, b: string)
    requires 3 <= |a| && 4 <= |b|
    requires a[0] == 'f' && a[1] == 'i' && a[2] == 'f'
    requires b[0] == 'f' && b[1] == 'o' && b[2] == 'u' && b[3] == 'r'
    ensures Dist(a, b, 3, 4) == 3
  {
    assert Dist(a, b, 1, 1) == 0;
    assert Dist(a, b, 1, 2) == 1;
    assert Dist(a, b, 1, 3) == 2;
    assert Dist(a, b, 1, 4) == 3;
    assert Dist(a, b, 2, 1) == 1;
    assert Dist(a, b, 2, 2) == 1;
    assert Dist(a, b, 2, 3) == 2;
    assert Dist(a, b, 2, 4) == 3;
    assert Dist(a, b, 3, 1) == 2;
    assert Dist(a, b, 3, 2) == 2;
    assert Dist(a, b, 3, 3) == 2;
    assert Dist(a, b, 3, 4) == 3;
  }
}
