/**
  The lookups expected over the eleven-line corpus, each stated on the
  searcher that opening the written corpus yields.
 */
module SanityLookups {
  import opened Outcomes
  import opened Levenshtein
  import opened Corpus
  import opened Search
  import opened SanityDistances

  /** The corpus, in file order. */
  const Lines: seq<string> := ["firstline", "secondline", "thirdline", "fourthline", "fifthline", "first.line", "second.line", "third.line", "fourth.line", "fourthhhhh.line", "fifth.line"]

  /** Writing the corpus to a file and opening it gives the searcher over
      exactly these lines, whatever the separator. */
  lemma OpenCorpus(files: map<string, string>, path: string, separator: string)
    requires path in files && files[path] == Written(Lines)
    ensures Open(files, path, separator) == Success(Searcher(Lines, separator))
  {
    LinesHaveNoNewline();
    OpenWritten(files, path, Lines, separator);
  }

  /** No line of the corpus holds a newline of its own. */
  lemma LinesHaveNoNewline()
    ensures forall l :: l in Lines ==> '\n' !in l
  {
    forall l | l in Lines
      ensures '\n' !in l
    {
    }
  }

  /** The records among the first n whose verdict is true, in order. */
  function Selected(records: seq<string>, verdicts: seq<bool>, n: nat): seq<string>
    requires n <= |records| && n <= |verdicts|
  {
    if n == 0 then [] else Selected(records, verdicts, n - 1) + if verdicts[n - 1] then [records[n - 1]] else []
  }

  /** Matching is selection by the verdicts, one more record at a time. */
  lemma MatchingSelects(records: seq<string>, n: nat, separator: string, pattern: string, d: nat, verdicts: seq<bool>)
    requires n < |records| == |verdicts|
    requires Matching(records, n, separator, pattern, d) == Selected(records, verdicts, n)
    requires verdicts[n] == RecordMatches(records[n], separator, pattern, d)
    ensures Matching(records, n + 1, separator, pattern, d) == Selected(records, verdicts, n + 1)
  {
  }

  /** No line is within 1 of "a": every line is at least eight characters longer. */
  lemma WholeLinesNearA(lines: seq<string>, separator: string, pattern: string, d: nat)
    requires lines == Lines && separator == "" && pattern == "a" && d == 1
    ensures Lookup(Searcher(lines, separator), pattern, d) == Success([])
  {
    var verdicts := [false, false, false, false, false, false, false, false, false, false, false];
    WholeLinesNearAUpTo5(lines, separator, pattern, d, verdicts);
    WholeLinesNearAUpTo8(lines, separator, pattern, d, verdicts);
    WholeLinesNearAUpTo11(lines, separator, pattern, d, verdicts);
    WholeLinesNearASelection(lines, verdicts);
  }

  /** The records the verdicts of this lookup select. */
  lemma WholeLinesNearASelection(records: seq<string>, verdicts: seq<bool>)
    requires |records| == 11 && verdicts == [false, false, false, false, false, false, false, false, false, false, false]
    ensures Selected(records, verdicts, 11) == []
  {
    assert Selected(records, verdicts, 1) == [];
    assert Selected(records, verdicts, 2) == [];
    assert Selected(records, verdicts, 3) == [];
    assert Selected(records, verdicts, 4) == [];
    assert Selected(records, verdicts, 5) == [];
    assert Selected(records, verdicts, 6) == [];
    assert Selected(records, verdicts, 7) == [];
    assert Selected(records, verdicts, 8) == [];
    assert Selected(records, verdicts, 9) == [];
    assert Selected(records, verdicts, 10) == [];
    assert Selected(records, verdicts, 11) == [];
  }

  /** Lines 0 to 4 are selected by their verdicts. */
  lemma WholeLinesNearAUpTo5(lines: seq<string>, separator: string, pattern: string, d: nat, verdicts: seq<bool>)
    requires lines == Lines && separator == "" && pattern == "a" && d == 1
    requires verdicts == [false, false, false, false, false, false, false, false, false, false, false]
    ensures Matching(lines, 5, separator, pattern, d) == Selected(lines, verdicts, 5)
  {
    WholeLinesNearAUndotted(lines, separator, pattern, d);
    MatchingSelects(lines, 0, separator, pattern, d, verdicts);
    MatchingSelects(lines, 1, separator, pattern, d, verdicts);
    MatchingSelects(lines, 2, separator, pattern, d, verdicts);
    MatchingSelects(lines, 3, separator, pattern, d, verdicts);
    MatchingSelects(lines, 4, separator, pattern, d, verdicts);
  }

  /** Lines 5 to 7 are selected by their verdicts. */
  lemma WholeLinesNearAUpTo8(lines: seq<string>, separator: string, pattern: string, d: nat, verdicts: seq<bool>)
    requires lines == Lines && separator == "" && pattern == "a" && d == 1
    requires verdicts == [false, false, false, false, false, false, false, false, false, false, false]
    requires Matching(lines, 5, separator, pattern, d) == Selected(lines, verdicts, 5)
    ensures Matching(lines, 8, separator, pattern, d) == Selected(lines, verdicts, 8)
  {
    WholeLinesNearAFirstDotted(lines, separator, pattern, d);
    MatchingSelects(lines, 5, separator, pattern, d, verdicts);
    MatchingSelects(lines, 6, separator, pattern, d, verdicts);
    MatchingSelects(lines, 7, separator, pattern, d, verdicts);
  }

  /** Lines 8 to 10 are selected by their verdicts. */
  lemma WholeLinesNearAUpTo11(lines: seq<string>, separator: string, pattern: string, d: nat, verdicts: seq<bool>)
    requires lines == Lines && separator == "" && pattern == "a" && d == 1
    requires verdicts == [false, false, false, false, false, false, false, false, false, false, false]
    requires Matching(lines, 8, separator, pattern, d) == Selected(lines, verdicts, 8)
    ensures Matching(lines, 11, separator, pattern, d) == Selected(lines, verdicts, 11)
  {
    WholeLinesNearALastDotted(lines, separator, pattern, d);
    MatchingSelects(lines, 8, separator, pattern, d, verdicts);
    MatchingSelects(lines, 9, separator, pattern, d, verdicts);
    MatchingSelects(lines, 10, separator, pattern, d, verdicts);
  }

  /** Whether the lines without a dot match. */
  lemma WholeLinesNearAUndotted(lines: seq<string>, separator: string, pattern: string, d: nat)
    requires lines == Lines && separator == "" && pattern == "a" && d == 1
    ensures !RecordMatches(lines[0], separator, pattern, d)
    ensures !RecordMatches(lines[1], separator, pattern, d)
    ensures !RecordMatches(lines[2], separator, pattern, d)
    ensures !RecordMatches(lines[3], separator, pattern, d)
    ensures !RecordMatches(lines[4], separator, pattern, d)
  {
    WholeRecordTooFar(lines[0], pattern, d);
    WholeRecordTooFar(lines[1], pattern, d);
    WholeRecordTooFar(lines[2], pattern, d);
    WholeRecordTooFar(lines[3], pattern, d);
    WholeRecordTooFar(lines[4], pattern, d);
  }

  /** Whether the first three lines with a dot match. */
  lemma WholeLinesNearAFirstDotted(lines: seq<string>, separator: string, pattern: string, d: nat)
    requires lines == Lines && separator == "" && pattern == "a" && d == 1
    ensures !RecordMatches(lines[5], separator, pattern, d)
    ensures !RecordMatches(lines[6], separator, pattern, d)
    ensures !RecordMatches(lines[7], separator, pattern, d)
  {
    WholeRecordTooFar(lines[5], pattern, d);
    WholeRecordTooFar(lines[6], pattern, d);
    WholeRecordTooFar(lines[7], pattern, d);
  }

  /** Whether the last three lines with a dot match. */
  lemma WholeLinesNearALastDotted(lines: seq<string>, separator: string, pattern: string, d: nat)
    requires lines == Lines && separator == "" && pattern == "a" && d == 1
    ensures !RecordMatches(lines[8], separator, pattern, d)
    ensures !RecordMatches(lines[9], separator, pattern, d)
    ensures !RecordMatches(lines[10], separator, pattern, d)
  {
    WholeRecordTooFar(lines[8], pattern, d);
    WholeRecordTooFar(lines[9], pattern, d);
    WholeRecordTooFar(lines[10], pattern, d);
  }

  /** Only "fourthline" is within 1 of "forthline". */
  lemma WholeLinesNearForthline(lines: seq<string>, separator: string, pattern: string, d: nat)
    requires lines == Lines && separator == "" && pattern == "forthline" && d == 1
    ensures Lookup(Searcher(lines, separator), pattern, d) == Success(["fourthline"])
  {
    var verdicts := [false, false, false, true, false, false, false, false, false, false, false];
    WholeLinesNearForthlineUpTo5(lines, separator, pattern, d, verdicts);
    WholeLinesNearForthlineUpTo8(lines, separator, pattern, d, verdicts);
    WholeLinesNearForthlineUpTo11(lines, separator, pattern, d, verdicts);
    WholeLinesNearForthlineSelection(lines, verdicts);
  }

  /** The records the verdicts of this lookup select. */
  lemma WholeLinesNearForthlineSelection(records: seq<string>, verdicts: seq<bool>)
    requires |records| == 11 && verdicts == [false, false, false, true, false, false, false, false, false, false, false]
    ensures Selected(records, verdicts, 11) == [records[3]]
  {
    assert Selected(records, verdicts, 1) == [];
    assert Selected(records, verdicts, 2) == [];
    assert Selected(records, verdicts, 3) == [];
    assert Selected(records, verdicts, 4) == [records[3]];
    assert Selected(records, verdicts, 5) == [records[3]];
    assert Selected(records, verdicts, 6) == [records[3]];
    assert Selected(records, verdicts, 7) == [records[3]];
    assert Selected(records, verdicts, 8) == [records[3]];
    assert Selected(records, verdicts, 9) == [records[3]];
    assert Selected(records, verdicts, 10) == [records[3]];
    assert Selected(records, verdicts, 11) == [records[3]];
  }

  /** Lines 0 to 4 are selected by their verdicts. */
  lemma WholeLinesNearForthlineUpTo5(lines: seq<string>, separator: string, pattern: string, d: nat, verdicts: seq<bool>)
    requires lines == Lines && separator == "" && pattern == "forthline" && d == 1
    requires verdicts == [false, false, false, true, false, false, false, false, false, false, false]
    ensures Matching(lines, 5, separator, pattern, d) == Selected(lines, verdicts, 5)
  {
    WholeLinesNearForthlineUndotted(lines, separator, pattern, d);
    MatchingSelects(lines, 0, separator, pattern, d, verdicts);
    MatchingSelects(lines, 1, separator, pattern, d, verdicts);
    MatchingSelects(lines, 2, separator, pattern, d, verdicts);
    MatchingSelects(lines, 3, separator, pattern, d, verdicts);
    MatchingSelects(lines, 4, separator, pattern, d, verdicts);
  }

  /** Lines 5 to 7 are selected by their verdicts. */
  lemma WholeLinesNearForthlineUpTo8(lines: seq<string>, separator: string, pattern: string, d: nat, verdicts: seq<bool>)
    requires lines == Lines && separator == "" && pattern == "forthline" && d == 1
    requires verdicts == [false, false, false, true, false, false, false, false, false, false, false]
    requires Matching(lines, 5, separator, pattern, d) == Selected(lines, verdicts, 5)
    ensures Matching(lines, 8, separator, pattern, d) == Selected(lines, verdicts, 8)
  {
    WholeLinesNearForthlineFirstDotted(lines, separator, pattern, d);
    MatchingSelects(lines, 5, separator, pattern, d, verdicts);
    MatchingSelects(lines, 6, separator, pattern, d, verdicts);
    MatchingSelects(lines, 7, separator, pattern, d, verdicts);
  }

  /** Lines 8 to 10 are selected by their verdicts. */
  lemma WholeLinesNearForthlineUpTo11(lines: seq<string>, separator: string, pattern: string, d: nat, verdicts: seq<bool>)
    requires lines == Lines && separator == "" && pattern == "forthline" && d == 1
    requires verdicts == [false, false, false, true, false, false, false, false, false, false, false]
    requires Matching(lines, 8, separator, pattern, d) == Selected(lines, verdicts, 8)
    ensures Matching(lines, 11, separator, pattern, d) == Selected(lines, verdicts, 11)
  {
    WholeLinesNearForthlineLastDotted(lines, separator, pattern, d);
    MatchingSelects(lines, 8, separator, pattern, d, verdicts);
    MatchingSelects(lines, 9, separator, pattern, d, verdicts);
    MatchingSelects(lines, 10, separator, pattern, d, verdicts);
  }

  /** Whether the lines without a dot match. */
  lemma WholeLinesNearForthlineUndotted(lines: seq<string>, separator: string, pattern: string, d: nat)
    requires lines == Lines && separator == "" && pattern == "forthline" && d == 1
    ensures !RecordMatches(lines[0], separator, pattern, d)
    ensures !RecordMatches(lines[1], separator, pattern, d)
    ensures !RecordMatches(lines[2], separator, pattern, d)
    ensures RecordMatches(lines[3], separator, pattern, d)
    ensures !RecordMatches(lines[4], separator, pattern, d)
  {
    WholeRecordMatches(lines[0], pattern, d);
    FirstlineVsForthline(lines[0], pattern);
    WholeRecordMatches(lines[1], pattern, d);
    SecondlineVsForthline(lines[1], pattern);
    WholeRecordMatches(lines[2], pattern, d);
    ThirdlineVsForthline(lines[2], pattern);
    WholeRecordMatches(lines[3], pattern, d);
    assert lines[3] == "fo" + ['u'] + "rthline" && pattern == "fo" + "rthline";
    LevInsertOne("fo", 'u', "rthline");
    WholeRecordMatches(lines[4], pattern, d);
    FifthlineVsForthline(lines[4], pattern);
  }

  /** Whether the first three lines with a dot match. */
  lemma WholeLinesNearForthlineFirstDotted(lines: seq<string>, separator: string, pattern: string, d: nat)
    requires lines == Lines && separator == "" && pattern == "forthline" && d == 1
    ensures !RecordMatches(lines[5], separator, pattern, d)
    ensures !RecordMatches(lines[6], separator, pattern, d)
    ensures !RecordMatches(lines[7], separator, pattern, d)
  {
    WholeRecordMatches(lines[5], pattern, d);
    FirstDotLineVsForthline(lines[5], pattern);
    WholeRecordTooFar(lines[6], pattern, d);
    WholeRecordMatches(lines[7], pattern, d);
    ThirdDotLineVsForthline(lines[7], pattern);
  }

  /** Whether the last three lines with a dot match. */
  lemma WholeLinesNearForthlineLastDotted(lines: seq<string>, separator: string, pattern: string, d: nat)
    requires lines == Lines && separator == "" && pattern == "forthline" && d == 1
    ensures !RecordMatches(lines[8], separator, pattern, d)
    ensures !RecordMatches(lines[9], separator, pattern, d)
    ensures !RecordMatches(lines[10], separator, pattern, d)
  {
    WholeRecordTooFar(lines[8], pattern, d);
    WholeRecordTooFar(lines[9], pattern, d);
    WholeRecordMatches(lines[10], pattern, d);
    FifthDotLineVsForthline(lines[10], pattern);
  }

  /** "firstline" itself and "first.line": the dot is ordinary content when it is not the separator. */
  lemma WholeLinesNearFirstline(lines: seq<string>, separator: string, pattern: string, d: nat)
    requires lines == Lines && separator == "" && pattern == "firstline" && d == 1
    ensures Lookup(Searcher(lines, separator), pattern, d) == Success(["firstline", "first.line"])
  {
    var verdicts := [true, false, false, false, false, true, false, false, false, false, false];
    WholeLinesNearFirstlineUpTo5(lines, separator, pattern, d, verdicts);
    WholeLinesNearFirstlineUpTo8(lines, separator, pattern, d, verdicts);
    WholeLinesNearFirstlineUpTo11(lines, separator, pattern, d, verdicts);
    WholeLinesNearFirstlineSelection(lines, verdicts);
  }

  /** The records the verdicts of this lookup select. */
  lemma WholeLinesNearFirstlineSelection(records: seq<string>, verdicts: seq<bool>)
    requires |records| == 11 && verdicts == [true, false, false, false, false, true, false, false, false, false, false]
    ensures Selected(records, verdicts, 11) == [records[0], records[5]]
  {
    assert Selected(records, verdicts, 1) == [records[0]];
    assert Selected(records, verdicts, 2) == [records[0]];
    assert Selected(records, verdicts, 3) == [records[0]];
    assert Selected(records, verdicts, 4) == [records[0]];
    assert Selected(records, verdicts, 5) == [records[0]];
    assert Selected(records, verdicts, 6) == [records[0], records[5]];
    assert Selected(records, verdicts, 7) == [records[0], records[5]];
    assert Selected(records, verdicts, 8) == [records[0], records[5]];
    assert Selected(records, verdicts, 9) == [records[0], records[5]];
    assert Selected(records, verdicts, 10) == [records[0], records[5]];
    assert Selected(records, verdicts, 11) == [records[0], records[5]];
  }

  /** Lines 0 to 4 are selected by their verdicts. */
  lemma WholeLinesNearFirstlineUpTo5(lines: seq<string>, separator: string, pattern: string, d: nat, verdicts: seq<bool>)
    requires lines == Lines && separator == "" && pattern == "firstline" && d == 1
    requires verdicts == [true, false, false, false, false, true, false, false, false, false, false]
    ensures Matching(lines, 5, separator, pattern, d) == Selected(lines, verdicts, 5)
  {
    WholeLinesNearFirstlineUndotted(lines, separator, pattern, d);
    MatchingSelects(lines, 0, separator, pattern, d, verdicts);
    MatchingSelects(lines, 1, separator, pattern, d, verdicts);
    MatchingSelects(lines, 2, separator, pattern, d, verdicts);
    MatchingSelects(lines, 3, separator, pattern, d, verdicts);
    MatchingSelects(lines, 4, separator, pattern, d, verdicts);
  }

  /** Lines 5 to 7 are selected by their verdicts. */
  lemma WholeLinesNearFirstlineUpTo8(lines: seq<string>, separator: string, pattern: string, d: nat, verdicts: seq<bool>)
    requires lines == Lines && separator == "" && pattern == "firstline" && d == 1
    requires verdicts == [true, false, false, false, false, true, false, false, false, false, false]
    requires Matching(lines, 5, separator, pattern, d) == Selected(lines, verdicts, 5)
    ensures Matching(lines, 8, separator, pattern, d) == Selected(lines, verdicts, 8)
  {
    WholeLinesNearFirstlineFirstDotted(lines, separator, pattern, d);
    MatchingSelects(lines, 5, separator, pattern, d, verdicts);
    MatchingSelects(lines, 6, separator, pattern, d, verdicts);
    MatchingSelects(lines, 7, separator, pattern, d, verdicts);
  }

  /** Lines 8 to 10 are selected by their verdicts. */
  lemma WholeLinesNearFirstlineUpTo11(lines: seq<string>, separator: string, pattern: string, d: nat, verdicts: seq<bool>)
    requires lines == Lines && separator == "" && pattern == "firstline" && d == 1
    requires verdicts == [true, false, false, false, false, true, false, false, false, false, false]
    requires Matching(lines, 8, separator, pattern, d) == Selected(lines, verdicts, 8)
    ensures Matching(lines, 11, separator, pattern, d) == Selected(lines, verdicts, 11)
  {
    WholeLinesNearFirstlineLastDotted(lines, separator, pattern, d);
    MatchingSelects(lines, 8, separator, pattern, d, verdicts);
    MatchingSelects(lines, 9, separator, pattern, d, verdicts);
    MatchingSelects(lines, 10, separator, pattern, d, verdicts);
  }

  /** Whether the lines without a dot match. */
  lemma WholeLinesNearFirstlineUndotted(lines: seq<string>, separator: string, pattern: string, d: nat)
    requires lines == Lines && separator == "" && pattern == "firstline" && d == 1
    ensures RecordMatches(lines[0], separator, pattern, d)
    ensures !RecordMatches(lines[1], separator, pattern, d)
    ensures !RecordMatches(lines[2], separator, pattern, d)
    ensures !RecordMatches(lines[3], separator, pattern, d)
    ensures !RecordMatches(lines[4], separator, pattern, d)
  {
    WholeRecordMatches(lines[0], pattern, d);
    WholeRecordMatches(lines[1], pattern, d);
    SecondlineVsFirstline(lines[1], pattern);
    WholeRecordMatches(lines[2], pattern, d);
    ThirdlineVsFirstline(lines[2], pattern);
    WholeRecordMatches(lines[3], pattern, d);
    FourthlineVsFirstline(lines[3], pattern);
    WholeRecordMatches(lines[4], pattern, d);
    FifthlineVsFirstline(lines[4], pattern);
  }

  /** Whether the first three lines with a dot match. */
  lemma WholeLinesNearFirstlineFirstDotted(lines: seq<string>, separator: string, pattern: string, d: nat)
    requires lines == Lines && separator == "" && pattern == "firstline" && d == 1
    ensures RecordMatches(lines[5], separator, pattern, d)
    ensures !RecordMatches(lines[6], separator, pattern, d)
    ensures !RecordMatches(lines[7], separator, pattern, d)
  {
    WholeRecordMatches(lines[5], pattern, d);
    assert lines[5] == "first" + ['.'] + "line" && pattern == "first" + "line";
    LevInsertOne("first", '.', "line");
    WholeRecordTooFar(lines[6], pattern, d);
    WholeRecordMatches(lines[7], pattern, d);
    ThirdDotLineVsFirstline(lines[7], pattern);
  }

  /** Whether the last three lines with a dot match. */
  lemma WholeLinesNearFirstlineLastDotted(lines: seq<string>, separator: string, pattern: string, d: nat)
    requires lines == Lines && separator == "" && pattern == "firstline" && d == 1
    ensures !RecordMatches(lines[8], separator, pattern, d)
    ensures !RecordMatches(lines[9], separator, pattern, d)
    ensures !RecordMatches(lines[10], separator, pattern, d)
  {
    WholeRecordTooFar(lines[8], pattern, d);
    WholeRecordTooFar(lines[9], pattern, d);
    WholeRecordMatches(lines[10], pattern, d);
    FifthDotLineVsFirstline(lines[10], pattern);
  }

  /** Only the field "first" of "first.line" is within 1 of "fist"; the undotted "firstline" has no field. */
  lemma FieldsNearFist(lines: seq<string>, separator: string, pattern: string, d: nat)
    requires lines == Lines && separator == "." && pattern == "fist" && d == 1
    ensures Lookup(Searcher(lines, separator), pattern, d) == Success(["first.line"])
  {
    var verdicts := [false, false, false, false, false, true, false, false, false, false, false];
    FieldsNearFistUpTo5(lines, separator, pattern, d, verdicts);
    FieldsNearFistUpTo8(lines, separator, pattern, d, verdicts);
    FieldsNearFistUpTo11(lines, separator, pattern, d, verdicts);
    FieldsNearFistSelection(lines, verdicts);
  }

  /** The records the verdicts of this lookup select. */
  lemma FieldsNearFistSelection(records: seq<string>, verdicts: seq<bool>)
    requires |records| == 11 && verdicts == [false, false, false, false, false, true, false, false, false, false, false]
    ensures Selected(records, verdicts, 11) == [records[5]]
  {
    assert Selected(records, verdicts, 1) == [];
    assert Selected(records, verdicts, 2) == [];
    assert Selected(records, verdicts, 3) == [];
    assert Selected(records, verdicts, 4) == [];
    assert Selected(records, verdicts, 5) == [];
    assert Selected(records, verdicts, 6) == [records[5]];
    assert Selected(records, verdicts, 7) == [records[5]];
    assert Selected(records, verdicts, 8) == [records[5]];
    assert Selected(records, verdicts, 9) == [records[5]];
    assert Selected(records, verdicts, 10) == [records[5]];
    assert Selected(records, verdicts, 11) == [records[5]];
  }

  /** Lines 0 to 4 are selected by their verdicts. */
  lemma FieldsNearFistUpTo5(lines: seq<string>, separator: string, pattern: string, d: nat, verdicts: seq<bool>)
    requires lines == Lines && separator == "." && pattern == "fist" && d == 1
    requires verdicts == [false, false, false, false, false, true, false, false, false, false, false]
    ensures Matching(lines, 5, separator, pattern, d) == Selected(lines, verdicts, 5)
  {
    FieldsNearFistUndotted(lines, separator, pattern, d);
    MatchingSelects(lines, 0, separator, pattern, d, verdicts);
    MatchingSelects(lines, 1, separator, pattern, d, verdicts);
    MatchingSelects(lines, 2, separator, pattern, d, verdicts);
    MatchingSelects(lines, 3, separator, pattern, d, verdicts);
    MatchingSelects(lines, 4, separator, pattern, d, verdicts);
  }

  /** Lines 5 to 7 are selected by their verdicts. */
  lemma FieldsNearFistUpTo8(lines: seq<string>, separator: string, pattern: string, d: nat, verdicts: seq<bool>)
    requires lines == Lines && separator == "." && pattern == "fist" && d == 1
    requires verdicts == [false, false, false, false, false, true, false, false, false, false, false]
    requires Matching(lines, 5, separator, pattern, d) == Selected(lines, verdicts, 5)
    ensures Matching(lines, 8, separator, pattern, d) == Selected(lines, verdicts, 8)
  {
    FieldsNearFistFirstDotLine(lines, separator, pattern, d);
    FieldsNearFistSecondDotLine(lines, separator, pattern, d);
    FieldsNearFistThirdDotLine(lines, separator, pattern, d);
    MatchingSelects(lines, 5, separator, pattern, d, verdicts);
    MatchingSelects(lines, 6, separator, pattern, d, verdicts);
    MatchingSelects(lines, 7, separator, pattern, d, verdicts);
  }

  /** Lines 8 to 10 are selected by their verdicts. */
  lemma FieldsNearFistUpTo11(lines: seq<string>, separator: string, pattern: string, d: nat, verdicts: seq<bool>)
    requires lines == Lines && separator == "." && pattern == "fist" && d == 1
    requires verdicts == [false, false, false, false, false, true, false, false, false, false, false]
    requires Matching(lines, 8, separator, pattern, d) == Selected(lines, verdicts, 8)
    ensures Matching(lines, 11, separator, pattern, d) == Selected(lines, verdicts, 11)
  {
    FieldsNearFistFourthDotLine(lines, separator, pattern, d);
    FieldsNearFistFourthhhhhDotLine(lines, separator, pattern, d);
    FieldsNearFistFifthDotLine(lines, separator, pattern, d);
    MatchingSelects(lines, 8, separator, pattern, d, verdicts);
    MatchingSelects(lines, 9, separator, pattern, d, verdicts);
    MatchingSelects(lines, 10, separator, pattern, d, verdicts);
  }

  /** Whether the lines without a dot match. */
  lemma FieldsNearFistUndotted(lines: seq<string>, separator: string, pattern: string, d: nat)
    requires lines == Lines && separator == "." && pattern == "fist" && d == 1
    ensures !RecordMatches(lines[0], separator, pattern, d)
    ensures !RecordMatches(lines[1], separator, pattern, d)
    ensures !RecordMatches(lines[2], separator, pattern, d)
    ensures !RecordMatches(lines[3], separator, pattern, d)
    ensures !RecordMatches(lines[4], separator, pattern, d)
  {
    UnsplitRecordNeverMatches(lines[0], separator, pattern, d);
    UnsplitRecordNeverMatches(lines[1], separator, pattern, d);
    UnsplitRecordNeverMatches(lines[2], separator, pattern, d);
    UnsplitRecordNeverMatches(lines[3], separator, pattern, d);
    UnsplitRecordNeverMatches(lines[4], separator, pattern, d);
  }

  /** Whether "first.line" matches. */
  lemma FieldsNearFistFirstDotLine(lines: seq<string>, separator: string, pattern: string, d: nat)
    requires lines == Lines && separator == "." && pattern == "fist" && d == 1
    ensures RecordMatches(lines[5], separator, pattern, d)
  {
    var first5, line5 := lines[5][..5], lines[5][6..];
    assert first5 == "first" && line5 == "line" && lines[5] == first5 + separator + line5;
    TwoFieldRecordMatches(first5, line5, separator, pattern, d);
    assert first5 == "fi" + ['r'] + "st" && pattern == "fi" + "st";
    LevInsertOne("fi", 'r', "st");
    LineVsFist(line5, pattern);
  }

  /** Whether "second.line" matches. */
  lemma FieldsNearFistSecondDotLine(lines: seq<string>, separator: string, pattern: string, d: nat)
    requires lines == Lines && separator == "." && pattern == "fist" && d == 1
    ensures !RecordMatches(lines[6], separator, pattern, d)
  {
    var second6, line6 := lines[6][..6], lines[6][7..];
    assert second6 == "second" && line6 == "line" && lines[6] == second6 + separator + line6;
    TwoFieldRecordMatches(second6, line6, separator, pattern, d);
    LineVsFist(line6, pattern);
  }

  /** Whether "third.line" matches. */
  lemma FieldsNearFistThirdDotLine(lines: seq<string>, separator: string, pattern: string, d: nat)
    requires lines == Lines && separator == "." && pattern == "fist" && d == 1
    ensures !RecordMatches(lines[7], separator, pattern, d)
  {
    var third7, line7 := lines[7][..5], lines[7][6..];
    assert third7 == "third" && line7 == "line" && lines[7] == third7 + separator + line7;
    TwoFieldRecordMatches(third7, line7, separator, pattern, d);
    ThirdVsFist(third7, pattern);
    LineVsFist(line7, pattern);
  }

  /** Whether "fourth.line" matches. */
  lemma FieldsNearFistFourthDotLine(lines: seq<string>, separator: string, pattern: string, d: nat)
    requires lines == Lines && separator == "." && pattern == "fist" && d == 1
    ensures !RecordMatches(lines[8], separator, pattern, d)
  {
    var fourth8, line8 := lines[8][..6], lines[8][7..];
    assert fourth8 == "fourth" && line8 == "line" && lines[8] == fourth8 + separator + line8;
    TwoFieldRecordMatches(fourth8, line8, separator, pattern, d);
    LineVsFist(line8, pattern);
  }

  /** Whether "fourthhhhh.line" matches. */
  lemma FieldsNearFistFourthhhhhDotLine(lines: seq<string>, separator: string, pattern: string, d: nat)
    requires lines == Lines && separator == "." && pattern == "fist" && d == 1
    ensures !RecordMatches(lines[9], separator, pattern, d)
  {
    var fourthhhhh9, line9 := lines[9][..10], lines[9][11..];
    assert fourthhhhh9 == "fourthhhhh" && line9 == "line" && lines[9] == fourthhhhh9 + separator + line9;
    TwoFieldRecordMatches(fourthhhhh9, line9, separator, pattern, d);
    LineVsFist(line9, pattern);
  }

  /** Whether "fifth.line" matches. */
  lemma FieldsNearFistFifthDotLine(lines: seq<string>, separator: string, pattern: string, d: nat)
    requires lines == Lines && separator == "." && pattern == "fist" && d == 1
    ensures !RecordMatches(lines[10], separator, pattern, d)
  {
    var fifth10, line10 := lines[10][..5], lines[10][6..];
    assert fifth10 == "fifth" && line10 == "line" && lines[10] == fifth10 + separator + line10;
    TwoFieldRecordMatches(fifth10, line10, separator, pattern, d);
    FifthVsFist(fifth10, pattern);
    LineVsFist(line10, pattern);
  }

  /** "fourth" itself and "fifth" (three edits). */
  lemma FieldsWithin3OfFourth(lines: seq<string>, separator: string, pattern: string, d: nat)
    requires lines == Lines && separator == "." && pattern == "fourth" && d == 3
    ensures Lookup(Searcher(lines, separator), pattern, d) == Success(["fourth.line", "fifth.line"])
  {
    var verdicts := [false, false, false, false, false, false, false, false, true, false, true];
    FieldsWithin3OfFourthUpTo5(lines, separator, pattern, d, verdicts);
    FieldsWithin3OfFourthUpTo8(lines, separator, pattern, d, verdicts);
    FieldsWithin3OfFourthUpTo11(lines, separator, pattern, d, verdicts);
    FieldsWithin3OfFourthSelection(lines, verdicts);
  }

  /** The records the verdicts of this lookup select. */
  lemma FieldsWithin3OfFourthSelection(records: seq<string>, verdicts: seq<bool>)
    requires |records| == 11 && verdicts == [false, false, false, false, false, false, false, false, true, false, true]
    ensures Selected(records, verdicts, 11) == [records[8], records[10]]
  {
    assert Selected(records, verdicts, 1) == [];
    assert Selected(records, verdicts, 2) == [];
    assert Selected(records, verdicts, 3) == [];
    assert Selected(records, verdicts, 4) == [];
    assert Selected(records, verdicts, 5) == [];
    assert Selected(records, verdicts, 6) == [];
    assert Selected(records, verdicts, 7) == [];
    assert Selected(records, verdicts, 8) == [];
    assert Selected(records, verdicts, 9) == [records[8]];
    assert Selected(records, verdicts, 10) == [records[8]];
    assert Selected(records, verdicts, 11) == [records[8], records[10]];
  }

  /** Lines 0 to 4 are selected by their verdicts. */
  lemma FieldsWithin3OfFourthUpTo5(lines: seq<string>, separator: string, pattern: string, d: nat, verdicts: seq<bool>)
    requires lines == Lines && separator == "." && pattern == "fourth" && d == 3
    requires verdicts == [false, false, false, false, false, false, false, false, true, false, true]
    ensures Matching(lines, 5, separator, pattern, d) == Selected(lines, verdicts, 5)
  {
    FieldsWithin3OfFourthUndotted(lines, separator, pattern, d);
    MatchingSelects(lines, 0, separator, pattern, d, verdicts);
    MatchingSelects(lines, 1, separator, pattern, d, verdicts);
    MatchingSelects(lines, 2, separator, pattern, d, verdicts);
    MatchingSelects(lines, 3, separator, pattern, d, verdicts);
    MatchingSelects(lines, 4, separator, pattern, d, verdicts);
  }

  /** Lines 5 to 7 are selected by their verdicts. */
  lemma FieldsWithin3OfFourthUpTo8(lines: seq<string>, separator: string, pattern: string, d: nat, verdicts: seq<bool>)
    requires lines == Lines && separator == "." && pattern == "fourth" && d == 3
    requires verdicts == [false, false, false, false, false, false, false, false, true, false, true]
    requires Matching(lines, 5, separator, pattern, d) == Selected(lines, verdicts, 5)
    ensures Matching(lines, 8, separator, pattern, d) == Selected(lines, verdicts, 8)
  {
    FieldsWithin3OfFourthFirstDotLine(lines, separator, pattern, d);
    FieldsWithin3OfFourthSecondDotLine(lines, separator, pattern, d);
    FieldsWithin3OfFourthThirdDotLine(lines, separator, pattern, d);
    MatchingSelects(lines, 5, separator, pattern, d, verdicts);
    MatchingSelects(lines, 6, separator, pattern, d, verdicts);
    MatchingSelects(lines, 7, separator, pattern, d, verdicts);
  }

  /** Lines 8 to 10 are selected by their verdicts. */
  lemma FieldsWithin3OfFourthUpTo11(lines: seq<string>, separator: string, pattern: string, d: nat, verdicts: seq<bool>)
    requires lines == Lines && separator == "." && pattern == "fourth" && d == 3
    requires verdicts == [false, false, false, false, false, false, false, false, true, false, true]
    requires Matching(lines, 8, separator, pattern, d) == Selected(lines, verdicts, 8)
    ensures Matching(lines, 11, separator, pattern, d) == Selected(lines, verdicts, 11)
  {
    FieldsWithin3OfFourthFourthDotLine(lines, separator, pattern, d);
    FieldsWithin3OfFourthFourthhhhhDotLine(lines, separator, pattern, d);
    FieldsWithin3OfFourthFifthDotLine(lines, separator, pattern, d);
    MatchingSelects(lines, 8, separator, pattern, d, verdicts);
    MatchingSelects(lines, 9, separator, pattern, d, verdicts);
    MatchingSelects(lines, 10, separator, pattern, d, verdicts);
  }

  /** Whether the lines without a dot match. */
  lemma FieldsWithin3OfFourthUndotted(lines: seq<string>, separator: string, pattern: string, d: nat)
    requires lines == Lines && separator == "." && pattern == "fourth" && d == 3
    ensures !RecordMatches(lines[0], separator, pattern, d)
    ensures !RecordMatches(lines[1], separator, pattern, d)
    ensures !RecordMatches(lines[2], separator, pattern, d)
    ensures !RecordMatches(lines[3], separator, pattern, d)
    ensures !RecordMatches(lines[4], separator, pattern, d)
  {
    UnsplitRecordNeverMatches(lines[0], separator, pattern, d);
    UnsplitRecordNeverMatches(lines[1], separator, pattern, d);
    UnsplitRecordNeverMatches(lines[2], separator, pattern, d);
    UnsplitRecordNeverMatches(lines[3], separator, pattern, d);
    UnsplitRecordNeverMatches(lines[4], separator, pattern, d);
  }

  /** Whether "first.line" matches. */
  lemma FieldsWithin3OfFourthFirstDotLine(lines: seq<string>, separator: string, pattern: string, d: nat)
    requires lines == Lines && separator == "." && pattern == "fourth" && d == 3
    ensures !RecordMatches(lines[5], separator, pattern, d)
  {
    var first5, line5 := lines[5][..5], lines[5][6..];
    assert first5 == "first" && line5 == "line" && lines[5] == first5 + separator + line5;
    TwoFieldRecordMatches(first5, line5, separator, pattern, d);
    FirstVsFourth(first5, pattern);
    LineVsFourth(line5, pattern);
  }

  /** Whether "second.line" matches. */
  lemma FieldsWithin3OfFourthSecondDotLine(lines: seq<string>, separator: string, pattern: string, d: nat)
    requires lines == Lines && separator == "." && pattern == "fourth" && d == 3
    ensures !RecordMatches(lines[6], separator, pattern, d)
  {
    var second6, line6 := lines[6][..6], lines[6][7..];
    assert second6 == "second" && line6 == "line" && lines[6] == second6 + separator + line6;
    TwoFieldRecordMatches(second6, line6, separator, pattern, d);
    SecondVsFourth(second6, pattern);
    LineVsFourth(line6, pattern);
  }

  /** Whether "third.line" matches. */
  lemma FieldsWithin3OfFourthThirdDotLine(lines: seq<string>, separator: string, pattern: string, d: nat)
    requires lines == Lines && separator == "." && pattern == "fourth" && d == 3
    ensures !RecordMatches(lines[7], separator, pattern, d)
  {
    var third7, line7 := lines[7][..5], lines[7][6..];
    assert third7 == "third" && line7 == "line" && lines[7] == third7 + separator + line7;
    TwoFieldRecordMatches(third7, line7, separator, pattern, d);
    ThirdVsFourth(third7, pattern);
    LineVsFourth(line7, pattern);
  }

  /** Whether "fourth.line" matches. */
  lemma FieldsWithin3OfFourthFourthDotLine(lines: seq<string>, separator: string, pattern: string, d: nat)
    requires lines == Lines && separator == "." && pattern == "fourth" && d == 3
    ensures RecordMatches(lines[8], separator, pattern, d)
  {
    var fourth8, line8 := lines[8][..6], lines[8][7..];
    assert fourth8 == "fourth" && line8 == "line" && lines[8] == fourth8 + separator + line8;
    TwoFieldRecordMatches(fourth8, line8, separator, pattern, d);
    LineVsFourth(line8, pattern);
  }

  /** Whether "fourthhhhh.line" matches. */
  lemma FieldsWithin3OfFourthFourthhhhhDotLine(lines: seq<string>, separator: string, pattern: string, d: nat)
    requires lines == Lines && separator == "." && pattern == "fourth" && d == 3
    ensures !RecordMatches(lines[9], separator, pattern, d)
  {
    var fourthhhhh9, line9 := lines[9][..10], lines[9][11..];
    assert fourthhhhh9 == "fourthhhhh" && line9 == "line" && lines[9] == fourthhhhh9 + separator + line9;
    TwoFieldRecordMatches(fourthhhhh9, line9, separator, pattern, d);
    LineVsFourth(line9, pattern);
  }

  /** Whether "fifth.line" matches. */
  lemma FieldsWithin3OfFourthFifthDotLine(lines: seq<string>, separator: string, pattern: string, d: nat)
    requires lines == Lines && separator == "." && pattern == "fourth" && d == 3
    ensures RecordMatches(lines[10], separator, pattern, d)
  {
    var fifth10, line10 := lines[10][..5], lines[10][6..];
    assert fifth10 == "fifth" && line10 == "line" && lines[10] == fifth10 + separator + line10;
    TwoFieldRecordMatches(fifth10, line10, separator, pattern, d);
    FifthVsFourth(fifth10, pattern);
    LineVsFourth(line10, pattern);
  }

  /** Raising the threshold to 4 adds "first" and "fourthhhhh"; the undotted "fourthline", also 4 from "fourth", has no field. */
  lemma FieldsWithin4OfFourth(lines: seq<string>, separator: string, pattern: string, d: nat)
    requires lines == Lines && separator == "." && pattern == "fourth" && d == 4
    ensures Lookup(Searcher(lines, separator), pattern, d) == Success(["first.line", "fourth.line", "fourthhhhh.line", "fifth.line"])
  {
    var verdicts := [false, false, false, false, false, true, false, false, true, true, true];
    FieldsWithin4OfFourthUpTo5(lines, separator, pattern, d, verdicts);
    FieldsWithin4OfFourthUpTo8(lines, separator, pattern, d, verdicts);
    FieldsWithin4OfFourthUpTo11(lines, separator, pattern, d, verdicts);
    FieldsWithin4OfFourthSelection(lines, verdicts);
  }

  /** The records the verdicts of this lookup select. */
  lemma FieldsWithin4OfFourthSelection(records: seq<string>, verdicts: seq<bool>)
    requires |records| == 11 && verdicts == [false, false, false, false, false, true, false, false, true, true, true]
    ensures Selected(records, verdicts, 11) == [records[5], records[8], records[9], records[10]]
  {
    assert Selected(records, verdicts, 1) == [];
    assert Selected(records, verdicts, 2) == [];
    assert Selected(records, verdicts, 3) == [];
    assert Selected(records, verdicts, 4) == [];
    assert Selected(records, verdicts, 5) == [];
    assert Selected(records, verdicts, 6) == [records[5]];
    assert Selected(records, verdicts, 7) == [records[5]];
    assert Selected(records, verdicts, 8) == [records[5]];
    assert Selected(records, verdicts, 9) == [records[5], records[8]];
    assert Selected(records, verdicts, 10) == [records[5], records[8], records[9]];
    assert Selected(records, verdicts, 11) == [records[5], records[8], records[9], records[10]];
  }

  /** Lines 0 to 4 are selected by their verdicts. */
  lemma FieldsWithin4OfFourthUpTo5(lines: seq<string>, separator: string, pattern: string, d: nat, verdicts: seq<bool>)
    requires lines == Lines && separator == "." && pattern == "fourth" && d == 4
    requires verdicts == [false, false, false, false, false, true, false, false, true, true, true]
    ensures Matching(lines, 5, separator, pattern, d) == Selected(lines, verdicts, 5)
  {
    FieldsWithin4OfFourthUndotted(lines, separator, pattern, d);
    MatchingSelects(lines, 0, separator, pattern, d, verdicts);
    MatchingSelects(lines, 1, separator, pattern, d, verdicts);
    MatchingSelects(lines, 2, separator, pattern, d, verdicts);
    MatchingSelects(lines, 3, separator, pattern, d, verdicts);
    MatchingSelects(lines, 4, separator, pattern, d, verdicts);
  }

  /** Lines 5 to 7 are selected by their verdicts. */
  lemma FieldsWithin4OfFourthUpTo8(lines: seq<string>, separator: string, pattern: string, d: nat, verdicts: seq<bool>)
    requires lines == Lines && separator == "." && pattern == "fourth" && d == 4
    requires verdicts == [false, false, false, false, false, true, false, false, true, true, true]
    requires Matching(lines, 5, separator, pattern, d) == Selected(lines, verdicts, 5)
    ensures Matching(lines, 8, separator, pattern, d) == Selected(lines, verdicts, 8)
  {
    FieldsWithin4OfFourthFirstDotLine(lines, separator, pattern, d);
    FieldsWithin4OfFourthSecondDotLine(lines, separator, pattern, d);
    FieldsWithin4OfFourthThirdDotLine(lines, separator, pattern, d);
    MatchingSelects(lines, 5, separator, pattern, d, verdicts);
    MatchingSelects(lines, 6, separator, pattern, d, verdicts);
    MatchingSelects(lines, 7, separator, pattern, d, verdicts);
  }

  /** Lines 8 to 10 are selected by their verdicts. */
  lemma FieldsWithin4OfFourthUpTo11(lines: seq<string>, separator: string, pattern: string, d: nat, verdicts: seq<bool>)
    requires lines == Lines && separator == "." && pattern == "fourth" && d == 4
    requires verdicts == [false, false, false, false, false, true, false, false, true, true, true]
    requires Matching(lines, 8, separator, pattern, d) == Selected(lines, verdicts, 8)
    ensures Matching(lines, 11, separator, pattern, d) == Selected(lines, verdicts, 11)
  {
    FieldsWithin4OfFourthFourthDotLine(lines, separator, pattern, d);
    FieldsWithin4OfFourthFourthhhhhDotLine(lines, separator, pattern, d);
    FieldsWithin4OfFourthFifthDotLine(lines, separator, pattern, d);
    MatchingSelects(lines, 8, separator, pattern, d, verdicts);
    MatchingSelects(lines, 9, separator, pattern, d, verdicts);
    MatchingSelects(lines, 10, separator, pattern, d, verdicts);
  }

  /** Whether the lines without a dot match. */
  lemma FieldsWithin4OfFourthUndotted(lines: seq<string>, separator: string, pattern: string, d: nat)
    requires lines == Lines && separator == "." && pattern == "fourth" && d == 4
    ensures !RecordMatches(lines[0], separator, pattern, d)
    ensures !RecordMatches(lines[1], separator, pattern, d)
    ensures !RecordMatches(lines[2], separator, pattern, d)
    ensures !RecordMatches(lines[3], separator, pattern, d)
    ensures !RecordMatches(lines[4], separator, pattern, d)
  {
    UnsplitRecordNeverMatches(lines[0], separator, pattern, d);
    UnsplitRecordNeverMatches(lines[1], separator, pattern, d);
    UnsplitRecordNeverMatches(lines[2], separator, pattern, d);
    UnsplitRecordNeverMatches(lines[3], separator, pattern, d);
    UnsplitRecordNeverMatches(lines[4], separator, pattern, d);
  }

  /** Whether "first.line" matches. */
  lemma FieldsWithin4OfFourthFirstDotLine(lines: seq<string>, separator: string, pattern: string, d: nat)
    requires lines == Lines && separator == "." && pattern == "fourth" && d == 4
    ensures RecordMatches(lines[5], separator, pattern, d)
  {
    var first5, line5 := lines[5][..5], lines[5][6..];
    assert first5 == "first" && line5 == "line" && lines[5] == first5 + separator + line5;
    TwoFieldRecordMatches(first5, line5, separator, pattern, d);
    FirstVsFourth(first5, pattern);
    LineVsFourth(line5, pattern);
  }

  /** Whether "second.line" matches. */
  lemma FieldsWithin4OfFourthSecondDotLine(lines: seq<string>, separator: string, pattern: string, d: nat)
    requires lines == Lines && separator == "." && pattern == "fourth" && d == 4
    ensures !RecordMatches(lines[6], separator, pattern, d)
  {
    var second6, line6 := lines[6][..6], lines[6][7..];
    assert second6 == "second" && line6 == "line" && lines[6] == second6 + separator + line6;
    TwoFieldRecordMatches(second6, line6, separator, pattern, d);
    SecondVsFourth(second6, pattern);
    LineVsFourth(line6, pattern);
  }

  /** Whether "third.line" matches. */
  lemma FieldsWithin4OfFourthThirdDotLine(lines: seq<string>, separator: string, pattern: string, d: nat)
    requires lines == Lines && separator == "." && pattern == "fourth" && d == 4
    ensures !RecordMatches(lines[7], separator, pattern, d)
  {
    var third7, line7 := lines[7][..5], lines[7][6..];
    assert third7 == "third" && line7 == "line" && lines[7] == third7 + separator + line7;
    TwoFieldRecordMatches(third7, line7, separator, pattern, d);
    ThirdVsFourth(third7, pattern);
    LineVsFourth(line7, pattern);
  }

  /** Whether "fourth.line" matches. */
  lemma FieldsWithin4OfFourthFourthDotLine(lines: seq<string>, separator: string, pattern: string, d: nat)
    requires lines == Lines && separator == "." && pattern == "fourth" && d == 4
    ensures RecordMatches(lines[8], separator, pattern, d)
  {
    var fourth8, line8 := lines[8][..6], lines[8][7..];
    assert fourth8 == "fourth" && line8 == "line" && lines[8] == fourth8 + separator + line8;
    TwoFieldRecordMatches(fourth8, line8, separator, pattern, d);
    LineVsFourth(line8, pattern);
  }

  /** Whether "fourthhhhh.line" matches. */
  lemma FieldsWithin4OfFourthFourthhhhhDotLine(lines: seq<string>, separator: string, pattern: string, d: nat)
    requires lines == Lines && separator == "." && pattern == "fourth" && d == 4
    ensures RecordMatches(lines[9], separator, pattern, d)
  {
    var fourthhhhh9, line9 := lines[9][..10], lines[9][11..];
    assert fourthhhhh9 == "fourthhhhh" && line9 == "line" && lines[9] == fourthhhhh9 + separator + line9;
    TwoFieldRecordMatches(fourthhhhh9, line9, separator, pattern, d);
    assert fourthhhhh9 == pattern + "hhhh";
    LevStripSuffix(pattern, "hhhh");
    LineVsFourth(line9, pattern);
  }

  /** Whether "fifth.line" matches. */
  lemma FieldsWithin4OfFourthFifthDotLine(lines: seq<string>, separator: string, pattern: string, d: nat)
    requires lines == Lines && separator == "." && pattern == "fourth" && d == 4
    ensures RecordMatches(lines[10], separator, pattern, d)
  {
    var fifth10, line10 := lines[10][..5], lines[10][6..];
    assert fifth10 == "fifth" && line10 == "line" && lines[10] == fifth10 + separator + line10;
    TwoFieldRecordMatches(fifth10, line10, separator, pattern, d);
    FifthVsFourth(fifth10, pattern);
    LineVsFourth(line10, pattern);
  }

}
