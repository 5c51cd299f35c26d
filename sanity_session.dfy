/**
  The six lookups over the eleven-line corpus, each one writing the corpus
  to the file, opening a searcher with its separator and asking for the
  records within the maximum distance of the pattern.
 */
module SanitySession {
  import opened Outcomes
  import opened Levenshtein
  import opened Search
  import opened SanityLookups

  /** Runs the six lookups in order and returns their outcomes. */
  method SixLookups(files: map<string, string>, path: string)
    returns (r1: Result<seq<string>>, r2: Result<seq<string>>, r3: Result<seq<string>>,
             r4: Result<seq<string>>, r5: Result<seq<string>>, r6: Result<seq<string>>)
    ensures r1 == Success([])
    ensures r2 == Success(["fourthline"])
    ensures r3 == Success(["firstline", "first.line"])
    ensures r4 == Success(["first.line"])
    ensures r5 == Success(["fourth.line", "fifth.line"])
    ensures r6 == Success(["first.line", "fourth.line", "fourthhhhh.line", "fifth.line"])
  {
    var lines := Lines;
    LinesHaveNoNewline();
    var whole, dot := "", ".";
    var a, forthline, firstline, fist, fourth := "a", "forthline", "firstline", "fist", "fourth";
    WholeLinesNearA(lines, whole, a, 1);
    r1 := WriteOpenLookup(files, path, lines, whole, a, 1);
    WholeLinesNearForthline(lines, whole, forthline, 1);
    r2 := WriteOpenLookup(files, path, lines, whole, forthline, 1);
    WholeLinesNearFirstline(lines, whole, firstline, 1);
    r3 := WriteOpenLookup(files, path, lines, whole, firstline, 1);
    FieldsNearFist(lines, dot, fist, 1);
    r4 := WriteOpenLookup(files, path, lines, dot, fist, 1);
    FieldsWithin3OfFourth(lines, dot, fourth, 3);
    r5 := WriteOpenLookup(files, path, lines, dot, fourth, 3);
    FieldsWithin4OfFourth(lines, dot, fourth, 4);
    r6 := WriteOpenLookup(files, path, lines, dot, fourth, 4);
  }

  /** The undotted record "fourthline" is 4 from "fourth", so it matches at
      threshold 4 as a whole line; with the separator "." it is still left
      out, because a record without the separator contributes no field
      (rather than one field holding the whole record). */
  lemma UndottedRecordHasNoField(record: string, pattern: string)
    requires record == "fourthline" && pattern == "fourth"
    ensures Lev(record, pattern) == 4
    ensures RecordMatches(record, "", pattern, 4)
    ensures !RecordMatches(record, ".", pattern, 4)
  {
    assert record == pattern + "line";
    LevStripSuffix(pattern, "line");
    WholeRecordMatches(record, pattern, 4);
    UnsplitRecordNeverMatches(record, ".", pattern, 4);
  }
}
