/**
  The searcher: a corpus loaded once with its separator, and the lookup that
  returns every record with at least one field within the maximum distance
  of the pattern.
 */
module Search {
  import opened Outcomes
  import opened Levenshtein
  import opened Tokenizer
  import opened Corpus
  import opened DistanceEngine

  /** A loaded corpus and the separator fixed at construction. Neither
      changes after construction. */
  datatype Searcher = Searcher(records: seq<string>, separator: string)

  const NegativeDistance: string := "max_distance must not be negative"

  /** Construction from a file. The file system is the map from each readable
      path to its content; a path that cannot be read is a NotFound failure,
      and a readable file, even an empty one, always gives a searcher. */
  function Open(files: map<string, string>, path: string, separator: string): (r: Result<Searcher>)
    ensures r.Failure? <==> path !in files
    ensures r.Failure? ==> r.error == NotFound(path)
    ensures r.Success? ==> r.value.separator == separator && forall x :: x in r.value.records ==> '\n' !in x
  {
    if path in files then
      Success(Searcher(Load(files[path]), separator))
    else
      Failure(NotFound(path))
  }

  /** A file written line by line opens as exactly those lines; in particular
      an empty file opens as a searcher with no record. */
  lemma OpenWritten(files: map<string, string>, path: string, lines: seq<string>, separator: string)
    requires path in files && files[path] == Written(lines)
    requires forall l :: l in lines ==> '\n' !in l
    ensures Open(files, path, separator) == Success(Searcher(lines, separator))
  {
    LoadWritten(lines);
  }

  /** A field qualifies when its distance to the pattern is at most d. A field
      equal to the pattern always qualifies, and one whose length differs from
      the pattern's by more than d never does. */
  function Within(token: string, pattern: string, d: nat): (r: bool)
    ensures token == pattern ==> r
    ensures r ==> Abs(|token| - |pattern|) <= d
  {
    Lev(token, pattern) <= d
  }

  /** A record matches when at least one of its fields qualifies. */
  predicate RecordMatches(record: string, separator: string, pattern: string, d: nat) {
    exists t :: t in Tokens(record, separator) && Within(t, pattern, d)
  }

  /** The records among the first n of the corpus that match, in corpus
      order. */
  function Matching(records: seq<string>, n: nat, separator: string, pattern: string, d: nat): seq<string>
    requires n <= |records|
  {
    if n == 0 then []
    else
      Matching(records, n - 1, separator, pattern, d)
        + if RecordMatches(records[n - 1], separator, pattern, d) then [records[n - 1]] else []
  }

  /** Each of the first n records that matches occurs in the result exactly
      as often as among those records; no other string occurs in it. */
  lemma {:induction false} MatchingCounts(records: seq<string>, n: nat, separator: string, pattern: string, d: nat)
    requires n <= |records|
    ensures forall x ::
              multiset(Matching(records, n, separator, pattern, d))[x]
              == (if RecordMatches(x, separator, pattern, d) then multiset(records[..n])[x] else 0)
    ensures forall x ::
              x in Matching(records, n, separator, pattern, d)
              <==> (x in records[..n] && RecordMatches(x, separator, pattern, d))
  {
    if n > 0 {
      assert records[..n] == records[..n - 1] + [records[n - 1]];
      MatchingCounts(records, n - 1, separator, pattern, d);
    }
  }

  /** The lookup: an InvalidArgument failure exactly when the maximum distance
      is negative, otherwise the matching records with their multiplicities. */
  function Lookup(s: Searcher, pattern: string, maxDistance: int): (r: Result<seq<string>>)
    ensures r.Failure? <==> maxDistance < 0
    ensures r.Failure? ==> r.error == InvalidArgument(NegativeDistance)
    ensures r.Success? ==>
      forall x :: multiset(r.value)[x] == (if maxDistance >= 0 && RecordMatches(x, s.separator, pattern, maxDistance) then multiset(s.records)[x] else 0)
  {
    if maxDistance < 0 then Failure(InvalidArgument(NegativeDistance))
    else
      var n := |s.records|;
      MatchingCounts(s.records, n, s.separator, pattern, maxDistance);
      assert s.records[..n] == s.records;
      Success(Matching(s.records, n, s.separator, pattern, maxDistance))
  }

  /** Raising the threshold never removes a record. */
  lemma LookupMonotone(s: Searcher, pattern: string, d1: int, d2: int)
    requires 0 <= d1 <= d2
    ensures Lookup(s, pattern, d1).Success? && Lookup(s, pattern, d2).Success?
    ensures multiset(Lookup(s, pattern, d1).value) <= multiset(Lookup(s, pattern, d2).value)
  {
    forall x | RecordMatches(x, s.separator, pattern, d1)
      ensures RecordMatches(x, s.separator, pattern, d2)
    {
      var t :| t in Tokens(x, s.separator) && Within(t, pattern, d1);
      assert Within(t, pattern, d2);
    }
  }

  /** With the empty separator a record matches when it is itself within d. */
  lemma WholeRecordMatches(record: string, pattern: string, d: nat)
    ensures RecordMatches(record, "", pattern, d) <==> Lev(record, pattern) <= d
  {
    assert Tokens(record, "") == [record];
    assert Within(record, pattern, d) ==> record in Tokens(record, "");
  }

  /** With the empty separator, a record whose length differs from the
      pattern's by more than d never matches. */
  lemma WholeRecordTooFar(record: string, pattern: string, d: nat)
    requires d < Abs(|record| - |pattern|)
    ensures !RecordMatches(record, "", pattern, d)
  {
    WholeRecordMatches(record, pattern, d);
  }

  /** A record without a one-character separator never matches. */
  lemma UnsplitRecordNeverMatches(record: string, separator: string, pattern: string, d: nat)
    requires |separator| == 1 && separator[0] !in record
    ensures !RecordMatches(record, separator, pattern, d)
  {
    TokensWithoutSeparator(record, separator);
  }

  /** A record made of two fields matches when either field is within d. */
  lemma TwoFieldRecordMatches(first: string, second: string, separator: string, pattern: string, d: nat)
    requires |separator| == 1 && separator[0] !in first && separator[0] !in second
    ensures RecordMatches(first + separator + second, separator, pattern, d)
        <==> Lev(first, pattern) <= d || Lev(second, pattern) <= d
  {
    var pieces := [first, second];
    assert Join(pieces, separator) == first + separator + second;
    TokensOfJoin(pieces, separator);
    assert Within(first, pattern, d) ==> first in pieces;
    assert Within(second, pattern, d) ==> second in pieces;
  }

  /** Writes the lines to the file at `path`, each followed by a newline,
      opens a searcher on that file and runs one lookup. The outcome is the
      lookup over exactly those lines, whatever the file held before. */
  method WriteOpenLookup(files: map<string, string>, path: string, lines: seq<string>, separator: string,
                         pattern: string, maxDistance: int)
    returns (r: Result<seq<string>>)
    requires forall l :: l in lines ==> '\n' !in l
    ensures r == Lookup(Searcher(lines, separator), pattern, maxDistance)
  {
    var content := WriteLines(lines);
    var written := files[path := content];
    OpenWritten(written, path, lines, separator);
    var s := Open(written, path, separator).value;
    r := Scan(s, pattern, maxDistance);
  }

  /** One pass over the corpus: each record is split into its fields and each
      field goes through the banded distance until one qualifies. */
  method Scan(s: Searcher, pattern: string, maxDistance: int) returns (r: Result<seq<string>>)
    ensures r == Lookup(s, pattern, maxDistance)
  {
    if maxDistance < 0 {
      return Failure(InvalidArgument(NegativeDistance));
    }
    var d: nat := maxDistance;
    var matches: seq<string> := [];
    for i := 0 to |s.records|
      invariant matches == Matching(s.records, i, s.separator, pattern, d)
    {
      var record := s.records[i];
      var hit := AnyTokenWithin(Tokens(record, s.separator), pattern, d);
      if hit {
        matches := matches + [record];
      }
    }
    return Success(matches);
  }

  /** Whether some field of a record is within d of the pattern, stopping at
      the first one that is. */
  method AnyTokenWithin(tokens: seq<string>, pattern: string, d: nat) returns (found: bool)
    ensures found <==> exists t :: t in tokens && Within(t, pattern, d)
  {
    found := false;
    var k := 0;
    while k < |tokens| && !found
      invariant 0 <= k <= |tokens|
      invariant found <==> exists t :: t in tokens[..k] && Within(t, pattern, d)
    {
      var distance := BoundedDistance(tokens[k], pattern, d);
      assert tokens[..k + 1] == tokens[..k] + [tokens[k]];
      if distance.Some? {
        found := true;
        assert tokens[k] in tokens[..k + 1] && Within(tokens[k], pattern, d);
      }
      k := k + 1;
    }
    if !found {
      assert tokens[..k] == tokens;
    }
  }
}
