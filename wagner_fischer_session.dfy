/**
  The distance computation exposed on a searcher, exercised on a searcher
  opened over an empty file: the searcher holds no record, and every distance
  comes from the two strings alone.
 */
module WagnerFischerSession {
  import opened Outcomes
  import opened Levenshtein
  import opened DistanceEngine
  import opened Corpus
  import opened Search
  import opened WagnerFischerValues

  /** Opens the empty file with the empty separator, then asks for the eight
      distances in order. */
  method OnEmptyCorpus(files: map<string, string>, path: string) returns (s: Searcher, distances: seq<nat>)
    requires path in files && files[path] == ""
    ensures s == Searcher([], "")
    ensures distances == [1, 3, 1, 3, 3, 4, 4, 5]
  {
    var file := Open(files, path, "");
    assert Written([]) == "";
    OpenWritten(files, path, [], "");
    s := file.value;
    var a, b, c := "a", "abc", "";
    ToEmpty(a, b);
    var d1 := WagnerFischer(a, c);
    var d2 := WagnerFischer(b, c);
    var e, f := "islander", "slander";
    IslanderVsSlander(e, f);
    var d3 := WagnerFischer(e, f);
    var g, h := "mart", "karma";
    MartVsKarma(g, h);
    var d4 := WagnerFischer(g, h);
    var k, l := "sitting", "kitten";
    SittingVsKitten(k, l);
    var d5 := WagnerFischer(k, l);
    var m, n, o := "football", "ball", "foot";
    FootballVsBallAndFoot(m, n, o);
    var d6 := WagnerFischer(m, n);
    var d7 := WagnerFischer(m, o);
    var p, q := "intention", "execution";
    IntentionVsExecution(p, q);
    var d8 := WagnerFischer(p, q);
    distances := [d1, d2, d3, d4, d5, d6, d7, d8];
  }
}
