/**
  Splitting one record into the fields that are matched against the pattern.
  The empty separator leaves the record whole; any other separator is a
  literal string, and the record is cut at each of its non-overlapping
  occurrences, scanning left to right.
 */
module Tokenizer {
  import opened Outcomes

  /** The separator occurs in s starting at position k. */
  predicate OccursAt(s: string, sep: string, k: nat) {
    k + |sep| <= |s| && s[k..k + |sep|] == sep
  }

  predicate Contains(s: string, sep: string) {
    exists k :: 0 <= k <= |s| && OccursAt(s, sep, k)
  }

  /** The first occurrence of sep in s at or after `from`, if any. */
  function Find(s: string, sep: string, from: nat): (r: Option<nat>)
    requires from <= |s|
    ensures r.Some? ==> from <= r.value && OccursAt(s, sep, r.value)
    ensures forall k: nat :: from <= k && (r.Some? ==> k < r.value) ==> !OccursAt(s, sep, k)
    decreases |s| - from
  {
    if OccursAt(s, sep, from) then Some(from)
    else if from == |s| then None
    else Find(s, sep, from + 1)
  }

  /** The pieces of s between the occurrences of a non-empty separator, in
      order. Empty pieces are kept: a leading, trailing or doubled separator
      yields an empty field, so the pieces always join back into s. There is
      at least one piece, and no piece contains the separator. */
  function Split(s: string, sep: string): (pieces: seq<string>)
    requires |sep| > 0
    ensures |pieces| > 0
    ensures forall t :: t in pieces ==> !Contains(t, sep)
    decreases |s|
  {
    match Find(s, sep, 0)
    case None =>
      PrefixBeforeFirst(s, sep, |s|);
      assert s[..|s|] == s;
      [s]
    case Some(k) =>
      PrefixBeforeFirst(s, sep, k);
      [s[..k]] + Split(s[k + |sep|..], sep)
  }

  /** The pieces with the separator put back between them. */
  function Join(pieces: seq<string>, sep: string): string
    requires |pieces| > 0
  {
    if |pieces| == 1 then pieces[0] else pieces[0] + sep + Join(pieces[1..], sep)
  }

  /** Splitting loses nothing: the pieces join back into the record. */
  lemma {:induction false} SplitJoin(s: string, sep: string)
    requires |sep| > 0
    ensures |Split(s, sep)| > 0 && Join(Split(s, sep), sep) == s
    decreases |s|
  {
    match Find(s, sep, 0)
    case None =>
    case Some(k) =>
      var rest := s[k + |sep|..];
      var pieces := Split(s, sep);
      assert pieces == [s[..k]] + Split(rest, sep);
      SplitJoin(rest, sep);
      assert pieces[1..] == Split(rest, sep);
      assert Join(pieces, sep) == s[..k] + sep + Join(Split(rest, sep), sep);
      assert s == s[..k] + s[k..k + |sep|] + rest;
  }

  /** The text before the first occurrence holds no occurrence of its own. */
  lemma PrefixBeforeFirst(s: string, sep: string, k: nat)
    requires k <= |s| && |sep| > 0
    requires forall m: nat :: m < k ==> !OccursAt(s, sep, m)
    ensures !Contains(s[..k], sep)
  {
    forall m: nat | m <= k
      ensures !OccursAt(s[..k], sep, m)
    {
      if m + |sep| <= k {
        assert m < k && !OccursAt(s, sep, m);
        assert s[..k][m..m + |sep|] == s[m..m + |sep|];
      }
    }
  }

  /** The converse of SplitJoin for a one-character separator: pieces that do
      not contain it are recovered from their join. */
  lemma {:induction false} JoinSplit(pieces: seq<string>, sep: string)
    requires |pieces| > 0 && |sep| == 1
    requires forall t :: t in pieces ==> sep[0] !in t
    ensures Split(Join(pieces, sep), sep) == pieces
  {
    var s := Join(pieces, sep);
    var first := pieces[0];
    NoOccurrence(first, sep);
    if |pieces| > 1 {
      var rest := Join(pieces[1..], sep);
      assert s == first + sep + rest;
      forall m: nat | m < |first|
        ensures !OccursAt(s, sep, m)
      {
        assert s[m..m + 1] == first[m..m + 1];
      }
      assert s[|first|..|first| + 1] == sep;
      FindFirst(s, sep, 0, |first|);
      assert s[..|first|] == first && s[|first| + 1..] == rest;
      JoinSplit(pieces[1..], sep);
      assert Split(s, sep) == [first] + pieces[1..];
    }
  }

  /** Find reports the first occurrence at or after `from`. */
  lemma {:induction false} FindFirst(s: string, sep: string, from: nat, k: nat)
    requires from <= k <= |s| && OccursAt(s, sep, k)
    requires forall m: nat :: from <= m < k ==> !OccursAt(s, sep, m)
    ensures Find(s, sep, from) == Some(k)
    decreases k - from
  {
    if from < k {
      FindFirst(s, sep, from + 1, k);
    }
  }

  /** A string without the separator's only character does not contain it. */
  lemma NoOccurrence(t: string, sep: string)
    requires |sep| == 1 && sep[0] !in t
    ensures forall m: nat :: !OccursAt(t, sep, m)
    ensures Find(t, sep, 0) == None
  {
    forall m: nat
      ensures !OccursAt(t, sep, m)
    {
      if m + 1 <= |t| {
        assert t[m..m + 1][0] == t[m];
      }
    }
  }

  /** The fields of a record. With the empty separator the whole record is the
      one field. With any other separator, a record that does not contain it
      has no field at all, and one that does is cut into its pieces. */
  function Tokens(record: string, separator: string): (r: seq<string>)
    ensures separator != "" ==> (r == [] <==> !Contains(record, separator))
  {
    if separator == "" then [record]
    else match Find(record, separator, 0)
      case None => []
      case Some(_) => Split(record, separator)
  }

  /** What the fields of a record are, in terms of the record itself. */
  lemma TokensOfRecord(record: string, separator: string)
    ensures separator == "" ==> Tokens(record, separator) == [record]
    ensures separator != "" && Contains(record, separator) ==>
      Join(Tokens(record, separator), separator) == record
    ensures separator != "" ==> forall t :: t in Tokens(record, separator) ==> !Contains(t, separator)
  {
    if separator != "" {
      SplitJoin(record, separator);
    }
  }

  /** A record that does not contain a one-character separator has no field. */
  lemma TokensWithoutSeparator(record: string, sep: string)
    requires |sep| == 1 && sep[0] !in record
    ensures Tokens(record, sep) == []
  {
    NoOccurrence(record, sep);
  }

  /** Pieces joined with a one-character separator they do not contain come
      back as the fields of the joined record. */
  lemma TokensOfJoin(pieces: seq<string>, sep: string)
    requires |pieces| > 1 && |sep| == 1
    requires forall t :: t in pieces ==> sep[0] !in t
    ensures Tokens(Join(pieces, sep), sep) == pieces
  {
    var s := Join(pieces, sep);
    var n := |pieces[0]|;
    assert s == pieces[0] + sep + Join(pieces[1..], sep);
    assert s[n..n + 1] == sep;
    assert OccursAt(s, sep, n);
    JoinSplit(pieces, sep);
  }
}
