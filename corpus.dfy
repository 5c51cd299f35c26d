/**
  The corpus file: the caller writes one record per line, each followed by a
  newline, and the loader reads the file back into the ordered sequence of
  records with the newlines stripped.
 */
module Corpus {
  import opened Outcomes
  import opened Tokenizer

  const Newline: string := "\n"

  /** The file content after each line has been written with its newline. */
  function Written(lines: seq<string>): string {
    if |lines| == 0 then "" else Written(lines[..|lines| - 1]) + lines[|lines| - 1] + Newline
  }

  /** Writes the lines one after another, each followed by a newline. */
  method WriteLines(lines: seq<string>) returns (content: string)
    ensures content == Written(lines)
  {
    content := "";
    for i := 0 to |lines|
      invariant content == Written(lines[..i])
    {
      assert lines[..i + 1][..i] == lines[..i];
      content := content + lines[i] + Newline;
    }
    assert lines[..|lines|] == lines;
  }

  /** The records of a file: its lines without their newlines. An empty file
      holds no record, any other file at least one; a last line without a
      newline is still a record, and no record holds a newline. */
  function Load(content: string): (records: seq<string>)
    ensures |records| == 0 <==> content == ""
    ensures forall r :: r in records ==> '\n' !in r
    decreases |content|
  {
    if content == "" then []
    else match Find(content, Newline, 0)
      case None =>
        NoNewlineBefore(content, |content|);
        [content]
      case Some(k) =>
        NoNewlineBefore(content, k);
        [content[..k]] + Load(content[k + 1..])
  }

  /** Text before the first newline holds no newline. */
  lemma NoNewlineBefore(content: string, k: nat)
    requires k <= |content|
    requires forall m: nat :: m < k ==> !OccursAt(content, Newline, m)
    ensures '\n' !in content[..k]
  {
    forall m | 0 <= m < k
      ensures content[..k][m] != '\n'
    {
      assert !OccursAt(content, Newline, m);
      assert content[m..m + 1][0] == content[m];
    }
  }

  /** Written in front of more content, a line without a newline is the first
      record, and the rest is loaded from what follows it. */
  lemma LoadFirstLine(line: string, rest: string)
    requires '\n' !in line
    ensures Load(line + Newline + rest) == [line] + Load(rest)
  {
    var content := line + Newline + rest;
    var n := |line|;
    forall m: nat | m < n
      ensures !OccursAt(content, Newline, m)
    {
      assert content[m..m + 1][0] == line[m];
    }
    assert content[n..n + 1] == Newline;
    FindFirst(content, Newline, 0, n);
    assert content[..n] == line && content[n + 1..] == rest;
  }

  /** Reading back what was written gives the lines back, provided no line
      holds a newline of its own. */
  lemma {:induction false} LoadWritten(lines: seq<string>)
    requires forall l :: l in lines ==> '\n' !in l
    ensures Load(Written(lines)) == lines
    decreases |lines|
  {
    if |lines| > 0 {
      WrittenFirst(lines);
      LoadFirstLine(lines[0], Written(lines[1..]));
      LoadWritten(lines[1..]);
    }
  }

  /** The written content starts with the first line and its newline. */
  lemma {:induction false} WrittenFirst(lines: seq<string>)
    requires |lines| > 0
    ensures Written(lines) == lines[0] + Newline + Written(lines[1..])
    decreases |lines|
  {
    if |lines| > 1 {
      var init := lines[..|lines| - 1];
      WrittenFirst(init);
      assert init[1..] == lines[1..][..|lines| - 2];
    }
  }
}
