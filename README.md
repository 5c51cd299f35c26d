# fastzy: a verified model of the fuzzy-lookup core

fastzy is a fuzzy lookup engine. A searcher is built from a line-oriented
corpus file and a separator. A lookup takes a pattern and a maximum distance,
and returns every record (line) that has at least one field within that
Levenshtein distance of the pattern. The searcher also exposes the reference
Wagner-Fischer distance on its own. The engine itself is a compiled extension
that is not part of this model. What is modelled is the behaviour its test
suite, `tests/test_fastzy.py`, pins down.

The model has these parts:

- `outcomes.dfy` (`Outcomes`): `Option` and `Result`, and the two error kinds.
  - `NotFound` is for a file that cannot be opened.
  - `InvalidArgument` is for a negative maximum distance.
- `levenshtein.dfy` (`Levenshtein`): the specification.
  - `Dist(a, b, i, j)` is cell (i, j) of the Wagner-Fischer table, defined by its recurrence. `Lev(a, b)` is the bottom-right cell.
  - It holds the properties proved about them: bounds, distance to the empty string, zero exactly on equal strings, symmetry, the cost of deleting a prefix, a suffix or one character, common suffixes, and a character-count lower bound.
- `distance_engine.dfy` (`DistanceEngine`): the two distance computations.
  - `WagnerFischer` fills a full `array2` table row by row and is proved to return `Lev(a, b)`.
  - `BoundedDistance` keeps two rolling rows and evaluates only the cells within d of the diagonal. It stops as soon as a whole row exceeds d. It is proved to return `Some(Lev(a, b))` when that is at most d, and `None` otherwise.
- `tokenizer.dfy` (`Tokenizer`): splitting a record into fields.
  - The empty separator leaves the record whole.
  - Any other separator is a literal string that cuts the record at each non-overlapping occurrence, left to right.
- `corpus.dfy` (`Corpus`): writing and reading the corpus file.
  - The write loop puts each line followed by a newline.
  - The loader reads the records back.
  - The two are proved to round-trip.
- `search.dfy` (`Search`): the searcher and the lookup.
  - Construction is `Open`, taking a map from readable paths to contents.
  - The lookup is specified as a filter (`Lookup`, with a multiset contract) and implemented as an imperative pass (`Scan`, which uses `BoundedDistance` with early exit per record).
  - `WriteOpenLookup` is the test suite's helper: write, open, look up.
- The expected values from the test suite, each proved about the model:
  - `wagner_fischer_values.dfy` and `wagner_fischer_session.dfy` cover the distance values asserted in `test_wagner_fischer`.
  - `sanity_distances.dfy`, `sanity_lookups.dfy` and `sanity_session.dfy` cover the six lookups of `test_sanity` over the eleven-line corpus.

Rules the model fixes where the test suite leaves them open:

- **Empty fields are kept.** A leading, trailing or doubled separator yields an empty field, so the fields always join back into the record (`Tokenizer.SplitJoin`). The tests never contain such records.
- **A record without a non-empty separator has no field.** With separator `"."`, pattern `"fourth"` and threshold 4, the expected result omits `"fourthline"`, although `Lev("fourthline", "fourth") == 4` (`SanitySession.UndottedRecordHasNoField`). So a record that does not contain the separator contributes no field, as that expected result requires, rather than one field holding the whole record.
- **The result keeps corpus order and duplicates.** The tests compare results as multisets. `Lookup` states the multiplicity of every string. `Matching` keeps corpus order, and the six lookups are proved as exact sequences.
- **Records end at `'\n'`.** The file content is a string. A last line without a newline is still a record, and an empty file holds no record.

## Model

| member | source | states |
|---|---|---|
| Levenshtein.Lev | tests/test_fastzy.py:127-169 | the edit distance, the corner of the Wagner-Fischer table Dist: it lies between the length difference and the longer length, and it is 0 exactly when the two strings are equal |
| Levenshtein.CornerZeroIff | tests/test_fastzy.py:82-91 | the corner of the table is 0 exactly when the two strings are equal |
| Levenshtein.DistBounds | tests/test_fastzy.py:127-169 | every cell lies between the difference of the two prefix lengths and the longer length |
| Levenshtein.LevToEmpty | tests/test_fastzy.py:138-145 | the distance between a string and the empty string, either way round, is its length |
| Levenshtein.DistZeroMeansEqualPrefixes | tests/test_fastzy.py:82-91 | a zero cell means equal prefixes of equal length |
| Levenshtein.DistSymmetric | tests/test_fastzy.py:127-169 | the table of (b, a) is the transpose of the table of (a, b) |
| Levenshtein.LevSymmetric | tests/test_fastzy.py:127-169 | the distance is symmetric in its two arguments |
| Levenshtein.LevStripPrefix | tests/test_fastzy.py:146-149 | deleting a prefix costs exactly its length (one deletion for islander/slander, four for football/ball) |
| Levenshtein.LevStripSuffix | tests/test_fastzy.py:162-165 | deleting a suffix costs exactly its length (football/foot) |
| Levenshtein.LevInsertOne | tests/test_fastzy.py:72-80 | inserting one character anywhere costs exactly one edit (forthline/fourthline) |
| Levenshtein.DistDiagonalRun | tests/test_fastzy.py:127-169 | a run of matching characters along the diagonal leaves the cell unchanged |
| Levenshtein.DistMatch | tests/test_fastzy.py:127-169 | a common character at the end of both prefixes costs nothing |
| Levenshtein.DistRightStep | tests/test_fastzy.py:127-169 | removing the last character of the second prefix raises a cell by at most one |
| Levenshtein.LevCommonSuffix | tests/test_fastzy.py:166-169 | a common suffix does not change the distance (intention/execution share "tion") |
| Levenshtein.DistAtLeastCountGap | tests/test_fastzy.py:127-169 | every edit changes the number of characters from a set by at most one, so the counts differ by at most the cell |
| Levenshtein.LevAtLeastCountGap | tests/test_fastzy.py:72-125 | the distance is at least the difference in how many characters from a set the two strings hold |
| Levenshtein.RowMinimumBoundsLev | tests/test_fastzy.py:114-125 | once every cell of a row exceeds a bound, the distance exceeds it too (rows never get cheaper going down) |
| DistanceEngine.WagnerFischer | tests/test_fastzy.py:127-169 | filling the whole (|a| + 1) x (|b| + 1) table row by row returns Lev(a, b) |
| DistanceEngine.FillRow | tests/test_fastzy.py:127-169 | one row of the table is filled with the true cells and no other row changes |
| DistanceEngine.BandCellIsCappedDist | tests/test_fastzy.py:114-125 | leaving out cells further than d from the diagonal loses nothing: each banded cell is the true cell capped at d + 1 |
| DistanceEngine.CappedStep | tests/test_fastzy.py:114-125 | the recurrence still holds when every cell is capped at d + 1 |
| DistanceEngine.BoundedDistance | tests/test_fastzy.py:27-30 | the banded, early-exit computation returns Some(Lev(a, b)) when Lev(a, b) <= d and None otherwise |
| DistanceEngine.NextBandRow | tests/test_fastzy.py:27-30 | one banded row is computed into the spare array and reports whether any cell is within d |
| DistanceEngine.FillBand | tests/test_fastzy.py:27-30 | the band cells of a row hold the capped true cells, and the report is true exactly when one is within d |
| Tokenizer.Find | tests/test_fastzy.py:93-125 | the reported position is an occurrence of the separator and none occurs before it |
| Tokenizer.Tokens | tests/test_fastzy.py:64-125 | with a non-empty separator, a record has no field exactly when it does not contain the separator |
| Tokenizer.TokensOfRecord | tests/test_fastzy.py:64-125 | the empty separator gives the record as its one field; with any other separator no field contains it, and when the record contains the separator its fields join back into the record |
| Tokenizer.Split | tests/test_fastzy.py:93-125 | the cut at the leftmost non-overlapping occurrences gives at least one piece, and no piece contains the separator |
| Tokenizer.SplitJoin | tests/test_fastzy.py:93-125 | the pieces of a split join back into the record |
| Tokenizer.JoinSplit | tests/test_fastzy.py:93-125 | pieces without a one-character separator are recovered by splitting their join |
| Tokenizer.TokensOfJoin | tests/test_fastzy.py:93-125 | a record made by joining two or more such pieces has exactly those pieces as fields |
| Tokenizer.TokensWithoutSeparator | tests/test_fastzy.py:114-125 | a record that does not contain a one-character separator has no field |
| Corpus.WriteLines | tests/test_fastzy.py:18-21 | the loop writes each line followed by a newline, giving the content Written(lines) |
| Corpus.Load | tests/test_fastzy.py:23-26 | the loaded records hold no newline, and there is no record exactly when the file is empty |
| Corpus.LoadFirstLine | tests/test_fastzy.py:18-26 | a line and its newline in front of more content load as that line followed by the records of the rest |
| Corpus.LoadWritten | tests/test_fastzy.py:18-26 | loading what was written gives back exactly the lines written, in order, when no line holds a newline |
| Search.Open | tests/test_fastzy.py:36-45 | construction fails with NotFound exactly when the path cannot be read; otherwise it keeps the separator and its records hold no newline |
| Search.OpenWritten | tests/test_fastzy.py:130-136 | a file written line by line opens as exactly those lines; an empty file opens as a searcher with no record |
| Search.MatchingCounts | tests/test_fastzy.py:31-34 | each matching record occurs in the result as often as in the corpus, and nothing else occurs in it |
| Search.Lookup | tests/test_fastzy.py:27-34 | a negative maximum distance is an InvalidArgument failure; otherwise every string occurs in the result as often as in the corpus if it matches and not at all if it does not |
| Search.LookupMonotone | tests/test_fastzy.py:103-125 | raising the threshold never removes a record: the result at d1 is a sub-multiset of the result at d2 >= d1 |
| Search.Within | tests/test_fastzy.py:27-30 | a field equal to the pattern always qualifies, and one whose length differs from the pattern's by more than d never does |
| Search.WholeRecordMatches | tests/test_fastzy.py:64-91 | with the empty separator a record matches exactly when the whole record is within d of the pattern |
| Search.WholeRecordTooFar | tests/test_fastzy.py:64-91 | with the empty separator a record whose length differs from the pattern's by more than d never matches |
| Search.UnsplitRecordNeverMatches | tests/test_fastzy.py:114-125 | with a one-character separator, a record that does not contain it never matches |
| Search.TwoFieldRecordMatches | tests/test_fastzy.py:93-125 | a record made of two fields matches exactly when one of the two fields is within d |
| Search.WriteOpenLookup | tests/test_fastzy.py:10-34 | writing the lines, opening the file and looking up gives the lookup over exactly those lines |
| Search.Scan | tests/test_fastzy.py:27-30 | the pass over the records, stopping at the first qualifying field of each, returns Lookup(s, pattern, maxDistance) |
| Search.AnyTokenWithin | tests/test_fastzy.py:27-30 | the early-exit loop reports true exactly when some field is within d of the pattern |
| WagnerFischerValues.ToEmpty | tests/test_fastzy.py:138-145 | "a" and "abc" are 1 and 3 from the empty string |
| WagnerFischerValues.IslanderVsSlander | tests/test_fastzy.py:146-149 | "islander" and "slander" are 1 apart |
| WagnerFischerValues.MartVsKarma | tests/test_fastzy.py:150-153 | "mart" and "karma" are 3 apart |
| WagnerFischerValues.SittingVsKitten | tests/test_fastzy.py:154-157 | "sitting" and "kitten" are 3 apart |
| WagnerFischerValues.FootballVsBallAndFoot | tests/test_fastzy.py:158-165 | "football" is 4 from both "ball" and "foot" |
| WagnerFischerValues.IntentionVsExecution | tests/test_fastzy.py:166-169 | "intention" and "execution" are 5 apart |
| WagnerFischerSession.OnEmptyCorpus | tests/test_fastzy.py:127-169 | over an empty file the searcher holds no record, and the eight distances are 1, 3, 1, 3, 3, 4, 4 and 5 |
| SanityDistances.FirstlineVsForthline | tests/test_fastzy.py:72-80 | "firstline" is at least 2 from "forthline", so it is outside the threshold |
| SanityDistances.SecondlineVsForthline | tests/test_fastzy.py:72-80 | "secondline" is at least 2 from "forthline", so it is outside the threshold |
| SanityDistances.ThirdlineVsForthline | tests/test_fastzy.py:72-80 | "thirdline" is at least 2 from "forthline", so it is outside the threshold |
| SanityDistances.FifthlineVsForthline | tests/test_fastzy.py:72-80 | "fifthline" is at least 2 from "forthline", so it is outside the threshold |
| SanityDistances.FirstDotLineVsForthline | tests/test_fastzy.py:72-80 | "first.line" is at least 2 from "forthline", so it is outside the threshold |
| SanityDistances.ThirdDotLineVsForthline | tests/test_fastzy.py:72-80 | "third.line" is at least 2 from "forthline", so it is outside the threshold |
| SanityDistances.FifthDotLineVsForthline | tests/test_fastzy.py:72-80 | "fifth.line" is at least 2 from "forthline", so it is outside the threshold |
| SanityDistances.SecondlineVsFirstline | tests/test_fastzy.py:82-91 | "secondline" is at least 2 from "firstline", so it is outside the threshold |
| SanityDistances.ThirdlineVsFirstline | tests/test_fastzy.py:82-91 | "thirdline" is at least 2 from "firstline", so it is outside the threshold |
| SanityDistances.FourthlineVsFirstline | tests/test_fastzy.py:82-91 | "fourthline" is at least 2 from "firstline", so it is outside the threshold |
| SanityDistances.FifthlineVsFirstline | tests/test_fastzy.py:82-91 | "fifthline" is at least 2 from "firstline", so it is outside the threshold |
| SanityDistances.ThirdDotLineVsFirstline | tests/test_fastzy.py:82-91 | "third.line" is at least 2 from "firstline", so it is outside the threshold |
| SanityDistances.FifthDotLineVsFirstline | tests/test_fastzy.py:82-91 | "fifth.line" is at least 2 from "firstline", so it is outside the threshold |
| SanityDistances.LineVsFist | tests/test_fastzy.py:93-101 | "line" is at least 2 from "fist", so it is outside the threshold |
| SanityDistances.ThirdVsFist | tests/test_fastzy.py:93-101 | "third" is at least 2 from "fist", so it is outside the threshold |
| SanityDistances.FifthVsFist | tests/test_fastzy.py:93-101 | "fifth" is at least 2 from "fist", so it is outside the threshold |
| SanityDistances.LineVsFourth | tests/test_fastzy.py:103-125 | "line" is at least 5 from "fourth", so it is outside the threshold |
| SanityDistances.SecondVsFourth | tests/test_fastzy.py:103-125 | "second" is at least 5 from "fourth", so it is outside the threshold |
| SanityDistances.FirstVsFourth | tests/test_fastzy.py:103-125 | "first" and "fourth" are exactly 4 apart |
| SanityDistances.ThirdVsFourth | tests/test_fastzy.py:103-125 | "third" and "fourth" are exactly 5 apart |
| SanityDistances.FifthVsFourth | tests/test_fastzy.py:103-125 | "fifth" and "fourth" are exactly 3 apart |
| SanityLookups.OpenCorpus | tests/test_fastzy.py:18-26 | the written eleven-line corpus opens as exactly those lines, with any separator |
| SanityLookups.WholeLinesNearA | tests/test_fastzy.py:64-70 | the lookup succeeds with exactly these records: pattern "a", threshold 1, empty separator: no record |
| SanityLookups.WholeLinesNearForthline | tests/test_fastzy.py:72-80 | the lookup succeeds with exactly these records: pattern "forthline", threshold 1, empty separator: only "fourthline" |
| SanityLookups.WholeLinesNearFirstline | tests/test_fastzy.py:82-91 | the lookup succeeds with exactly these records: pattern "firstline", threshold 1, empty separator: "firstline" and "first.line" |
| SanityLookups.FieldsNearFist | tests/test_fastzy.py:93-101 | the lookup succeeds with exactly these records: pattern "fist", threshold 1, separator ".": only "first.line" |
| SanityLookups.FieldsWithin3OfFourth | tests/test_fastzy.py:103-112 | the lookup succeeds with exactly these records: pattern "fourth", threshold 3, separator ".": "fourth.line" and "fifth.line" |
| SanityLookups.FieldsWithin4OfFourth | tests/test_fastzy.py:114-125 | the lookup succeeds with exactly these records: pattern "fourth", threshold 4, separator ".": "first.line", "fourth.line", "fourthhhhh.line" and "fifth.line" |
| SanitySession.SixLookups | tests/test_fastzy.py:47-125 | writing the corpus, opening it and looking up six times gives the six expected results |
| SanitySession.UndottedRecordHasNoField | tests/test_fastzy.py:114-125 | "fourthline" is 4 from "fourth" and matches as a whole line, yet with separator "." it does not match |

## Left out

- File I/O is modelled by a map from readable paths to contents. This covers temporary files, flushing, and the error raised for a path that cannot be opened. Permissions, partial reads and encodings are not modelled. The error kind is `NotFound` rather than a runtime exception.
- The native extension binding and the unit-test harness are foreign-call glue and are not part of this model.
- Any multi-threaded sharding of the scan is not modelled: the lookup is one sequential pass over the records.
- Running time is not modelled. The banded computation is proved to return the right answer, not to be faster.
- Characters are Dafny `char`s. Byte encodings, Unicode normalisation and `'\r\n'` line endings are not modelled.
- `Levenshtein.Lev`: the triangle inequality is not proved. It needs a characterisation of the distance by edit scripts that the table recurrence alone does not give.
- `Search.Lookup`: the result is stated as a multiset and by membership, like the test suite's comparison. Its order, corpus order, is proved only for the six expected lookups.
- `Tokenizer.JoinSplit`, `Tokenizer.TokensOfJoin` and `Tokenizer.TokensWithoutSeparator` are stated for one-character separators only, the only kind the test suite uses. Longer separators are handled by `Split` and `SplitJoin`.
- `Search.Lookup`: a lookup with a negative maximum distance fails with `InvalidArgument`. The test suite never exercises this path.
