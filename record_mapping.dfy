/** What `GetData` makes of a payload: it is split into lines at every '\r' and every '\n',
    line 0 is the header and is dropped, and every later line whose trimmed form is not empty
    is handed, untrimmed, to the record constructor, in payload order. */
module RecordMapping {
  import opened DotNetText

  /** The line separators `GetData` splits on. */
  const LineBreaks: set<char> := {'\r', '\n'}

  /** The payload's lines, as `Split` returns them: empty entries kept, so "\r\n" leaves an
      empty line between its two characters. */
  function Lines(payload: string): (lines: seq<string>)
    ensures |lines| >= 1
  {
    Split(payload, LineBreaks)
  }

  /** The test `GetData` applies to each line: is anything left once it is trimmed? */
  predicate HasContent(line: string) {
    |Trim(line)| > 0
  }

  /** The positions among the first `n` lines that reach the constructor, in increasing order:
      never 0, the header, and only lines with content. */
  function DataLineIndices(lines: seq<string>, n: nat): (indices: seq<nat>)
    requires n <= |lines|
    ensures forall k :: 0 <= k < |indices| ==> 1 <= indices[k] < n && HasContent(lines[indices[k]])
    ensures forall k, m :: 0 <= k < m < |indices| ==> indices[k] < indices[m]
  {
    if n <= 1 then []
    else
      var earlier := DataLineIndices(lines, n - 1);
      if HasContent(lines[n - 1]) then earlier + [n - 1] else earlier
  }

  /** The records built from the first `n` lines. */
  function RecordsUpTo<T>(lines: seq<string>, n: nat, construct: string -> T): seq<T>
    requires n <= |lines|
  {
    var indices := DataLineIndices(lines, n);
    seq(|indices|, k requires 0 <= k < |indices| => construct(lines[indices[k]]))
  }

  /** The records `GetData` returns for a payload: one per data line, built from that line. */
  function Records<T>(payload: string, construct: string -> T): seq<T> {
    RecordsUpTo(Lines(payload), |Lines(payload)|, construct)
  }

  /** Looking at one more line past the header adds its record when it has content. */
  lemma RecordsUpToStep<T>(lines: seq<string>, n: nat, construct: string -> T)
    requires 1 <= n < |lines|
    ensures RecordsUpTo(lines, n + 1, construct)
         == RecordsUpTo(lines, n, construct)
            + (if |Trim(lines[n])| > 0 then [construct(lines[n])] else [])
  {
  }

  /** Every line after the header that is not blank reaches the constructor: a position is
      among the data lines exactly when it is past the header and its line has a character
      that is not white space. */
  lemma {:induction false} DataLineIndicesExact(lines: seq<string>, n: nat, i: nat)
    requires n <= |lines|
    ensures i in DataLineIndices(lines, n) <==> 1 <= i < n && !AllWhiteSpace(lines[i])
  {
    if n > 1 {
      DataLineIndicesExact(lines, n - 1, i);
    }
    if 1 <= i < n {
      TrimEmptyIffAllWhiteSpace(lines[i]);
    }
  }

  /** The positions of the lines after the header that are not blank. */
  function ContentLines(lines: seq<string>, n: nat): set<nat>
    requires n <= |lines|
  {
    set i: nat | 1 <= i < n && HasContent(lines[i])
  }

  /** One more line adds its position when it has content. */
  lemma ContentLinesStep(lines: seq<string>, n: nat)
    requires 1 <= n < |lines|
    ensures n !in ContentLines(lines, n)
    ensures ContentLines(lines, n + 1)
         == if HasContent(lines[n]) then ContentLines(lines, n) + {n} else ContentLines(lines, n)
  {
  }

  /** There are as many records as lines after the header that are not blank. */
  lemma {:induction false} DataLineCount(lines: seq<string>, n: nat)
    requires n <= |lines|
    ensures |DataLineIndices(lines, n)| == |ContentLines(lines, n)|
  {
    if n > 1 {
      DataLineCount(lines, n - 1);
      ContentLinesStep(lines, n - 1);
    } else {
      assert ContentLines(lines, n) == {};
    }
  }

  /** Only lines past the header are ever looked at, so the header's text decides nothing. */
  lemma {:induction false} DataLineIndicesIgnoreHeader(lines: seq<string>, other: seq<string>, n: nat)
    requires 1 <= n <= |lines| == |other| && lines[1..] == other[1..]
    ensures DataLineIndices(lines, n) == DataLineIndices(other, n)
  {
    if n > 1 {
      DataLineIndicesIgnoreHeader(lines, other, n - 1);
      assert lines[n - 1] == lines[1..][n - 2] == other[n - 1];
    }
  }

  /** The header line's text never reaches the constructor: two payloads that differ only in
      their first line give the same records. */
  lemma HeaderIgnored<T>(header: string, other: string, sep: char, body: string, construct: string -> T)
    requires sep in LineBreaks && NoneOf(header, LineBreaks) && NoneOf(other, LineBreaks)
    ensures Records(header + [sep] + body, construct) == Records(other + [sep] + body, construct)
  {
    SplitAppend(header, sep, body, LineBreaks);
    SplitAppend(other, sep, body, LineBreaks);
    SplitNoSeparator(header, LineBreaks);
    SplitNoSeparator(other, LineBreaks);
    var lines := Lines(header + [sep] + body);
    var others := Lines(other + [sep] + body);
    assert lines[1..] == Lines(body) == others[1..];
    DataLineIndicesIgnoreHeader(lines, others, |lines|);
  }

  /** A payload with no line break, the empty payload among them, is all header: no records. */
  lemma NoLineBreakNoRecords<T>(payload: string, construct: string -> T)
    requires NoneOf(payload, LineBreaks)
    ensures Records(payload, construct) == []
  {
    SplitNoSeparator(payload, LineBreaks);
  }

  /** "\r\n" yields an empty entry between the lines it separates, which is blank. */
  lemma CrLfEmptyEntry(before: string, after: string)
    ensures Lines(before + "\r\n" + after) == Lines(before) + [[]] + Lines(after)
    ensures !HasContent([])
  {
    assert before + "\r\n" + after == before + ['\r'] + ([] + ['\n'] + after);
    SplitAppend(before, '\r', [] + ['\n'] + after, LineBreaks);
    SplitAppend([], '\n', after, LineBreaks);
    assert [] + ['\n'] + after == ['\n'] + after;
  }

  /** Lines that hold no line break, each followed by '\n', come back as themselves, followed
      by the empty entry after the last break. */
  lemma {:induction false} LinesOfTerminatedLines(lines: seq<string>)
    requires forall i :: 0 <= i < |lines| ==> NoneOf(lines[i], LineBreaks)
    ensures Lines(Terminated(lines)) == lines + [[]]
  {
    if lines == [] {
      assert Split([], LineBreaks) == [[]];
    } else {
      LinesOfTerminatedLines(lines[1..]);
      SplitNoSeparator(lines[0], LineBreaks);
      SplitAppend(lines[0], '\n', Terminated(lines[1..]), LineBreaks);
      assert [lines[0]] + (lines[1..] + [[]]) == lines + [[]];
    }
  }

  /** Each line followed by '\n'. */
  function Terminated(lines: seq<string>): string {
    if lines == [] then [] else lines[0] + ['\n'] + Terminated(lines[1..])
  }

  lemma SampleLines(payload: string)
    requires payload == "header\nA,1\n\nB,2\n"
    ensures Lines(payload) == ["header", "A,1", "", "B,2", ""]
  {
    var parts := ["header", "A,1", "", "B,2"];
    assert Terminated(parts) == payload;
    LinesOfTerminatedLines(parts);
    assert parts + [[]] == ["header", "A,1", "", "B,2", ""];
  }

  lemma SampleIndices(lines: seq<string>)
    requires |lines| == 5 && HasContent(lines[1]) && !HasContent(lines[2])
    requires HasContent(lines[3]) && !HasContent(lines[4])
    ensures DataLineIndices(lines, 5) == [1, 3]
  {
    assert DataLineIndices(lines, 1) == [];
    assert DataLineIndices(lines, 2) == [1];
    assert DataLineIndices(lines, 3) == [1];
    assert DataLineIndices(lines, 4) == [1, 3];
  }

  /** A header, two data lines, a blank line between them and a final line break give exactly
      the two records, built from the two data lines. */
  lemma HeaderBlankAndTrailingBreak<T>(payload: string, construct: string -> T)
    requires payload == "header\nA,1\n\nB,2\n"
    ensures Records(payload, construct) == [construct("A,1"), construct("B,2")]
  {
    SampleLines(payload);
    var lines := Lines(payload);
    assert HasContent(lines[1]) && HasContent(lines[3]) && !HasContent(lines[2]) && !HasContent(lines[4]);
    SampleIndices(lines);
  }
}
