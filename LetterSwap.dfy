/**
 * lab2/task_2.py: every 'a' of a line becomes 'o' and every 'A' becomes 'O'
 * (two chained `str.replace` calls); the program reports a replacement count,
 * the length of the line and the modified line.
 */
module LetterSwap {
  import Text

  /** Independent per-character reference for the two chained replacements. */
  function SwapChar(c: char): char
  {
    if c == 'a' then 'o' else if c == 'A' then 'O' else c
  }

  /** `input_string.replace('a', 'o').replace('A', 'O')`. */
  function Modified(s: string): (r: string)
    ensures |r| == |s|
    ensures forall i :: 0 <= i < |s| ==> r[i] == SwapChar(s[i])
    ensures 'a' !in r && 'A' !in r
  {
    Text.ReplaceChar(Text.ReplaceChar(s, 'a', 'o'), 'A', 'O')
  }

  /** Replacing again changes nothing. */
  lemma ModifiedIdempotent(s: string)
    ensures Modified(Modified(s)) == Modified(s)
  {
  }

  /** What the program prints: the count, the number of characters and the new line. */
  datatype Report = Report(countReplace: nat, totalSymbols: nat, modifiedString: string)

  /** The program as written (lines 5-12): only lower-case 'a' is counted. */
  function Summary(s: string): (r: Report)
    ensures r.countReplace == Text.Count(s, 'a')
    ensures r.countReplace + Text.Count(s, 'A') == Differences(s, Modified(s))
    ensures r.totalSymbols == |s|
    ensures r.modifiedString == Modified(s)
  {
    ChangedPositions(s);
    Report(Text.Count(s, 'a'), |s|, Modified(s))
  }

  /** Number of positions at which two strings of equal length differ. */
  function Differences(s: string, t: string): nat
    requires |s| == |t|
  {
    if s == [] then 0 else (if s[0] != t[0] then 1 else 0) + Differences(s[1..], t[1..])
  }

  /** The replacement changes exactly the characters 'a' and 'A'. */
  lemma {:induction false} ChangedPositions(s: string)
    ensures Differences(s, Modified(s)) == Text.Count(s, 'a') + Text.Count(s, 'A')
  {
    if s != [] {
      assert Modified(s)[1..] == Modified(s[1..]);
      ChangedPositions(s[1..]);
    }
  }

  /**
   * The printed count is labelled "a(A)" but counts only 'a': on "A" one
   * character is replaced while the count printed is 0.
   */
  lemma SummaryMissesUpperCase()
    ensures Summary("A").countReplace == 0
    ensures Differences("A", Modified("A")) == 1
  {
    ChangedPositions("A");
  }

  /** The count the message promises: every replaced character, 'a' and 'A' alike. */
  function CorrectedSummary(s: string): (r: Report)
    ensures r.countReplace == Differences(s, Modified(s))
    ensures r.countReplace == Text.Count(s, 'a') + Text.Count(s, 'A')
    ensures r.totalSymbols == |s|
    ensures r.modifiedString == Modified(s)
  {
    ChangedPositions(s);
    Report(Text.Count(s, 'a') + Text.Count(s, 'A'), |s|, Modified(s))
  }

  /** The two counts agree exactly on lines without an upper-case 'A'. */
  lemma SummariesAgreeWithoutUpperA(s: string)
    ensures Summary(s) == CorrectedSummary(s) <==> 'A' !in s
  {
  }
}
