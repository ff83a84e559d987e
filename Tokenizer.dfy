/**
 * lab2/task_1.py, exercise 1.4: a line read from standard input is stripped, cut
 * at single spaces into maximal runs of non-space characters, each run is parsed
 * with `int()`, and the program reports the sum and the count of the numbers.
 */
module Tokenizer {
  import opened Wrappers
  import Text
  import IntParse

  /** Length of the leading run of non-space characters of `s`. */
  function RunLength(s: string): (n: nat)
    ensures n <= |s|
    ensures forall k :: 0 <= k < n ==> s[k] != ' '
    ensures n < |s| ==> s[n] == ' '
  {
    if s == [] || s[0] == ' ' then 0 else 1 + RunLength(s[1..])
  }

  /** The maximal runs of non-space characters of `s`, from left to right. */
  function Tokens(s: string): (ts: seq<string>)
    ensures forall i :: 0 <= i < |ts| ==> ts[i] != [] && ' ' !in ts[i]
    decreases |s|
  {
    if s == [] then []
    else if s[0] == ' ' then Tokens(s[1..])
    else
      var n := RunLength(s);
      [s[..n]] + Tokens(s[n..])
  }

  /** A non-empty word without spaces, followed by nothing or by a space, is the first token. */
  lemma {:induction false} WordThenSpace(w: string, rest: string)
    requires w != [] && ' ' !in w
    requires rest == [] || rest[0] == ' '
    ensures Tokens(w + rest) == [w] + Tokens(rest)
  {
    RunLengthOfWord(w, rest);
    assert (w + rest)[..|w|] == w;
    assert (w + rest)[|w|..] == rest;
  }

  lemma {:induction false} RunLengthOfWord(w: string, rest: string)
    requires ' ' !in w
    requires rest == [] || rest[0] == ' '
    ensures RunLength(w + rest) == |w|
  {
    if w != [] {
      assert (w + rest)[1..] == w[1..] + rest;
      RunLengthOfWord(w[1..], rest);
    }
  }

  /** Tokens seen from a space: the pending word, if any, closes and the space is skipped. */
  lemma SpaceStep(current: string, rest: string)
    requires ' ' !in current
    requires rest != [] && rest[0] == ' '
    ensures Tokens(current + rest) == (if current == [] then [] else [current]) + Tokens(rest[1..])
  {
    if current == [] {
      assert current + rest == rest;
    } else {
      WordThenSpace(current, rest);
    }
  }

  /** Appending one parsed token to a parsed prefix; a token `int()` rejects spoils every extension. */
  lemma ParseStep(done: seq<string>, acc: seq<int>, w: string, later: seq<string>)
    requires IntParse.ParseAll(done) == Some(acc)
    ensures IntParse.ParseInt(w).Some? ==> IntParse.ParseAll(done + [w]) == Some(acc + [IntParse.ParseInt(w).value])
    ensures IntParse.ParseInt(w).None? ==> IntParse.ParseAll(done + [w] + later) == None
  {
    IntParse.ParseAllSingle(w);
    IntParse.ParseAllAppend(done, [w]);
    IntParse.ParseAllAppend(done + [w], later);
  }

  /**
   * Lines 44-46 and 49-50: `numbers.append(int(current_number))`. The result is
   * None where `int()` raises, which ends the program whatever tokens follow.
   */
  method AppendNumber(numbers: seq<int>, current: string, ghost done: seq<string>, ghost later: seq<string>)
    returns (r: Option<seq<int>>)
    requires IntParse.ParseAll(done) == Some(numbers)
    ensures r.Some? ==> IntParse.ParseAll(done + [current]) == r
    ensures r.None? ==> IntParse.ParseAll(done + [current] + later) == None
  {
    ParseStep(done, numbers, current, later);
    var parsed := IntParse.ParseInt(current);
    if parsed.None? {
      return None;
    }
    r := Some(numbers + [parsed.value]);
  }

  /**
   * The `for` loop of lines 40-50: characters are collected into `current`
   * until a space, where a non-empty `current` is parsed and appended. A token
   * `int()` rejects aborts the program (None).
   */
  method SplitNumbers(inputData: string) returns (numbers: Option<seq<int>>)
    ensures numbers == IntParse.ParseAll(Tokens(inputData))
  {
    ghost var all := Tokens(inputData);
    var acc: seq<int> := [];
    ghost var accTokens: seq<string> := [];
    var current: string := "";
    assert current + inputData[0..] == inputData;
    for i := 0 to |inputData|
      invariant ' ' !in current
      invariant all == accTokens + Tokens(current + inputData[i..])
      invariant IntParse.ParseAll(accTokens) == Some(acc)
    {
      var ch := inputData[i];
      if ch == ' ' {
        var appended;
        appended, accTokens := CloseWord(acc, current, accTokens, inputData[i..]);
        if appended.None? {
          return None;
        }
        acc := appended.value;
        current := "";
        assert inputData[i..][1..] == inputData[i + 1..];
        assert current + inputData[i + 1..] == inputData[i + 1..];
      } else {
        Shift(current, inputData[i..]);
        assert inputData[i..][1..] == inputData[i + 1..];
        current := current + [ch];
      }
    }
    assert current + inputData[|inputData|..] == current;
    numbers := FinishLine(acc, current, accTokens);
  }

  /** Moving the first character of `rest` onto the pending word leaves the text unchanged. */
  lemma Shift(current: string, rest: string)
    requires rest != []
    ensures current + rest == (current + [rest[0]]) + rest[1..]
  {
    assert rest == [rest[0]] + rest[1..];
  }

  /**
   * Lines 43-47: at a space, a non-empty pending word is parsed and appended
   * and the word is reset; an empty one is skipped.
   */
  method CloseWord(acc: seq<int>, current: string, ghost accTokens: seq<string>, ghost rest: string)
    returns (r: Option<seq<int>>, ghost closed: seq<string>)
    requires ' ' !in current
    requires rest != [] && rest[0] == ' '
    requires IntParse.ParseAll(accTokens) == Some(acc)
    ensures r.None? ==> IntParse.ParseAll(accTokens + Tokens(current + rest)) == None
    ensures r.Some? ==> IntParse.ParseAll(closed) == r
                        && accTokens + Tokens(current + rest) == closed + Tokens(rest[1..])
  {
    ghost var later := Tokens(rest[1..]);
    ghost var ts := Tokens(current + rest);
    SpaceStep(current, rest);
    if current != [] {
      assert ts == [current] + later;
      assert accTokens + ts == accTokens + [current] + later;
      r := AppendNumber(acc, current, accTokens, later);
      closed := accTokens + [current];
    } else {
      assert ts == later;
      r, closed := Some(acc), accTokens;
    }
  }

  /** Lines 49-50: the word still pending at the end of the line is parsed and appended. */
  method FinishLine(acc: seq<int>, current: string, ghost accTokens: seq<string>) returns (numbers: Option<seq<int>>)
    requires ' ' !in current
    requires IntParse.ParseAll(accTokens) == Some(acc)
    ensures numbers == IntParse.ParseAll(accTokens + Tokens(current))
  {
    if current != [] {
      WordThenSpace(current, []);
      assert current + [] == current;
      assert Tokens(current) == [current];
      assert accTokens + [current] + [] == accTokens + [current];
      numbers := AppendNumber(acc, current, accTokens, []);
    } else {
      assert accTokens + Tokens(current) == accTokens;
      numbers := Some(acc);
    }
  }

  /** The sum of a list of integers, as Python's `sum`. */
  function Sum(xs: seq<int>): int
  {
    if xs == [] then 0 else xs[0] + Sum(xs[1..])
  }

  lemma {:induction false} SumAppend(xs: seq<int>, ys: seq<int>)
    ensures Sum(xs + ys) == Sum(xs) + Sum(ys)
  {
    if xs == [] {
      assert xs + ys == ys;
    } else {
      assert (xs + ys)[1..] == xs[1..] + ys;
      SumAppend(xs[1..], ys);
    }
  }

  /** The `while` loop of lines 52-59. */
  method SumAndCount(numbers: seq<int>) returns (sumOfNumbers: int, countOfNumbers: nat)
    ensures sumOfNumbers == Sum(numbers)
    ensures countOfNumbers == |numbers|
  {
    sumOfNumbers, countOfNumbers := 0, 0;
    var i := 0;
    while i < |numbers|
      invariant 0 <= i <= |numbers|
      invariant sumOfNumbers == Sum(numbers[..i])
      invariant countOfNumbers == i
    {
      SumAppend(numbers[..i], [numbers[i]]);
      assert numbers[..i + 1] == numbers[..i] + [numbers[i]];
      sumOfNumbers := sumOfNumbers + numbers[i];
      countOfNumbers := countOfNumbers + 1;
      i := i + 1;
    }
    assert numbers[..i] == numbers;
  }

  /** What the program prints: the sum and the count of the numbers on the line. */
  datatype Totals = Totals(sum: int, count: nat)

  /** The whole script on one line of input; None where `int()` raises ValueError. */
  method Run(line: string) returns (r: Option<Totals>)
    ensures r.None? <==> IntParse.ParseAll(Tokens(Text.Strip(line))).None?
    ensures r.Some? ==> var ns := IntParse.ParseAll(Tokens(Text.Strip(line))).value;
                        r.value == Totals(Sum(ns), |ns|)
  {
    var inputData := Text.Strip(line);
    var numbers := SplitNumbers(inputData);
    match numbers {
      case None =>
        r := None;
      case Some(ns) =>
        var s, c := SumAndCount(ns);
        r := Some(Totals(s, c));
    }
  }

  /** Tokens finds nothing exactly when the text holds only spaces. */
  lemma {:induction false} NoTokensIffBlank(s: string)
    ensures Tokens(s) == [] <==> forall k :: 0 <= k < |s| ==> s[k] == ' '
  {
    if s != [] && s[0] == ' ' {
      NoTokensIffBlank(s[1..]);
      assert forall k :: 1 <= k < |s| ==> s[k] == s[1..][k - 1];
    }
  }

  /** A blank line gives sum 0 and count 0. */
  lemma BlankLineTotals(s: string)
    requires forall k :: 0 <= k < |s| ==> s[k] == ' '
    ensures IntParse.ParseAll(Tokens(s)).Some?
    ensures Sum(IntParse.ParseAll(Tokens(s)).value) == 0 && |IntParse.ParseAll(Tokens(s)).value| == 0
  {
    NoTokensIffBlank(s);
  }

  /** Words joined by single spaces, as `' '.join(words)`. */
  function Join(words: seq<string>): string
  {
    if words == [] then ""
    else if |words| == 1 then words[0]
    else words[0] + " " + Join(words[1..])
  }

  /** Splitting the single-space join of non-empty, space-free words gives the words back. */
  lemma {:induction false} SplitJoin(words: seq<string>)
    requires forall i :: 0 <= i < |words| ==> words[i] != [] && ' ' !in words[i]
    ensures Tokens(Join(words)) == words
  {
    if |words| == 1 {
      WordThenSpace(words[0], []);
      assert words[0] + [] == words[0];
    } else if |words| > 1 {
      var rest := " " + Join(words[1..]);
      assert Join(words) == words[0] + rest;
      WordThenSpace(words[0], rest);
      assert rest[1..] == Join(words[1..]);
      SplitJoin(words[1..]);
      assert [words[0]] + words[1..] == words;
    }
  }

  /** The tokens, concatenated, are the text with its spaces removed: no character is lost or added. */
  lemma {:induction false} TokensKeepCharacters(s: string)
    ensures Concat(Tokens(s)) == NonSpaces(s)
    decreases |s|
  {
    if s != [] {
      if s[0] == ' ' {
        TokensKeepCharacters(s[1..]);
      } else {
        var n := RunLength(s);
        TokensKeepCharacters(s[n..]);
        NonSpacesAppend(s[..n], s[n..]);
        assert s == s[..n] + s[n..];
        NonSpacesOfWord(s[..n]);
        assert ([s[..n]] + Tokens(s[n..]))[1..] == Tokens(s[n..]);
      }
    }
  }

  function Concat(words: seq<string>): string
  {
    if words == [] then "" else words[0] + Concat(words[1..])
  }

  /** The characters of `s` other than the space, in order. */
  function NonSpaces(s: string): string
  {
    if s == [] then "" else (if s[0] == ' ' then "" else [s[0]]) + NonSpaces(s[1..])
  }

  lemma {:induction false} NonSpacesAppend(a: string, b: string)
    ensures NonSpaces(a + b) == NonSpaces(a) + NonSpaces(b)
  {
    if a == [] {
      assert a + b == b;
    } else {
      assert (a + b)[1..] == a[1..] + b;
      NonSpacesAppend(a[1..], b);
    }
  }

  lemma {:induction false} NonSpacesOfWord(w: string)
    requires ' ' !in w
    ensures NonSpaces(w) == w
  {
    if w != [] {
      NonSpacesOfWord(w[1..]);
    }
  }
}
