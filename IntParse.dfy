/**
 * Python's `int(text)` on decimal strings and `str(n)` on integers: surrounding
 * whitespace is ignored, one optional sign, ASCII digits, and single underscores
 * allowed between digits.
 */
module IntParse {
  import opened Wrappers
  import Text

  predicate IsDigit(c: char)
  {
    '0' <= c <= '9'
  }

  function DigitValue(c: char): (d: nat)
    requires IsDigit(c)
    ensures d < 10
  {
    c as int - '0' as int
  }

  function DigitChar(d: nat): (c: char)
    requires d < 10
    ensures IsDigit(c) && DigitValue(c) == d
  {
    ('0' as int + d) as char
  }

  /** A digit group accepted by `int()`: digits, with single underscores only between digits. */
  predicate WellFormedDigits(s: string)
  {
    && |s| > 0
    && IsDigit(s[0])
    && IsDigit(s[|s| - 1])
    && (forall i :: 0 <= i < |s| ==> IsDigit(s[i]) || s[i] == '_')
    && (forall i :: 0 <= i < |s| - 1 ==> !(s[i] == '_' && s[i + 1] == '_'))
  }

  /** Decimal value of a digit group; underscores carry no value. */
  function Value(s: string): nat
    requires forall i :: 0 <= i < |s| ==> IsDigit(s[i]) || s[i] == '_'
  {
    if s == [] then 0
    else if s[|s| - 1] == '_' then Value(s[..|s| - 1])
    else Value(s[..|s| - 1]) * 10 + DigitValue(s[|s| - 1])
  }

  /** `int(text)`: the integer the text denotes, or None where Python raises ValueError. */
  function ParseInt(text: string): (r: Option<int>)
    ensures r.Some? ==> Text.Strip(text) != [] && IsDigit(Text.Strip(text)[|Text.Strip(text)| - 1])
    ensures r.Some? && r.value < 0 ==> Text.Strip(text)[0] == '-'
  {
    var t := Text.Strip(text);
    if |t| > 0 && (t[0] == '+' || t[0] == '-') then
      if WellFormedDigits(t[1..]) then Some(if t[0] == '-' then -(Value(t[1..]) as int) else Value(t[1..]))
      else None
    else if WellFormedDigits(t) then Some(Value(t))
    else None
  }

  /** Decimal digits of a natural number, without leading zeros. */
  function Digits(n: nat): (s: string)
    ensures |s| > 0 && forall i :: 0 <= i < |s| ==> IsDigit(s[i])
  {
    if n < 10 then [DigitChar(n)] else Digits(n / 10) + [DigitChar(n % 10)]
  }

  /** `str(n)`. */
  function Show(n: int): string
  {
    if n < 0 then "-" + Digits(-n) else Digits(n)
  }

  lemma {:induction false} DigitsValue(n: nat)
    ensures WellFormedDigits(Digits(n)) && Value(Digits(n)) == n
  {
    if n >= 10 {
      DigitsValue(n / 10);
      var s := Digits(n);
      assert s[..|s| - 1] == Digits(n / 10);
    }
  }

  /** `int(str(n)) == n` for every integer. */
  lemma {:induction false} ParseShow(n: int)
    ensures ParseInt(Show(n)) == Some(n)
  {
    if n < 0 {
      var d := Digits(-n);
      DigitsValue(-n);
      var m := Value(d);
      assert m == -n;
      ParseNegative(Show(n), d);
      assert ParseInt(Show(n)) == Some(-(m as int));
    } else {
      var d := Digits(n);
      DigitsValue(n);
      var m := Value(d);
      assert m == n;
      ParseUnsigned(Show(n));
      assert ParseInt(Show(n)) == Some(m);
    }
  }

  /** A digit group alone parses as its value. */
  lemma ParseUnsigned(d: string)
    requires WellFormedDigits(d)
    ensures ParseInt(d) == Some(Value(d))
  {
    assert !Text.IsWhitespace(d[0]) && !Text.IsWhitespace(d[|d| - 1]);
    Text.StripUnchanged(d);
  }

  /** A minus sign before a digit group parses as the negated value. */
  lemma ParseNegative(s: string, d: string)
    requires s == "-" + d && WellFormedDigits(d)
    ensures ParseInt(s) == Some(-(Value(d) as int))
  {
    assert s[|s| - 1] == d[|d| - 1];
    assert !Text.IsWhitespace(s[0]) && !Text.IsWhitespace(s[|s| - 1]);
    Text.StripUnchanged(s);
    assert s[1..] == d;
  }

  /**
   * `list(map(int, texts))`: every text parsed in order; None when any of them
   * raises ValueError.
   */
  function ParseAll(texts: seq<string>): (r: Option<seq<int>>)
    ensures r.Some? ==> |r.value| == |texts|
  {
    if texts == [] then Some([])
    else match ParseInt(texts[0])
      case None => None
      case Some(n) =>
        match ParseAll(texts[1..])
        case None => None
        case Some(ns) => Some([n] + ns)
  }

  /**
   * ParseAll succeeds exactly when every text parses, and then yields their values
   * position by position.
   */
  lemma {:induction false} ParseAllSpec(texts: seq<string>)
    ensures ParseAll(texts).None? <==> exists i :: 0 <= i < |texts| && ParseInt(texts[i]).None?
    ensures ParseAll(texts).Some? ==>
              && |ParseAll(texts).value| == |texts|
              && forall i :: 0 <= i < |texts| ==> ParseInt(texts[i]) == Some(ParseAll(texts).value[i])
  {
    if texts != [] {
      ParseAllSpec(texts[1..]);
      if ParseInt(texts[0]).Some? && ParseAll(texts[1..]).None? {
        var i :| 0 <= i < |texts[1..]| && ParseInt(texts[1..][i]).None?;
        assert ParseInt(texts[i + 1]).None?;
      }
      if ParseAll(texts).Some? {
        forall i | 0 <= i < |texts|
          ensures ParseInt(texts[i]) == Some(ParseAll(texts).value[i])
        {
          if i > 0 {
            assert texts[i] == texts[1..][i - 1];
          }
        }
      }
    }
  }

  /** A single text parses as a list exactly when it parses as a number. */
  lemma ParseAllSingle(w: string)
    ensures ParseAll([w]) == if ParseInt(w).Some? then Some([ParseInt(w).value]) else None
  {
    assert [w][0] == w;
    assert [w][1..] == [];
    assert ParseAll([]) == Some([]);
    if ParseInt(w).Some? {
      assert [ParseInt(w).value] + [] == [ParseInt(w).value];
    }
  }

  /** Parsing a concatenation succeeds exactly when both parts parse, and gives both results in order. */
  lemma {:induction false} ParseAllAppend(a: seq<string>, b: seq<string>)
    ensures ParseAll(a + b) ==
      if ParseAll(a).Some? && ParseAll(b).Some? then Some(ParseAll(a).value + ParseAll(b).value) else None
  {
    if a == [] {
      assert a + b == b;
      if ParseAll(b).Some? {
        assert [] + ParseAll(b).value == ParseAll(b).value;
      }
    } else {
      var ab := a + b;
      assert ab[0] == a[0];
      assert ab[1..] == a[1..] + b;
      ParseAllAppend(a[1..], b);
      match ParseInt(a[0]) {
        case None =>
        case Some(n) =>
          if ParseAll(a[1..]).Some? && ParseAll(b).Some? {
            var xs, ys := ParseAll(a[1..]).value, ParseAll(b).value;
            assert ParseAll(ab) == Some([n] + (xs + ys));
            assert [n] + (xs + ys) == ([n] + xs) + ys;
          }
      }
    }
  }
}
