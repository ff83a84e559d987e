/**
 * lab2/task_3.py: the integers given on the command line are checked, their
 * maximum and the first index of the maximum are found, and the odd ones are
 * listed in descending order.
 */
module ArrayStats {
  import opened Wrappers
  import IntParse

  /** The three error exits of `main` (each prints a message and exits with status 1). */
  datatype ArgumentError =
    | NoElements      // len(sys.argv) < 2
    | NotAnInteger    // int() raised ValueError on some argument
    | EmptyArray      // `if not arr`

  /** What `main` prints on success; `oddDescending` is None on the "no odd numbers" branch. */
  datatype Analysis = Analysis(maxVal: int, maxIndex: nat, oddDescending: Option<seq<int>>)

  /** `max(arr)`. */
  function Max(arr: seq<int>): (m: int)
    requires arr != []
    ensures m in arr
    ensures forall i :: 0 <= i < |arr| ==> arr[i] <= m
  {
    if |arr| == 1 then arr[0]
    else
      var rest := Max(arr[1..]);
      if arr[0] >= rest then arr[0] else rest
  }

  /** `arr.index(x)`: the first position holding `x`. */
  function IndexOf(arr: seq<int>, x: int): (k: nat)
    requires x in arr
    ensures k < |arr| && arr[k] == x
    ensures forall j :: 0 <= j < k ==> arr[j] != x
  {
    if arr[0] == x then 0 else 1 + IndexOf(arr[1..], x)
  }

  /** Python's `x % 2 != 0`; for the divisor 2 Python's floored remainder is 0 or 1, as is Dafny's. */
  predicate IsOdd(x: int)
  {
    x % 2 != 0
  }

  /** `[x for x in arr if x % 2 != 0]`. */
  function Odds(arr: seq<int>): (r: seq<int>)
    ensures forall i :: 0 <= i < |r| ==> IsOdd(r[i])
    ensures |r| <= |arr|
  {
    if arr == [] then [] else (if IsOdd(arr[0]) then [arr[0]] else []) + Odds(arr[1..])
  }

  /** The filter keeps the order: filtering a concatenation concatenates the filtered parts. */
  lemma {:induction false} OddsAppend(a: seq<int>, b: seq<int>)
    ensures Odds(a + b) == Odds(a) + Odds(b)
  {
    if a == [] {
      assert a + b == b;
    } else {
      assert (a + b)[1..] == a[1..] + b;
      OddsAppend(a[1..], b);
    }
  }

  /** The filter keeps every odd element with its multiplicity, and nothing else. */
  lemma {:induction false} OddsMultiplicity(arr: seq<int>, v: int)
    ensures multiset(Odds(arr))[v] == if IsOdd(v) then multiset(arr)[v] else 0
  {
    if arr != [] {
      OddsMultiplicity(arr[1..], v);
      assert arr == [arr[0]] + arr[1..];
    }
  }

  /** The filter is empty exactly when no element is odd. */
  lemma {:induction false} NoOddsIffAllEven(arr: seq<int>)
    ensures Odds(arr) == [] <==> forall i :: 0 <= i < |arr| ==> !IsOdd(arr[i])
  {
    if arr != [] {
      NoOddsIffAllEven(arr[1..]);
      assert forall i :: 1 <= i < |arr| ==> arr[i] == arr[1..][i - 1];
    }
  }

  predicate NonIncreasing(s: seq<int>)
  {
    forall i, j :: 0 <= i < j < |s| ==> s[i] >= s[j]
  }

  /** Insert `x` before the first element it is not smaller than. */
  function Insert(x: int, s: seq<int>): (r: seq<int>)
    ensures multiset(r) == multiset(s) + multiset{x}
  {
    if s == [] then [x]
    else if x >= s[0] then [x] + s
    else
      assert s == [s[0]] + s[1..];
      [s[0]] + Insert(x, s[1..])
  }

  /** Every element of a non-increasing list is at most its head. */
  lemma HeadIsMax(s: seq<int>, v: int)
    requires NonIncreasing(s) && v in s
    ensures s[0] >= v
  {
    var k :| 0 <= k < |s| && s[k] == v;
    if k > 0 {
      assert s[0] >= s[k];
    }
  }

  /** A head no smaller than every element of a non-increasing tail gives a non-increasing list. */
  lemma ConsKeepsOrder(h: int, t: seq<int>)
    requires NonIncreasing(t)
    requires forall k :: 0 <= k < |t| ==> t[k] <= h
    ensures NonIncreasing([h] + t)
  {
    var r := [h] + t;
    forall i, j | 0 <= i < j < |r| ensures r[i] >= r[j] {
      assert r[j] == t[j - 1];
      if i > 0 {
        assert r[i] == t[i - 1];
      }
    }
  }

  /** Inserting into a non-increasing list keeps it non-increasing. */
  lemma {:induction false} InsertKeepsOrder(x: int, s: seq<int>)
    requires NonIncreasing(s)
    ensures NonIncreasing(Insert(x, s))
  {
    if s != [] {
      if x >= s[0] {
        forall k | 0 <= k < |s| ensures s[k] <= x {
          if k > 0 {
            assert s[0] >= s[k];
          }
        }
        ConsKeepsOrder(x, s);
      } else {
        var t := Insert(x, s[1..]);
        DropHead(s);
        InsertKeepsOrder(x, s[1..]);
        InsertBelow(x, s[1..], s[0]);
        ConsKeepsOrder(s[0], t);
      }
    }
  }

  /** Inserting a value no larger than `h` into a list bounded by `h` keeps it bounded by `h`. */
  lemma {:induction false} InsertBelow(x: int, t: seq<int>, h: int)
    requires x <= h
    requires forall k :: 0 <= k < |t| ==> t[k] <= h
    ensures forall k :: 0 <= k < |Insert(x, t)| ==> Insert(x, t)[k] <= h
  {
    if t != [] && x < t[0] {
      InsertBelow(x, t[1..], h);
    }
  }

  /** `sorted(xs, reverse=True)`, as an insertion sort. */
  function SortDescending(xs: seq<int>): (r: seq<int>)
    ensures NonIncreasing(r)
    ensures multiset(r) == multiset(xs)
  {
    if xs == [] then []
    else
      assert xs == [xs[0]] + xs[1..];
      var sortedTail := SortDescending(xs[1..]);
      InsertKeepsOrder(xs[0], sortedTail);
      Insert(xs[0], sortedTail)
  }

  /** A non-increasing permutation is unique, so SortDescending is the only possible output of `sorted`. */
  lemma {:induction false} NonIncreasingPermutationUnique(p: seq<int>, q: seq<int>)
    requires NonIncreasing(p) && NonIncreasing(q)
    requires multiset(p) == multiset(q)
    ensures p == q
    decreases |p|
  {
    SameLengthAndHead(p, q);
    if p != [] {
      DropHead(p);
      DropHead(q);
      NonIncreasingPermutationUnique(p[1..], q[1..]);
      assert p == [p[0]] + p[1..] && q == [q[0]] + q[1..];
    }
  }

  /** Two non-increasing permutations of each other have the same length and the same head. */
  lemma SameLengthAndHead(p: seq<int>, q: seq<int>)
    requires NonIncreasing(p) && NonIncreasing(q)
    requires multiset(p) == multiset(q)
    ensures |p| == |q|
    ensures p != [] ==> p[0] == q[0]
  {
    assert |p| == |multiset(p)| == |multiset(q)| == |q|;
    if p != [] {
      assert p[0] in multiset(q) && q[0] in multiset(p);
      HeadIsMax(p, q[0]);
      HeadIsMax(q, p[0]);
    }
  }

  lemma DropHead(s: seq<int>)
    requires NonIncreasing(s) && s != []
    ensures NonIncreasing(s[1..])
    ensures multiset(s[1..]) == multiset(s) - multiset{s[0]}
  {
    assert s == [s[0]] + s[1..];
    forall i, j | 0 <= i < j < |s[1..]| ensures s[1..][i] >= s[1..][j] {
      assert s[1..][i] == s[i + 1] && s[1..][j] == s[j + 1];
    }
  }

  /** `main` on the arguments after the program name (lines 5-33). */
  function Analyse(args: seq<string>): (r: Result<Analysis, ArgumentError>)
    ensures r == Failure(NoElements) <==> args == []
    ensures r == Failure(NotAnInteger) <==> args != [] && IntParse.ParseAll(args).None?
    ensures r != Failure(EmptyArray)
    ensures r.Success? ==>
              && IntParse.ParseAll(args).Some?
              && var arr := IntParse.ParseAll(args).value;
              && arr != []
              && r.value.maxVal in arr
              && (forall i :: 0 <= i < |arr| ==> arr[i] <= r.value.maxVal)
              && r.value.maxIndex < |arr| && arr[r.value.maxIndex] == r.value.maxVal
              && (forall j :: 0 <= j < r.value.maxIndex ==> arr[j] != r.value.maxVal)
              && (r.value.oddDescending.None? <==> forall i :: 0 <= i < |arr| ==> !IsOdd(arr[i]))
              && (r.value.oddDescending.Some? ==>
                    && NonIncreasing(r.value.oddDescending.value)
                    && multiset(r.value.oddDescending.value) == multiset(Odds(arr)))
  {
    if |args| < 1 then Failure(NoElements)
    else match IntParse.ParseAll(args)
      case None => Failure(NotAnInteger)
      case Some(arr) =>
        IntParse.ParseAllSpec(args);
        if arr == [] then Failure(EmptyArray)
        else
          var maxVal := Max(arr);
          var maxIndex := IndexOf(arr, maxVal);
          var oddNumbers := Odds(arr);
          NoOddsIffAllEven(arr);
          Success(Analysis(maxVal, maxIndex,
                           if oddNumbers == [] then None else Some(SortDescending(oddNumbers))))
  }

  /** On success the sorted list is exactly `sorted(odd_numbers, reverse=True)`: any non-increasing ordering of the odd elements. */
  lemma AnalyseSortsOdds(args: seq<string>, expected: seq<int>)
    requires Analyse(args).Success? && Analyse(args).value.oddDescending.Some?
    requires IntParse.ParseAll(args).Some?
    requires NonIncreasing(expected) && multiset(expected) == multiset(Odds(IntParse.ParseAll(args).value))
    ensures Analyse(args).value.oddDescending.value == expected
  {
    NonIncreasingPermutationUnique(Analyse(args).value.oddDescending.value, expected);
  }
}
