/**
 * Classification of a triangle by its side lengths (`get_triangle_type` of
 * lab7/triangle_func.py). Invalid sides raise `IncorrectTriangleSides`, modelled
 * as the Failure case of a Result that names which of the two checks fired.
 */
module Triangle {
  import opened Wrappers

  /** The three labels the classifier returns. */
  datatype Kind = Equilateral | Isosceles | Nonequilateral

  /** `IncorrectTriangleSides`, distinguished by the message it is raised with. */
  datatype IncorrectTriangleSides =
    | NonPositiveSide      // "All sides must be positive"
    | InequalityViolated   // "The sum of any two sides must be greater than the third"

  /** The string the source returns for each kind. */
  function Label(k: Kind): string
  {
    match k
    case Equilateral => "equilateral"
    case Isosceles => "isosceles"
    case Nonequilateral => "nonequilateral"
  }

  predicate AllPositive(a: real, b: real, c: real)
  {
    a > 0.0 && b > 0.0 && c > 0.0
  }

  /** Each side is shorter than the sum of the other two. */
  predicate StrictTriangle(a: real, b: real, c: real)
  {
    a + b > c && a + c > b && b + c > a
  }

  predicate ValidSides(a: real, b: real, c: real)
  {
    AllPositive(a, b, c) && StrictTriangle(a, b, c)
  }

  function GetTriangleType(a: real, b: real, c: real): (r: Result<Kind, IncorrectTriangleSides>)
    ensures r == Failure(NonPositiveSide) <==> !AllPositive(a, b, c)
    ensures r == Failure(InequalityViolated) <==> AllPositive(a, b, c) && !StrictTriangle(a, b, c)
    ensures r.Success? <==> ValidSides(a, b, c)
    ensures r == Success(Equilateral) <==> ValidSides(a, b, c) && a == b == c
    ensures r == Success(Isosceles) <==> ValidSides(a, b, c) && !(a == b == c) && (a == b || a == c || b == c)
    ensures r == Success(Nonequilateral) <==> ValidSides(a, b, c) && a != b && a != c && b != c
  {
    if a <= 0.0 || b <= 0.0 || c <= 0.0 then Failure(NonPositiveSide)
    else if a + b <= c || a + c <= b || b + c <= a then Failure(InequalityViolated)
    else if a == b == c then Success(Equilateral)
    else if a == b || a == c || b == c then Success(Isosceles)
    else Success(Nonequilateral)
  }

  /** Independent reference: the kind is fixed by how many distinct lengths the sides have. */
  function KindByDistinctSides(n: nat): Kind
  {
    if n == 1 then Equilateral else if n == 2 then Isosceles else Nonequilateral
  }

  /** On valid sides the classifier agrees with the number of distinct side lengths. */
  lemma ClassifiesByDistinctSides(a: real, b: real, c: real)
    requires ValidSides(a, b, c)
    ensures 1 <= |{a, b, c}| <= 3
    ensures GetTriangleType(a, b, c) == Success(KindByDistinctSides(|{a, b, c}|))
  {
    if a == b == c {
      assert {a, b, c} == {a};
    } else if a == b {
      assert {a, b, c} == {a, c};
    } else if a == c {
      assert {a, b, c} == {a, b};
    } else if b == c {
      assert {a, b, c} == {a, b};
    } else {
      assert |{a, b}| == 2;
      assert {a, b, c} == {a, b} + {c};
    }
  }

  /** The outcome, label or error, does not depend on the order of the arguments. */
  lemma PermutationInvariant(a: real, b: real, c: real)
    ensures GetTriangleType(a, b, c) == GetTriangleType(b, a, c)
    ensures GetTriangleType(a, b, c) == GetTriangleType(a, c, b)
    ensures GetTriangleType(a, b, c) == GetTriangleType(b, c, a)
    ensures GetTriangleType(a, b, c) == GetTriangleType(c, a, b)
    ensures GetTriangleType(a, b, c) == GetTriangleType(c, b, a)
  {
  }

  /** The cases of lab7/test_func.py. */
  lemma UnitTestCases()
    ensures GetTriangleType(5.0, 5.0, 5.0) == Success(Equilateral) && Label(Equilateral) == "equilateral"
    ensures GetTriangleType(5.0, 5.0, 6.0) == Success(Isosceles)
    ensures GetTriangleType(5.0, 6.0, 5.0) == Success(Isosceles)
    ensures GetTriangleType(6.0, 5.0, 5.0) == Success(Isosceles)
    ensures GetTriangleType(3.0, 4.0, 5.0) == Success(Nonequilateral)
    ensures GetTriangleType(-1.0, 2.0, 3.0).Failure?
    ensures GetTriangleType(0.0, 0.0, 0.0).Failure?
    ensures GetTriangleType(1.0, 2.0, 3.0).Failure?
  {
  }
}
