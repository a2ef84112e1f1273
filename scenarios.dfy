/**
 * Assertion objects built and asked the way the library's test suite does,
 * with the answers each scenario is proved to give.
 */
module Scenarios {
  import opened PhpValues
  import opened Decisions
  import opened Combinators
  import opened Assertions

  /** The PHP array `[1, 2, 3]`. */
  const OneTwoThree: Value := Arr([(IntKey(0), Int(1)), (IntKey(1), Int(2)), (IntKey(2), Int(3))])

  /** The PHP array `[1, 2, 3, 4, 5]`. */
  const OneToFive: Value :=
    Arr([(IntKey(0), Int(1)), (IntKey(1), Int(2)), (IntKey(2), Int(3)), (IntKey(3), Int(4)), (IntKey(4), Int(5))])

  /**
   * `new CountAssertion([1, 2, 3], n)` with its default comparator holds
   * for n = 3 and not for n = 1; a NOT around the evaluated assertion
   * answers the opposite.
   */
  method CountEqualCases(php: Php) returns (three: Outcome, notThree: Outcome, one: Outcome, notOne: Outcome)
    ensures three == Returned(true) && notThree == Returned(false)
    ensures one == Returned(false) && notOne == Returned(true)
  {
    var c := Assertable.NewCount(php, OneTwoThree, Int(3));
    three := c.IsValid(Null);
    var n := new Assertable.Not(php, c);
    notThree := n.IsValid(Null);
    var c1 := Assertable.NewCount(php, OneTwoThree, Int(1));
    one := c1.IsValid(Null);
    var n1 := new Assertable.Not(php, c1);
    notOne := n1.IsValid(Null);
  }

  /**
   * `new CountAssertion([1, 2, 3], n)` switched to `useLessThanCompare($inclusive)`,
   * asked with `isValid()` and wrapped in a NOT.
   */
  method CountOfThreeBelow(php: Php, n: int, inclusive: bool) returns (below: Outcome, notBelow: Outcome)
    ensures below == Returned(if inclusive then 3 <= n else 3 < n)
    ensures notBelow == Returned(!(if inclusive then 3 <= n else 3 < n))
  {
    var c := Assertable.NewCount(php, OneTwoThree, Int(n));
    var _ := c.UseLessThanCompare(inclusive);
    below := c.IsValid(Null);
    var neg := new Assertable.Not(php, c);
    notBelow := neg.IsValid(Null);
  }

  /**
   * `useLessThanCompare($inclusive)` on `[1, 2, 3]`: a count of 3 is below
   * 4 in both modes and below 3 only when inclusive; NOT answers the
   * opposite.
   */
  method CountLessThanCases(php: Php, inclusive: bool) returns (four: Outcome, three: Outcome, notThree: Outcome)
    ensures four == Returned(true)
    ensures three == Returned(inclusive) && notThree == Returned(!inclusive)
  {
    var notFour;
    four, notFour := CountOfThreeBelow(php, 4, inclusive);
    three, notThree := CountOfThreeBelow(php, 3, inclusive);
  }

  /**
   * `useGreaterThanCompare($inclusive)` on `[1, 2, 3]`: a count of 3 is
   * above 2 in both modes and above 3 only when inclusive.
   */
  method CountGreaterThanCases(php: Php, inclusive: bool) returns (two: Outcome, three: Outcome)
    ensures two == Returned(true)
    ensures three == Returned(inclusive)
  {
    var c := Assertable.NewCount(php, OneTwoThree, Int(2));
    var _ := c.UseGreaterThanCompare(inclusive);
    two := c.IsValid(Null);
    var c3 := Assertable.NewCount(php, OneTwoThree, Int(3));
    var _ := c3.UseGreaterThanCompare(inclusive);
    three := c3.IsValid(Null);
  }

  /**
   * `useInRangeCompare($min, $max, $minInclusive, $maxInclusive)` on
   * `[1, 2, 3, 4, 5]`: the count 5 is checked against both bounds, and a
   * NOT answers the opposite.
   */
  method CountInRangeCases(php: Php, min: int, max: int, minInclusive: bool, maxInclusive: bool)
    returns (inRange: Outcome, notInRange: Outcome)
    ensures var holds := (if minInclusive then 5 >= min else 5 > min) && (if maxInclusive then 5 <= max else 5 < max);
            inRange == Returned(holds) && notInRange == Returned(!holds)
  {
    var c := Assertable.NewCount(php, OneToFive, Null);
    var _ := c.UseInRangeCompare(min, max, minInclusive, maxInclusive);
    inRange := c.IsValid(Null);
    var n := new Assertable.Not(php, c);
    notInRange := n.IsValid(Null);
  }

  /**
   * The comparator of a CountAssertion holds the count taken when it was
   * built: after `setFirstOperand([])` and `isValid(0)` the assertion still
   * compares 3 with 3, until `useEqualCompare()` builds a new comparator.
   */
  method CountKeepsItsSnapshot(php: Php) returns (stale: Outcome, rebuilt: Outcome)
    ensures stale == Returned(true)
    ensures rebuilt == Returned(true)
  {
    var c := Assertable.NewCount(php, OneTwoThree, Int(3));
    c.SetFirstOperand(Arr([]));
    stale := c.IsValid(Int(0));
    var _ := c.UseEqualCompare();
    rebuilt := c.IsValid(Null);
  }

  /** An assertion that always holds, standing in for the test suite's true stub. */
  method AlwaysTrue(php: Php) returns (a: Assertable)
    ensures a.Valid() && fresh(a) && a.Repr == {a} && a.Current() == Returned(true)
  {
    a := new Assertable.Leaf(php, IsNull, Null, Null);
  }

  /** An assertion that never holds, standing in for the test suite's false stub. */
  method AlwaysFalse(php: Php) returns (a: Assertable)
    ensures a.Valid() && fresh(a) && a.Repr == {a} && a.Current() == Returned(false)
  {
    a := new Assertable.Leaf(php, IsNotNull, Null, Null);
  }

  /**
   * `new AndConjunction([$a, $b])` or `new OrConjunction([$a, $b])`: the
   * group answers the loop over what `a` and `b` answered before.
   */
  method Pair(php: Php, kind: Kind, a: Assertable, b: Assertable) returns (g: Assertable)
    requires kind.IsConjunction() && a.Valid() && b.Valid() && a.Repr !! b.Repr
    ensures g.Valid() && fresh(g) && g.Repr == {g} + a.Repr + b.Repr
    ensures g.Current() == ShortCircuit(kind.And?, [old(a.Current()), old(b.Current())])
  {
    g := new Assertable.Conjunction(php, kind, [a, b]);
    FootprintsOfPair(a, b);
    g.SameChildOutcomes([a.Current(), b.Current()]);
  }

  /** `new OrConjunction([$false, $true])`, which holds. */
  method FalseOrTrue(php: Php) returns (g: Assertable)
    ensures g.Valid() && fresh(g.Repr) && g.Current() == Returned(true)
  {
    var f := AlwaysFalse(php);
    var t := AlwaysTrue(php);
    g := Pair(php, Or, f, t);
    assert [Returned(false), Returned(true)][1..] == [Returned(true)];
  }

  /** `new AndConjunction([$true, new OrConjunction([$false, $true])])`, which holds. */
  method TrueAndFalseOrTrue(php: Php) returns (g: Assertable)
    ensures g.Valid() && fresh(g.Repr) && g.Current() == Returned(true)
  {
    var orGroup := FalseOrTrue(php);
    var t := AlwaysTrue(php);
    g := Pair(php, And, t, orGroup);
    assert [Returned(true), Returned(true)][1..] == [Returned(true)];
  }

  /**
   * The nested conjunction test: with always-true and always-false
   * children, AND(true, OR(false, true)) holds and its NOT does not.
   */
  method NestedConjunction(php: Php) returns (nested: Outcome, negated: Outcome)
    ensures nested == Returned(true) && negated == Returned(false)
  {
    var finalAssertion := TrueAndFalseOrTrue(php);
    nested := finalAssertion.IsValid(Null);
    var n := new Assertable.Not(php, finalAssertion);
    negated := n.IsValid(Null);
  }

  /** NOT(NOT(p)) answers what p answers, whatever p is. */
  method NotNot(php: Php, p: Assertable) returns (direct: Outcome, twice: Outcome)
    requires p.Valid()
    modifies p.Repr
    ensures twice == direct
  {
    direct := p.IsValid(Null);
    var once := new Assertable.Not(php, p);
    var n := new Assertable.Not(php, once);
    DoubleNegation(direct);
    twice := n.IsValid(Null);
  }

  /**
   * `new InRangeAssertion($v, 10, 15)` with the given inclusivity, asked
   * with `isValid()`: on an integer it checks `v` against both bounds.
   */
  method InRangeTenToFifteen(php: Php, v: int, inclusiveMin: bool, inclusiveMax: bool) returns (o: Outcome)
    ensures o == Returned((if inclusiveMin then v >= 10 else v > 10) && (if inclusiveMax then v <= 15 else v < 15))
  {
    var a := new Assertable.InRange(php, Int(v), Int(10), Int(15));
    a.SetInclusiveBounds(inclusiveMin, inclusiveMax);
    o := a.IsValid(Null);
  }

  /**
   * The InRange test table as objects: `new InRangeAssertion($v, 10, 15)`
   * with the given inclusivity holds for 13 always, for 15 only with an
   * inclusive maximum, for 10 only with an inclusive minimum.
   */
  method InRangeCases(php: Php, inclusiveMin: bool, inclusiveMax: bool)
    returns (thirteen: Outcome, fifteen: Outcome, ten: Outcome)
    ensures thirteen == Returned(true)
    ensures fifteen == Returned(inclusiveMax) && ten == Returned(inclusiveMin)
  {
    thirteen := InRangeTenToFifteen(php, 13, inclusiveMin, inclusiveMax);
    fifteen := InRangeTenToFifteen(php, 15, inclusiveMin, inclusiveMax);
    ten := InRangeTenToFifteen(php, 10, inclusiveMin, inclusiveMax);
  }

  /**
   * `isValid($x)` replaces the second operand: an EqualAssertion on 5
   * holds for `isValid(5)`, fails for `isValid(6)`, and `isValid()` then
   * repeats the cached answer.
   */
  method EqualRebinding(php: Php) returns (five: Outcome, six: Outcome, again: Outcome)
    ensures five == Returned(true) && six == Returned(false) && again == Returned(false)
  {
    var e := new Assertable.Leaf(php, EqualDefaults, Int(5), Null);
    five := e.IsValid(Int(5));
    six := e.IsValid(Int(6));
    again := e.IsValid(Null);
  }
}
