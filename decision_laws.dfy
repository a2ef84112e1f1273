/**
 * Laws of the leaf decisions: what each assertion class promises about its
 * operands and flags, and the cases its test suite pins down.
 */
module DecisionLaws {
  import opened PhpValues
  import opened Decisions

  // ---------------------------------------------------------------------
  // Case folding and substrings

  /** Lower-casing commutes with taking a slice. */
  lemma LowerSlice(s: string, i: int, j: int)
    requires 0 <= i <= j <= |s|
    ensures Lower(s)[i..j] == Lower(s[i..j])
  {
    var sliced, lowered := Lower(s)[i..j], Lower(s[i..j]);
    forall k | 0 <= k < |sliced| ensures sliced[k] == lowered[k] {
      assert sliced[k] == Lower(s)[i + k];
    }
  }

  /** Lower-casing both sides preserves an occurrence of a substring. */
  lemma ContainsSurvivesLowering(stack: string, need: string)
    ensures Contains(stack, need) ==> Contains(Lower(stack), Lower(need))
  {
    if Contains(stack, need) {
      var at :| 0 <= at <= |stack| - |need| && ContainsAt(stack, need, at);
      LowerSlice(stack, at, at + |need|);
      assert ContainsAt(Lower(stack), Lower(need), at);
    }
  }

  /** Lower-casing both sides preserves a prefix. */
  lemma StartsWithSurvivesLowering(stack: string, need: string)
    ensures StartsWith(stack, need) ==> StartsWith(Lower(stack), Lower(need))
  {
    if StartsWith(stack, need) {
      LowerSlice(stack, 0, |need|);
    }
  }

  /** Lower-casing both sides preserves a suffix. */
  lemma EndsWithSurvivesLowering(stack: string, need: string)
    ensures EndsWith(stack, need) ==> EndsWith(Lower(stack), Lower(need))
  {
    if EndsWith(stack, need) {
      var from := |stack| - |need|;
      LowerSlice(stack, from, |stack|);
      assert Lower(stack)[from..] == Lower(stack)[from..|stack|];
      assert stack[from..] == stack[from..|stack|];
    }
  }

  // ---------------------------------------------------------------------
  // EqualAssertion and NotEqualAssertion

  /**
   * Case-insensitive comparison of two strings is equality of the
   * lower-cased strings, whatever the strict flag says.
   */
  lemma EqualCaseInsensitiveStrings(php: Php, a: string, b: string, strict: bool)
    ensures EqualHolds(php, Str(a), Str(b), strict, false) <==> Lower(a) == Lower(b)
  {
  }

  /**
   * Outside the case-insensitive string case, strict mode is identity and
   * loose mode is PHP's loose equality.
   */
  lemma EqualStrictAndLoose(php: Php, first: Value, second: Value, caseSensitive: bool)
    requires caseSensitive || !first.Str? || !second.Str?
    ensures EqualHolds(php, first, second, true, caseSensitive) <==> first == second
    ensures EqualHolds(php, first, second, false, caseSensitive) <==> php.looseEquals(first, second)
  {
  }

  /** For the same operands and flags, NotEqual decides exactly the opposite of Equal. */
  lemma NotEqualNegatesEqual(php: Php, first: Value, second: Value, strict: bool, caseSensitive: bool)
    ensures NotEqualHolds(php, first, second, strict, caseSensitive) == !EqualHolds(php, first, second, strict, caseSensitive)
  {
  }

  /** The rows of the EqualAssertion test table, given the loose equalities they rely on. */
  lemma EqualTestTable(php: Php)
    requires php.looseEquals(Int(5), Str("5")) && php.looseEquals(Str("123"), Int(123))
    ensures EqualHolds(php, Int(5), Int(5), true, true)
    ensures !EqualHolds(php, Int(5), Str("5"), true, true)
    ensures EqualHolds(php, Int(5), Str("5"), false, true)
    ensures EqualHolds(php, Str("hello"), Str("hello"), true, true)
    ensures !EqualHolds(php, Str("Hello"), Str("hello"), true, true)
    ensures EqualHolds(php, Str("Hello"), Str("hello"), true, false)
    ensures EqualHolds(php, Str("123"), Int(123), false, false)
  {
    assert Str("Hello") != Str("hello") by { assert "Hello"[0] != "hello"[0]; }
    assert Lower("Hello") == Lower("hello") by {
      assert Lower("Hello") == "hello";
      assert Lower("hello") == "hello";
    }
  }

  /** The rows of the NotEqualAssertion test table, given the loose equalities they rely on. */
  lemma NotEqualTestTable(php: Php)
    requires !php.looseEquals(Int(5), Str("6")) && !php.looseEquals(Str("123"), Int(1234))
    ensures NotEqualHolds(php, Int(5), Int(6), true, true)
    ensures NotEqualHolds(php, Int(5), Str("6"), true, true)
    ensures NotEqualHolds(php, Int(5), Str("6"), false, true)
    ensures NotEqualHolds(php, Str("hello"), Str("hellos"), true, true)
    ensures NotEqualHolds(php, Str("Hello"), Str("hellos"), true, true)
    ensures NotEqualHolds(php, Str("Hello"), Str("hellos"), true, false)
    ensures NotEqualHolds(php, Str("123"), Int(1234), false, false)
  {
    assert |Lower("Hello")| != |Lower("hellos")|;
  }

  // ---------------------------------------------------------------------
  // GreaterThanAssertion and LessThanAssertion

  /** A string on either side makes GreaterThan and LessThan false, inclusive or not. */
  lemma OrderingRejectsStrings(php: Php, first: Value, second: Value, inclusive: bool)
    requires first.Str? || second.Str?
    ensures !GreaterThanHolds(php, first, second, inclusive)
    ensures !LessThanHolds(php, first, second, inclusive)
  {
  }

  /** On integers GreaterThan is `>` (exclusive) or `>=` (inclusive), LessThan `<` or `<=`. */
  lemma OrderingOnIntegers(php: Php, a: int, b: int, inclusive: bool)
    ensures GreaterThanHolds(php, Int(a), Int(b), inclusive) <==> if inclusive then a >= b else a > b
    ensures LessThanHolds(php, Int(a), Int(b), inclusive) <==> if inclusive then a <= b else a < b
  {
  }

  /** Whatever the operands, an exclusive success is also an inclusive success. */
  lemma ExclusiveImpliesInclusive(php: Php, first: Value, second: Value)
    ensures GreaterThanHolds(php, first, second, false) ==> GreaterThanHolds(php, first, second, true)
    ensures LessThanHolds(php, first, second, false) ==> LessThanHolds(php, first, second, true)
  {
  }

  /** The rows of the GreaterThan and LessThan test tables. */
  lemma OrderingTestTables(php: Php)
    ensures GreaterThanHolds(php, Int(5), Int(4), false) && GreaterThanHolds(php, Int(5), Int(4), true)
    ensures !GreaterThanHolds(php, Int(4), Int(4), false) && GreaterThanHolds(php, Int(4), Int(4), true)
    ensures LessThanHolds(php, Int(3), Int(4), false) && LessThanHolds(php, Int(3), Int(4), true)
    ensures !LessThanHolds(php, Int(3), Int(3), false) && LessThanHolds(php, Int(3), Int(3), true)
  {
  }

  // ---------------------------------------------------------------------
  // InRangeAssertion

  /** A string operand makes InRange false whatever the bounds. */
  lemma InRangeRejectsStrings(php: Php, first: Value, second: Value, min: Value, max: Value, inclusiveMin: bool, inclusiveMax: bool)
    requires first.Str? || second.Str?
    ensures !InRangeHolds(php, first, second, min, max, inclusiveMin, inclusiveMax)
  {
  }

  /**
   * On integers InRange checks the FIRST operand against the lower bound and
   * the SECOND operand against the upper bound.
   */
  lemma InRangeOnIntegers(php: Php, first: int, second: int, min: int, max: int, inclusiveMin: bool, inclusiveMax: bool)
    ensures InRangeHolds(php, Int(first), Int(second), Int(min), Int(max), inclusiveMin, inclusiveMax)
        <==> (if inclusiveMin then first >= min else first > min) && (if inclusiveMax then second <= max else second < max)
  {
  }

  /**
   * The InRange test table for the range 10..15 (both operands hold the
   * value, as the constructor sets them): 13 is in range under every
   * setting, 15 only with an inclusive maximum, 10 only with an inclusive
   * minimum, 20 and 2 never.
   */
  lemma InRangeTestTable(php: Php, inclusiveMin: bool, inclusiveMax: bool)
    ensures InRangeHolds(php, Int(13), Int(13), Int(10), Int(15), inclusiveMin, inclusiveMax)
    ensures InRangeHolds(php, Int(15), Int(15), Int(10), Int(15), inclusiveMin, inclusiveMax) <==> inclusiveMax
    ensures InRangeHolds(php, Int(10), Int(10), Int(10), Int(15), inclusiveMin, inclusiveMax) <==> inclusiveMin
    ensures !InRangeHolds(php, Int(20), Int(20), Int(10), Int(15), inclusiveMin, inclusiveMax)
    ensures !InRangeHolds(php, Int(2), Int(2), Int(10), Int(15), inclusiveMin, inclusiveMax)
  {
  }

  // ---------------------------------------------------------------------
  // ArrayContainsAssertion and ArrayHasKeyAssertion

  /** A first operand that is not an array makes in_array and array_key_exists raise. */
  lemma ArrayAssertionsRaiseOnNonArrays(php: Php, first: Value, second: Value, strict: bool)
    requires !first.Arr?
    ensures ArrayContainsOutcome(php, first, second, strict) == Raised
    ensures ArrayHasKeyOutcome(first, second) == Raised
  {
  }

  /** Strict containment is membership of an identical value among the array's values. */
  lemma ArrayContainsStrictIsValueMembership(php: Php, entries: PhpArray, needle: Value)
    ensures ArrayContainsOutcome(php, Arr(entries), needle, true) == Returned(needle in Values(entries))
  {
    assert (exists i | 0 <= i < |entries| :: entries[i].1 == needle) <==> needle in Values(entries) by {
      if needle in Values(entries) {
        var i :| 0 <= i < |entries| && Values(entries)[i] == needle;
      }
    }
  }

  /** The values of an array, in order. */
  function Values(a: PhpArray): (r: seq<Value>)
    ensures |r| == |a|
    ensures forall i :: 0 <= i < |a| ==> r[i] == a[i].1
  {
    if a == [] then [] else [a[0].1] + Values(a[1..])
  }

  /** When loose equality contains identity, a strict match is also a loose match. */
  lemma ArrayContainsStrictImpliesLoose(php: Php, entries: PhpArray, needle: Value)
    requires LooseEqualityContainsIdentity(php)
    ensures ArrayContainsOutcome(php, Arr(entries), needle, true) == Returned(true)
        ==> ArrayContainsOutcome(php, Arr(entries), needle, false) == Returned(true)
  {
    if ArrayContainsOutcome(php, Arr(entries), needle, true) == Returned(true) {
      var i :| 0 <= i < |entries| && entries[i].1 == needle;
      assert php.looseEquals(needle, entries[i].1);
    }
  }

  /** Nothing is in the empty array, strict or not. */
  lemma ArrayContainsEmpty(php: Php, needle: Value, strict: bool)
    ensures ArrayContainsOutcome(php, Arr([]), needle, strict) == Returned(false)
  {
  }

  /** The array of the ArrayContains tests. */
  const ContainsTestData: PhpArray := [
    (StrKey("key1"), Str("value1")), (StrKey("key2"), Str("value2")), (StrKey("key3"), Str("value3")),
    (StrKey("key4"), Int(4)), (StrKey("key5"), Str("5"))]

  /**
   * The ArrayContains test table: values are found in both modes, "4" is
   * found next to 4 only loosely, and a key is not a value.
   */
  lemma ArrayContainsTestTable(php: Php, strict: bool)
    requires LooseEqualityContainsIdentity(php)
    requires php.looseEquals(Str("4"), Int(4))
    ensures ArrayContainsOutcome(php, Arr(ContainsTestData), Str("value1"), strict) == Returned(true)
    ensures ArrayContainsOutcome(php, Arr(ContainsTestData), Int(4), strict) == Returned(true)
    ensures ArrayContainsOutcome(php, Arr(ContainsTestData), Str("5"), strict) == Returned(true)
    ensures ArrayContainsOutcome(php, Arr(ContainsTestData), Str("4"), false) == Returned(true)
    ensures ArrayContainsOutcome(php, Arr(ContainsTestData), Str("4"), true) == Returned(false)
    ensures ArrayContainsOutcome(php, Arr(ContainsTestData), Str("key1"), true) == Returned(false)
  {
    var d := ContainsTestData;
    assert d[0].1 == Str("value1") && d[3].1 == Int(4) && d[4].1 == Str("5");
    assert php.looseEquals(Str("value1"), d[0].1) && php.looseEquals(Int(4), d[3].1) && php.looseEquals(Str("5"), d[4].1);
    assert forall i | 0 <= i < |d| :: d[i].1 != Str("4") by {
      assert "value1"[0] != "4"[0] && "value2"[0] != "4"[0] && "value3"[0] != "4"[0] && "5"[0] != "4"[0];
    }
    assert forall i | 0 <= i < |d| :: d[i].1 != Str("key1") by {
      assert "value1"[0] != "key1"[0] && "value2"[0] != "key1"[0] && "value3"[0] != "key1"[0] && |"5"| != |"key1"|;
    }
  }

  /** array_key_exists looks only at the keys: arrays with the same keys in order agree. */
  lemma ArrayHasKeyReadsOnlyKeys(a: PhpArray, b: PhpArray, key: Value)
    requires Keys(a) == Keys(b)
    ensures ArrayHasKeyOutcome(Arr(a), key) == ArrayHasKeyOutcome(Arr(b), key)
  {
    if KeyArgument(key).Some? {
      var k := KeyArgument(key).value;
      assert HasKey(a, k) <==> HasKey(b, k) by {
        if HasKey(a, k) {
          var i :| 0 <= i < |a| && a[i].0 == k;
          assert Keys(b)[i] == k;
        }
        if HasKey(b, k) {
          var i :| 0 <= i < |b| && b[i].0 == k;
          assert Keys(a)[i] == k;
        }
      }
    }
  }

  /**
   * A needle usable as a key is found exactly when its key, after PHP's
   * conversion (null to '', a boolean to 0 or 1), is one of the array's keys.
   */
  lemma ArrayHasKeyIsKeyMembership(entries: PhpArray, key: Value)
    requires KeyArgument(key).Some?
    ensures ArrayHasKeyOutcome(Arr(entries), key) == Returned(KeyArgument(key).value in Keys(entries))
  {
    var k := KeyArgument(key).value;
    assert HasKey(entries, k) <==> k in Keys(entries) by {
      if k in Keys(entries) {
        var i :| 0 <= i < |entries| && Keys(entries)[i] == k;
      }
    }
  }

  /** No key is in the empty array; a key that is an array or object raises instead. */
  lemma ArrayHasKeyEmpty(key: Value)
    ensures ArrayHasKeyOutcome(Arr([]), key) == if key.Arr? || key.Obj? then Raised else Returned(false)
  {
  }

  /** The ArrayHasKey test table: 'key1' is a key of the test array, 'myKey' is not. */
  lemma ArrayHasKeyTestTable()
    ensures ArrayHasKeyOutcome(Arr(ContainsTestData[..3]), Str("key1")) == Returned(true)
    ensures ArrayHasKeyOutcome(Arr(ContainsTestData[..3]), Str("myKey")) == Returned(false)
  {
    var d := ContainsTestData[..3];
    assert d[0].0 == StrKey("key1");
    assert forall i | 0 <= i < |d| :: d[i].0 != StrKey("myKey") by {
      assert |"key1"| != |"myKey"|;
    }
  }

  // ---------------------------------------------------------------------
  // String assertions

  /** A case-sensitive match of StringContains is also a case-insensitive match. */
  lemma StringContainsSensitiveImpliesInsensitive(first: Value, second: Value)
    ensures StringContainsOutcome(first, second, true) == Returned(true)
        ==> StringContainsOutcome(first, second, false) == Returned(true)
  {
    if StringArgument(first).Some? && StringArgument(second).Some? {
      ContainsSurvivesLowering(StringArgument(first).value, StringArgument(second).value);
    }
  }

  /** A case-sensitive match of StringStartsWith is also a case-insensitive match. */
  lemma StringStartsWithSensitiveImpliesInsensitive(first: Value, second: Value)
    ensures StringStartsWithOutcome(first, second, true) == Returned(true)
        ==> StringStartsWithOutcome(first, second, false) == Returned(true)
  {
    if StringArgument(first).Some? && StringArgument(second).Some? {
      StartsWithSurvivesLowering(StringArgument(first).value, StringArgument(second).value);
    }
  }

  /** A case-sensitive match of StringEndsWith is also a case-insensitive match. */
  lemma StringEndsWithSensitiveImpliesInsensitive(first: Value, second: Value)
    ensures StringEndsWithOutcome(first, second, true) == Returned(true)
        ==> StringEndsWithOutcome(first, second, false) == Returned(true)
  {
    if StringArgument(first).Some? && StringArgument(second).Some? {
      EndsWithSurvivesLowering(StringArgument(first).value, StringArgument(second).value);
    }
  }

  /** Arrays and objects cannot be passed to the string functions: the string assertions raise. */
  lemma StringAssertionsRaiseOnArrays(first: Value, second: Value, caseSensitive: bool)
    requires first.Arr? || first.Obj? || second.Arr? || second.Obj?
    ensures StringContainsOutcome(first, second, caseSensitive) == Raised
    ensures StringStartsWithOutcome(first, second, caseSensitive) == Raised
    ensures StringEndsWithOutcome(first, second, caseSensitive) == Raised
  {
  }

  /** The lower-cased haystack of the string test tables. */
  lemma CiaoMondoLowered()
    ensures Lower("Ciao Mondo") == "ciao mondo"
  {
  }

  /** The lower-cased needles of the string test tables. */
  lemma NeedlesLowered()
    ensures Lower("Mondo") == "mondo" && Lower("mondo") == "mondo"
    ensures Lower("Ciao") == "ciao" && Lower("ciao") == "ciao"
  {
  }

  /** 'foobar' is already lower-case. */
  lemma FoobarLowered()
    ensures Lower("foobar") == "foobar"
  {
  }

  /** Where 'Mondo' and 'mondo' occur in 'Ciao Mondo' and its lower-cased form. */
  lemma MondoOccurrences()
    ensures Contains("Ciao Mondo", "Mondo") && Contains("ciao mondo", "mondo")
    ensures !Contains("Ciao Mondo", "mondo")
  {
    var stack := "Ciao Mondo";
    assert ContainsAt(stack, "Mondo", 5);
    assert ContainsAt("ciao mondo", "mondo", 5);
    forall at | 0 <= at <= |stack| - 5 ensures !ContainsAt(stack, "mondo", at) {
      assert stack[at..at + 5][0] == stack[at] != 'm';
    }
  }

  /** The prefixes of 'Ciao Mondo' and its lower-cased form used in the tests. */
  lemma CiaoPrefixes()
    ensures StartsWith("Ciao Mondo", "Ciao") && StartsWith("ciao mondo", "ciao")
    ensures !StartsWith("Ciao Mondo", "ciao")
    ensures !StartsWith("Ciao Mondo", "foobar") && !StartsWith("ciao mondo", "foobar")
  {
    assert "Ciao Mondo"[..4] == "Ciao";
    assert "ciao mondo"[..4] == "ciao";
    assert "Ciao Mondo"[..4][0] != "ciao"[0];
    assert "Ciao Mondo"[..6][0] != "foobar"[0];
    assert "ciao mondo"[..6][0] != "foobar"[0];
  }

  /** The suffixes of 'Ciao Mondo' and its lower-cased form used in the tests. */
  lemma MondoSuffixes()
    ensures EndsWith("Ciao Mondo", "Mondo") && EndsWith("ciao mondo", "mondo")
    ensures !EndsWith("Ciao Mondo", "mondo")
    ensures !EndsWith("Ciao Mondo", "foobar") && !EndsWith("ciao mondo", "foobar")
  {
    assert "Ciao Mondo"[5..] == "Mondo";
    assert "ciao mondo"[5..] == "mondo";
    assert "Ciao Mondo"[5..][0] != "mondo"[0];
    assert "Ciao Mondo"[4..][0] != "foobar"[0];
    assert "ciao mondo"[4..][0] != "foobar"[0];
  }

  /**
   * The StringContains test table on 'Ciao Mondo': 'Mondo' is contained in
   * both modes, 'mondo' only case-insensitively, 'foobar' never.
   */
  lemma StringContainsTestTable(caseSensitive: bool)
    ensures StringContainsOutcome(Str("Ciao Mondo"), Str("Mondo"), caseSensitive) == Returned(true)
    ensures StringContainsOutcome(Str("Ciao Mondo"), Str("mondo"), caseSensitive) == Returned(!caseSensitive)
    ensures StringContainsOutcome(Str("Ciao Mondo"), Str("foobar"), caseSensitive) == Returned(false)
  {
    CiaoMondoLowered();
    NeedlesLowered();
    FoobarLowered();
    MondoOccurrences();
    FoobarNotInCiaoMondo();
  }

  /**
   * The StringStartsWith test table on 'Ciao Mondo': 'Ciao' starts it in
   * both modes, 'ciao' only case-insensitively, 'foobar' never.
   */
  lemma StringStartsWithTestTable(caseSensitive: bool)
    ensures StringStartsWithOutcome(Str("Ciao Mondo"), Str("Ciao"), caseSensitive) == Returned(true)
    ensures StringStartsWithOutcome(Str("Ciao Mondo"), Str("ciao"), caseSensitive) == Returned(!caseSensitive)
    ensures StringStartsWithOutcome(Str("Ciao Mondo"), Str("foobar"), caseSensitive) == Returned(false)
  {
    CiaoMondoLowered();
    NeedlesLowered();
    FoobarLowered();
    CiaoPrefixes();
  }

  /**
   * The StringEndsWith test table on 'Ciao Mondo': 'Mondo' ends it in both
   * modes, 'mondo' only case-insensitively, 'foobar' never.
   */
  lemma StringEndsWithTestTable(caseSensitive: bool)
    ensures StringEndsWithOutcome(Str("Ciao Mondo"), Str("Mondo"), caseSensitive) == Returned(true)
    ensures StringEndsWithOutcome(Str("Ciao Mondo"), Str("mondo"), caseSensitive) == Returned(!caseSensitive)
    ensures StringEndsWithOutcome(Str("Ciao Mondo"), Str("foobar"), caseSensitive) == Returned(false)
  {
    CiaoMondoLowered();
    NeedlesLowered();
    FoobarLowered();
    MondoSuffixes();
  }

  /** 'foobar' does not occur in 'Ciao Mondo', not even case-insensitively. */
  lemma FoobarNotInCiaoMondo()
    ensures !Contains("Ciao Mondo", "foobar") && !Contains("ciao mondo", "foobar")
  {
    forall at | 0 <= at <= 4 ensures !ContainsAt("Ciao Mondo", "foobar", at) && !ContainsAt("ciao mondo", "foobar", at) {
      assert "Ciao Mondo"[at..at + 6][0] == "Ciao Mondo"[at] != 'f';
      assert "ciao mondo"[at..at + 6][0] == "ciao mondo"[at] != 'f';
    }
  }

  // ---------------------------------------------------------------------
  // Type assertions

  /**
   * IsNull and IsNotNull read only the first operand, and IsNotNull is the
   * exact complement of IsNull; the same holds of IsEmpty and IsNotEmpty.
   */
  lemma TypeChecksAreComplements(php: Php, first: Value, second: Value, other: Value)
    ensures Decide(php, IsNull, first, second) == Returned(first == Null)
    ensures Decide(php, IsNotNull, first, other) == Negate(Decide(php, IsNull, first, second))
    ensures Decide(php, IsEmpty, first, second) == Decide(php, IsEmpty, first, other)
    ensures Decide(php, IsNotEmpty, first, other) == Negate(Decide(php, IsEmpty, first, second))
    ensures Decide(php, IsArray, first, second) == Returned(first.Arr?)
  {
  }

  /**
   * The IsEmpty test table: null, false, 0, "", "0" and [] are empty;
   * "string", 10 and true are not, and false is not null.
   */
  lemma EmptinessTestTable()
    ensures IsEmptyValue(Null) && IsEmptyValue(Bool(false)) && IsEmptyValue(Int(0))
    ensures IsEmptyValue(Str("")) && IsEmptyValue(Str("0")) && IsEmptyValue(Arr([]))
    ensures !IsEmptyValue(Str("string")) && !IsEmptyValue(Int(10)) && !IsEmptyValue(Bool(true))
    ensures Bool(false) != Null
  {
  }

  /** A string other than "" and "0" is never empty. */
  lemma OnlyZeroAndEmptyStringsAreEmpty(s: string)
    requires s != "" && s != "0"
    ensures !IsEmptyValue(Str(s))
  {
  }

  /**
   * IsString: every string passes with the empty-string check on; without
   * it "" fails; a non-empty string passes in both modes; a non-string fails
   * in both modes.
   */
  lemma IsStringModes(first: Value)
    ensures first.Str? ==> IsStringHolds(first, true)
    ensures !IsStringHolds(Str(""), false)
    ensures first.Str? && first.s != "" ==> IsStringHolds(first, false) && IsStringHolds(first, true)
    ensures !first.Str? ==> !IsStringHolds(first, false) && !IsStringHolds(first, true)
  {
  }
}
