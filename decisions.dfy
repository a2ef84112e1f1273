/**
 * The decision each leaf assertion class takes in its `assert()` method, as
 * a pure function of its configuration and its two operands, and the laws
 * those decisions obey.
 */
module Decisions {
  import opened PhpValues

  /**
   * The class of an assertion object together with its configuration flags.
   * Leaf classes decide from their operands alone; `Count` and `Not` delegate
   * to another assertion object; `And` and `Or` are the two conjunctions.
   */
  datatype Kind =
    | Equal(strict: bool, caseSensitive: bool)
    | NotEqual(strict: bool, caseSensitive: bool)
    | GreaterThan(inclusive: bool)
    | LessThan(inclusive: bool)
    | InRange(min: Value, max: Value, inclusiveMin: bool, inclusiveMax: bool)
    | ArrayContains(strict: bool)
    | ArrayHasKey
    | StringContains(caseSensitive: bool)
    | StringStartsWith(caseSensitive: bool)
    | StringEndsWith(caseSensitive: bool)
    | IsNull
    | IsNotNull
    | IsEmpty
    | IsNotEmpty
    | IsArray
    | IsString(emptyStringCheck: bool)
    | Count
    | Not
    | And
    | Or
  {
    /** A class whose `assert()` reads only its own operands and flags. */
    predicate IsLeaf()
    {
      !(Count? || Not? || And? || Or?)
    }

    /** A subclass of AbstractConjunction. */
    predicate IsConjunction()
    {
      And? || Or?
    }

    /** A class CountAssertion builds as its comparator. */
    predicate IsComparator()
    {
      Equal? || GreaterThan? || LessThan? || InRange?
    }
  }

  // The configuration each class starts with: the initial values of its flags.
  const EqualDefaults: Kind := Equal(strict := true, caseSensitive := true)
  const NotEqualDefaults: Kind := NotEqual(strict := true, caseSensitive := true)
  const GreaterThanDefaults: Kind := GreaterThan(inclusive := false)
  const LessThanDefaults: Kind := LessThan(inclusive := false)
  const ArrayContainsDefaults: Kind := ArrayContains(strict := false)
  const StringContainsDefaults: Kind := StringContains(caseSensitive := false)
  const StringStartsWithDefaults: Kind := StringStartsWith(caseSensitive := false)
  const StringEndsWithDefaults: Kind := StringEndsWith(caseSensitive := false)
  const IsStringDefaults: Kind := IsString(emptyStringCheck := false)

  /** EqualAssertion::assert(). */
  function EqualHolds(php: Php, first: Value, second: Value, strict: bool, caseSensitive: bool): (r: bool)
    ensures strict && first == second ==> r
    ensures strict && caseSensitive ==> (r <==> first == second)
  {
    if !caseSensitive && first.Str? && second.Str? then Lower(first.s) == Lower(second.s)
    else if strict then first == second
    else php.looseEquals(first, second)
  }

  /** NotEqualAssertion::assert(). */
  function NotEqualHolds(php: Php, first: Value, second: Value, strict: bool, caseSensitive: bool): (r: bool)
    ensures r == !EqualHolds(php, first, second, strict, caseSensitive)
  {
    if !caseSensitive && first.Str? && second.Str? then Lower(first.s) != Lower(second.s)
    else if strict then first != second
    else !php.looseEquals(first, second)
  }

  /** GreaterThanAssertion::assert(): `$first > $second`, or `>=` when inclusive. */
  function GreaterThanHolds(php: Php, first: Value, second: Value, inclusive: bool): (r: bool)
    ensures first.Str? || second.Str? ==> !r
    ensures first.Int? && second.Int? && first.i > second.i ==> r
    ensures first.Int? && second.Int? && r ==> first.i >= second.i
  {
    if first.Str? || second.Str? then false
    else if first.Int? && second.Int? then
      (if inclusive then first.i >= second.i else first.i > second.i)
    else if inclusive then php.compare(second, first) <= 0
    else php.compare(second, first) < 0
  }

  /** LessThanAssertion::assert(): `$first < $second`, or `<=` when inclusive. */
  function LessThanHolds(php: Php, first: Value, second: Value, inclusive: bool): (r: bool)
    ensures r == GreaterThanHolds(php, second, first, inclusive)
  {
    if first.Str? || second.Str? then false
    else if first.Int? && second.Int? then
      (if inclusive then first.i <= second.i else first.i < second.i)
    else if inclusive then php.compare(first, second) <= 0
    else php.compare(first, second) < 0
  }

  /**
   * InRangeAssertion::assert(): a GreaterThan of the FIRST operand against
   * min, and then a LessThan of the SECOND operand against max, under AND.
   */
  function InRangeHolds(php: Php, first: Value, second: Value, min: Value, max: Value,
                        inclusiveMin: bool, inclusiveMax: bool): (r: bool)
    ensures r ==> !first.Str? && !second.Str?
    ensures first.Int? && second.Int? && min.Int? && max.Int? && min.i < first.i && second.i < max.i ==> r
    ensures first.Int? && second.Int? && min.Int? && max.Int? && r ==> min.i <= first.i && second.i <= max.i
  {
    if first.Str? || second.Str? then false
    else GreaterThanHolds(php, first, min, inclusiveMin) && LessThanHolds(php, second, max, inclusiveMax)
  }

  /** in_array($second, $first, $strict): the needle is one of the array's values. */
  function ArrayContainsOutcome(php: Php, first: Value, second: Value, strict: bool): (r: Outcome)
    ensures r.Raised? <==> !first.Arr?
    ensures first == Arr([]) ==> r == Returned(false)
  {
    if !first.Arr? then Raised
    else Returned(exists i | 0 <= i < |first.entries| ::
                    if strict then first.entries[i].1 == second
                    else php.looseEquals(second, first.entries[i].1))
  }

  /** array_key_exists($second, $first). */
  function ArrayHasKeyOutcome(first: Value, second: Value): (r: Outcome)
    ensures r.Raised? <==> !first.Arr? || second.Arr? || second.Obj?
    ensures first == Arr([]) && r.Returned? ==> !r.valid
  {
    if !first.Arr? then Raised
    else match KeyArgument(second)
      case None => Raised
      case Some(k) => Returned(HasKey(first.entries, k))
  }

  /** StringContainsAssertion::assert(): str_contains, or stripos when case-insensitive. */
  function StringContainsOutcome(first: Value, second: Value, caseSensitive: bool): (r: Outcome)
    ensures r.Raised? <==> first.Arr? || first.Obj? || second.Arr? || second.Obj?
    ensures r == Returned(true) ==> |StringArgument(second).value| <= |StringArgument(first).value|
  {
    match (StringArgument(first), StringArgument(second))
    case (Some(stack), Some(need)) =>
      Returned(if caseSensitive then Contains(stack, need) else Contains(Lower(stack), Lower(need)))
    case _ => Raised
  }

  /** StringStartsWithAssertion::assert(): both lower-cased unless case-sensitive, then a prefix test. */
  function StringStartsWithOutcome(first: Value, second: Value, caseSensitive: bool): (r: Outcome)
    ensures r.Raised? <==> first.Arr? || first.Obj? || second.Arr? || second.Obj?
    ensures r == Returned(true) ==> |StringArgument(second).value| <= |StringArgument(first).value|
  {
    match (StringArgument(first), StringArgument(second))
    case (Some(stack), Some(need)) =>
      Returned(if caseSensitive then StartsWith(stack, need) else StartsWith(Lower(stack), Lower(need)))
    case _ => Raised
  }

  /** StringEndsWithAssertion::assert(): both lower-cased unless case-sensitive, then a suffix test. */
  function StringEndsWithOutcome(first: Value, second: Value, caseSensitive: bool): (r: Outcome)
    ensures r.Raised? <==> first.Arr? || first.Obj? || second.Arr? || second.Obj?
    ensures r == Returned(true) ==> |StringArgument(second).value| <= |StringArgument(first).value|
  {
    match (StringArgument(first), StringArgument(second))
    case (Some(stack), Some(need)) =>
      Returned(if caseSensitive then EndsWith(stack, need) else EndsWith(Lower(stack), Lower(need)))
    case _ => Raised
  }

  /** IsStringAssertion::assert(). */
  function IsStringHolds(first: Value, emptyStringCheck: bool): (r: bool)
    ensures r ==> first.Str?
    ensures first.Str? && first.s != "" ==> r
  {
    if emptyStringCheck then first.Str? else first.Str? && first.s != ""
  }

  /** What `assert()` of a leaf class decides for the given operands. */
  function Decide(php: Php, kind: Kind, first: Value, second: Value): (r: Outcome)
    requires kind.IsLeaf()
    ensures r.Raised? ==>
              kind.ArrayContains? || kind.ArrayHasKey? || kind.StringContains? || kind.StringStartsWith? || kind.StringEndsWith?
  {
    match kind
    case Equal(strict, caseSensitive) => Returned(EqualHolds(php, first, second, strict, caseSensitive))
    case NotEqual(strict, caseSensitive) => Returned(NotEqualHolds(php, first, second, strict, caseSensitive))
    case GreaterThan(inclusive) => Returned(GreaterThanHolds(php, first, second, inclusive))
    case LessThan(inclusive) => Returned(LessThanHolds(php, first, second, inclusive))
    case InRange(min, max, inclusiveMin, inclusiveMax) =>
      Returned(InRangeHolds(php, first, second, min, max, inclusiveMin, inclusiveMax))
    case ArrayContains(strict) => ArrayContainsOutcome(php, first, second, strict)
    case ArrayHasKey => ArrayHasKeyOutcome(first, second)
    case StringContains(caseSensitive) => StringContainsOutcome(first, second, caseSensitive)
    case StringStartsWith(caseSensitive) => StringStartsWithOutcome(first, second, caseSensitive)
    case StringEndsWith(caseSensitive) => StringEndsWithOutcome(first, second, caseSensitive)
    case IsNull => Returned(first == Null)
    case IsNotNull => Returned(first != Null)
    case IsEmpty => Returned(IsEmptyValue(first))
    case IsNotEmpty => Returned(!IsEmptyValue(first))
    case IsArray => Returned(first.Arr?)
    case IsString(emptyStringCheck) => Returned(IsStringHolds(first, emptyStringCheck))
  }
}
