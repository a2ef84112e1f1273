# esposimo/assert in Dafny

This project models the core of the PHP assertion library `esposimo/assert`. It has three parts.

**Assertions and their cache** (`assertable.dfy`, `decisions.dfy`, `decision_laws.dfy`).
- An `AbstractAssert` holds a first operand, a second operand and a cached result, `check`.
  - `isValid($x)` first rebinds the second operand, when `$x` is non-null and differs from it. This clears the cache.
  - It then runs `assert()` only when the cache is empty, and answers the cache.
- Every object that answers `isValid()` is one Dafny class, `Assertions.Assertable`. It covers:
  - the leaf assertions (Equal, NotEqual, GreaterThan, LessThan, InRange, ArrayContains, ArrayHasKey, StringContains, StringStartsWith, StringEndsWith, IsNull, IsNotNull, IsEmpty, IsNotEmpty, IsArray, IsString);
  - CountAssertion, NotAssertion, AndConjunction and OrConjunction.
- A `Kind` value selects the class and carries its flags.
- Each leaf's `assert()` is a pure decision in `Decisions.Decide`.
- Its laws, and the data tables of the library's tests, are lemmas in `DecisionLaws`.
- A PHP exception raised while asserting is the outcome `Raised`. Examples: `count()` of a non-array, or a string function given an array. It propagates through NOT and through the conjunctions.

**Combinators** (`combinators.dfy`, `assertable.dfy`).
- AND and OR walk their children in insertion order and stop at the first child that decides the answer. Neither keeps a cache.
- NOT negates its operand's answer and caches it.
- CountAssertion delegates to a comparator assertion. That comparator is built on the element count taken when the comparator was created.
- `scenarios.dfy` builds objects the way the tests do and proves what they answer.

**Configuration** (`configurable_array.dfy`, `abstract_assertion.dfy`).
- `ConfigurableArray` validates a nested configuration array with a fixed order of checks. Its error is the exception raised.
- `AbstractAssertion` provides:
  - property accessors;
  - the selector registry (`ASSERT_LIST`, `ASSERT_MAP`);
  - the reflective factory `createInstance`.
- `Equals::test` is its one concrete check.

Runtime facts the model cannot compute are parameters:
- PHP loose equality `==` and ordering of non-integer operands: the `Php` value.
- `is_callable` and "is a subclass of AbstractAssertion": the `Runtime` value.
- The static flag `$ignoreUnknownKeys`: a boolean argument.

What the validator's code does, which its names do not suggest:
- **Keys.** The mandatory keys are `type` and `operands`, and the optional ones are `properties` and `children`.
- **The unknown-key flag.** The unknown-key check runs only when the static flag `$ignoreUnknownKeys` is true, which is its default. Setting it to false disables the check.
- **Properties.** A `properties` entry is checked only when the array under `properties` itself holds a key `properties`, next to a `type`. So `['properties' => ['notARealProp' => true]]` is accepted unchecked.
- **Properties of a class-name type.** Next to an inner `properties` array, a type accepted only as the name of an assertion class, such as `'esposimo\assert\Equals'`, is not a key of `ASSERT_MAP`, so `new ReflectionClass` raises a ReflectionException. An array or object type there makes `class_exists` raise a TypeError.
- **Children.** A `children` entry is validated only when the array under `children` itself holds a key `children`, and that inner array is the configuration validated.
- **No evaluation.** Validation never evaluates or merges anything from the children; it only raises or returns.

## Model

| member | source | states |
|---|---|---|
| PhpValues.PutThenLookup | src/AbstractAssertion.php:139-142 | writing `$a[$k] = $v` makes `$a[$k]` read `$v` and leaves every other key as it was |
| Decisions.EqualHolds | src/Compare/EqualAssertion.php:102-114 | identical operands are equal in strict mode, and with the default flags (strict, case-sensitive) Equal is exactly identity |
| Decisions.NotEqualHolds | src/Compare/NotEqualAssertion.php:120-134 | NotEqual answers the negation of Equal for the same operands and flags |
| Decisions.GreaterThanHolds | src/Compare/GreaterThanAssertion.php:62-75 | a string operand makes it false; on integers a strictly greater first operand makes it true, and a true answer means the first is at least the second, whatever the inclusive flag |
| Decisions.LessThanHolds | tests/Compare/LessThanAssertionTest.php:24-33 | LessThan of (a, b) is GreaterThan of (b, a) with the same inclusive flag |
| Decisions.InRangeHolds | src/Compare/InRangeAssertion.php:212-237 | a string operand makes it false; on integers a value strictly inside the bounds holds and a holding value lies within the closed bounds, whatever the flags |
| Decisions.ArrayContainsOutcome | src/Array/ArrayContainsAssertion.php:62-65 | `in_array` raises exactly when the first operand is not an array, and the empty array contains nothing |
| Decisions.ArrayHasKeyOutcome | src/Array/ArrayHasKeyAssertion.php:28-31 | `array_key_exists` raises exactly when the haystack is not an array or the key is an array or object, and the empty array has no key |
| Decisions.StringContainsOutcome | src/Strings/StringContainsAssertion.php:49-56 | raises exactly when an operand is an array or object; a found needle is no longer than the haystack |
| Decisions.StringStartsWithOutcome | src/Strings/StringStartsWithAssertion.php:53-62 | raises exactly when an operand is an array or object; a prefix is no longer than the haystack |
| Decisions.StringEndsWithOutcome | src/Strings/StringEndsWithAssertion.php:57-66 | raises exactly when an operand is an array or object; a suffix is no longer than the haystack |
| Decisions.IsStringHolds | src/Types/IsStringAssertion.php:54-62 | only a string passes, and every non-empty string passes whatever the flag |
| Decisions.Decide | src/AbstractAssert.php:84 | of the leaf classes only the array and string assertions can raise; the comparison and type checks always answer |
| DecisionLaws.EqualCaseInsensitiveStrings | src/Compare/EqualAssertion.php:102-114 | without case sensitivity, two strings are equal exactly when their lower-cased forms are identical, in both strict and loose mode |
| DecisionLaws.EqualStrictAndLoose | src/Compare/EqualAssertion.php:102-114 | outside case-insensitive string comparison, strict Equal is identity and loose Equal is PHP `==` |
| DecisionLaws.NotEqualNegatesEqual | src/Compare/NotEqualAssertion.php:120-134 | NotEqual answers the negation of Equal for the same operands and flags |
| DecisionLaws.EqualTestTable | tests/Compare/EqualAssertionTest.php:19-31 | each row of the Equal test data gives the expected answer |
| DecisionLaws.NotEqualTestTable | tests/Compare/NotEqualAssertionTest.php:20-32 | each row of the NotEqual test data gives the expected answer |
| DecisionLaws.OrderingRejectsStrings | src/Compare/GreaterThanAssertion.php:62-75 | GreaterThan and LessThan are false whenever either operand is a string |
| DecisionLaws.OrderingOnIntegers | src/Compare/GreaterThanAssertion.php:62-75 | on integers GreaterThan is `>` (or `>=` when inclusive) and LessThan is `<` (or `<=`) |
| DecisionLaws.ExclusiveImpliesInclusive | src/Compare/GreaterThanAssertion.php:62-75 | whatever holds in exclusive mode holds in inclusive mode |
| DecisionLaws.OrderingTestTables | tests/Compare/GreatherThanAssertionTest.php:25-34 | the GreaterThan rows and the matching LessThan rows give the expected answers in both modes |
| DecisionLaws.InRangeRejectsStrings | src/Compare/InRangeAssertion.php:212-237 | InRange is false when the value or the second operand is a string |
| DecisionLaws.InRangeOnIntegers | src/Compare/InRangeAssertion.php:212-237 | on integers InRange holds exactly when the value is above the minimum and below the maximum, each bound inclusive or not as configured |
| DecisionLaws.InRangeTestTable | tests/Compare/InRangeAssertionTest.php:25-144 | for 10..15: 13 is inside, 15 only with an inclusive maximum, 10 only with an inclusive minimum, 20 and 2 never |
| DecisionLaws.ArrayAssertionsRaiseOnNonArrays | src/Array/ArrayContainsAssertion.php:62-65 | ArrayContains and ArrayHasKey raise when the first operand is not an array |
| DecisionLaws.ArrayContainsStrictIsValueMembership | src/Array/ArrayContainsAssertion.php:62-65 | strict ArrayContains holds exactly when the needle is one of the array's values |
| DecisionLaws.ArrayContainsStrictImpliesLoose | src/Array/ArrayContainsAssertion.php:62-65 | when loose equality contains identity, a strict match is also a loose match |
| DecisionLaws.ArrayContainsEmpty | src/Array/ArrayContainsAssertion.php:62-65 | nothing is contained in the empty array |
| DecisionLaws.ArrayContainsTestTable | tests/Array/ArrayContainsAssertionTest.php:20-40 | the ArrayContains rows, including '4' found only loosely and a key that is never a value |
| DecisionLaws.ArrayHasKeyReadsOnlyKeys | src/Array/ArrayHasKeyAssertion.php:28-31 | ArrayHasKey depends on the array's keys only, not on its values |
| DecisionLaws.ArrayHasKeyIsKeyMembership | src/Array/ArrayHasKeyAssertion.php:28-31 | for any needle usable as a key, ArrayHasKey holds exactly when its converted key (null to '', a boolean to 0 or 1) is one of the array's keys |
| DecisionLaws.ArrayHasKeyEmpty | src/Array/ArrayHasKeyAssertion.php:28-31 | the empty array has no key, and an array or object key raises |
| DecisionLaws.ArrayHasKeyTestTable | tests/Array/ArrayHasKeyAssertionTest.php:20-32 | the ArrayHasKey rows give the expected answers |
| DecisionLaws.StringContainsSensitiveImpliesInsensitive | src/Strings/StringContainsAssertion.php:49-56 | a case-sensitive match is also a case-insensitive match |
| DecisionLaws.StringStartsWithSensitiveImpliesInsensitive | src/Strings/StringStartsWithAssertion.php:53-62 | a case-sensitive prefix is also a case-insensitive prefix |
| DecisionLaws.StringEndsWithSensitiveImpliesInsensitive | src/Strings/StringEndsWithAssertion.php:57-66 | a case-sensitive suffix is also a case-insensitive suffix |
| DecisionLaws.StringAssertionsRaiseOnArrays | src/Strings/StringContainsAssertion.php:49-56 | the three string assertions raise when either operand is an array or an object |
| DecisionLaws.StringContainsTestTable | tests/Strings/StringContainsAssertionTest.php:19-43 | 'Mondo' is in 'Ciao Mondo' in both modes, 'mondo' only case-insensitively, 'foobar' never |
| DecisionLaws.StringStartsWithTestTable | tests/Strings/StringStartsWithAssertionTest.php:19-34 | 'Ciao Mondo' starts with 'Ciao' in both modes, with 'ciao' only case-insensitively, with 'foobar' never |
| DecisionLaws.StringEndsWithTestTable | tests/Strings/StringEndsWithAssertionTest.php:19-29 | 'Ciao Mondo' ends with 'Mondo' in both modes, with 'mondo' only case-insensitively, with 'foobar' never |
| DecisionLaws.TypeChecksAreComplements | src/Types/IsNotNullAssertion.php:20-23 | IsNotNull and IsNotEmpty negate IsNull and IsEmpty; IsNull and IsArray test the first operand's type; the second operand plays no part |
| DecisionLaws.EmptinessTestTable | tests/Types/IsEmptyAssertionTest.php:20-34 | null, false, 0, '', '0' and [] are empty; 'string', 10 and true are not |
| DecisionLaws.OnlyZeroAndEmptyStringsAreEmpty | src/Types/IsEmptyAssertion.php:23-26 | a string other than '' and '0' is not empty |
| DecisionLaws.IsStringModes | src/Types/IsStringAssertion.php:54-63 | '' is invalid by default and valid with the empty-string check; other strings are always valid, non-strings never |
| Combinators.ShortCircuitDecides | src/AndConjunction.php:44-56 | the loop returns the continue-value exactly when every child returns it, and otherwise the outcome of one of the children |
| Combinators.AndDecides | src/AndConjunction.php:44-56 | AND of no children is true, and AND is true exactly when every child returns true |
| Combinators.OrDecides | src/OrConjunction.php:32-44 | OR of no children is false, and OR is false exactly when every child returns false |
| Combinators.ShortCircuitStopsAt | src/OrConjunction.php:38-42 | the answer is the outcome of the first deciding child, and the children after it do not affect it |
| Combinators.BooleanConjunctions | src/AndConjunction.php:50-55 | when no child raises, AND holds iff all children hold and OR holds iff some child holds |
| Combinators.SingleChild | src/AndConjunction.php:50-55 | a conjunction of one child answers what that child answers |
| Combinators.DoubleNegation | src/NotAssertion.php:18-21 | negating an outcome twice gives it back |
| Combinators.DeMorgan | src/NotAssertion.php:18-21 | NOT of an AND is the OR of the negated children and vice versa, raised outcomes included |
| Combinators.ConjunctionTestTable | tests/ConjunctionTest.php:22-70 | the AND, OR, NOT and nested-conjunction test cases give the expected answers |
| Assertions.Assertable.Valid | src/AbstractAssert.php:185-194 | a well-formed object lies in its own footprint; its body is the invariant every method keeps (shape per class, disjoint owned objects, a cache that agrees with the decision) |
| Assertions.Assertable.Current | src/AbstractAssert.php:185-208 | the cache is never stale: for a leaf or Count, what `isValid()` answers now is what a fresh `assert()` would decide |
| Assertions.Assertable.Decision | src/Array/CountAssertion.php:143-146 | NOT decides the negation of what its operand answers now, and Count decides what a fresh run of its comparator decides |
| Assertions.Assertable.Leaf | src/AbstractAssert.php:63-66 | a fresh assertion stores its operands, has an empty cache, and will answer the decision on those operands |
| Assertions.Assertable.InRange | src/Compare/InRangeAssertion.php:114-120 | the value is both operands, the bounds are stored, both bounds are exclusive and the cache is empty |
| Assertions.Assertable.IsString | src/Types/IsStringAssertion.php:31-34 | the first operand is the given string, the empty-string check is off and the cache is empty |
| Assertions.Assertable.Not | src/NotAssertion.php:18-21 | NOT wraps its operand and will answer the negation of the operand's answer |
| Assertions.Assertable.Conjunction | src/AbstractConjunction.php:50-55 | the children are exactly the given assertions, in order; the group owns their objects and itself; each given assertion keeps its answer |
| Assertions.Assertable.NewCount | src/Array/CountAssertion.php:42-46 | a non-array first operand raises; otherwise the comparator is an Equal on the element count, and the assertion will answer that count == the second operand |
| Assertions.Assertable.CountOf | src/Array/CountAssertion.php:42-46 | a CountAssertion around the given comparator: operands stored, empty cache, and it owns the comparator's objects |
| Assertions.Assertable.IsValid | src/AbstractAssert.php:204-208 | the answer is what the object's state promised for that argument; a non-null new argument is rebound; the answer is cached; a cache hit without rebinding changes nothing |
| Assertions.Assertable.Check | src/AbstractAssert.php:185-194 | rebinds the second operand only when it is non-null and differs, then fills the cache when it is empty |
| Assertions.Assertable.Assert | src/AbstractAssert.php:84 | fills the cache with the decision for the current operands: NOT and Count ask their operand, leaves decide |
| Assertions.Assertable.Evaluate | src/AndConjunction.php:44-56 | an empty AND answers true and an empty OR false; otherwise the answer is the loop over the children; either way it is what the group's state promised, every child keeps its answer, and every child after the first deciding one is left untouched (never evaluated, its objects unchanged) |
| Assertions.Assertable.AskInOrder | src/AndConjunction.php:50-55 | the children are asked in order and the answer is the short-circuit of their answers: the first one other than the continue-value, else the continue-value; no child's answer changes, and the children after the first deciding one are never asked: their objects are unchanged |
| Assertions.Assertable.AskChild | src/AndConjunction.php:50-55 | one step of the loop: the child answers what it answered before, and every child keeps its answer |
| Assertions.Assertable.ConjunctionAnswer | src/OrConjunction.php:32-44 | a conjunction answers the short-circuit of its children's answers in insertion order |
| Assertions.Assertable.Add | src/AbstractConjunction.php:69-73 | the assertion is appended at the end; every earlier child keeps its answer and the new last child answers what the added assertion answered |
| Assertions.Assertable.SetFirstOperand | src/AbstractAssert.php:98-103 | stores the first operand and clears the cache; for NOT it drops the wrapped assertion, and for Count it keeps the comparator |
| Assertions.Assertable.SetWrapped | src/AbstractAssert.php:98-103 | giving NOT an assertion as its operand makes it answer that assertion's negation |
| Assertions.Assertable.SetSecondOperand | src/AbstractAssert.php:137-142 | stores the second operand, clears the cache, and the next answer is the decision with the new operand |
| Assertions.Assertable.SetStrict | src/Compare/EqualAssertion.php:63-68 | changes only the strict flag and clears the cache |
| Assertions.Assertable.SetCaseSensitive | src/Compare/EqualAssertion.php:85-90 | changes only the case-sensitivity flag and clears the cache |
| Assertions.Assertable.SetInclusive | src/Compare/GreaterThanAssertion.php:39-44 | changes only the inclusive flag and clears the cache |
| Assertions.Assertable.SetInclusiveBounds | src/Compare/InRangeAssertion.php:142-148 | changes only the two inclusivity flags and clears the cache |
| Assertions.Assertable.SetMin | src/Compare/InRangeAssertion.php:199-204 | changes only the minimum and clears the cache; the next answer is the decision with the new bound |
| Assertions.Assertable.SetMax | src/Compare/InRangeAssertion.php:179-184 | changes only the maximum and clears the cache; the next answer is the decision with the new bound |
| Assertions.Assertable.SetMinMax | src/Compare/InRangeAssertion.php:163-166 | changes both bounds and clears the cache |
| Assertions.Assertable.SetEmptyStringCheck | src/Types/IsStringAssertion.php:42-47 | changes only the empty-string flag and clears the cache |
| Assertions.Assertable.ReplaceComparator | src/Array/CountAssertion.php:60-61 | the `instanceCompare` assignment: the new comparator is installed, the cache clears, and Count answers what the comparator answers |
| Assertions.Assertable.UseEqualCompare | src/Array/CountAssertion.php:58-63 | a non-array first operand raises and changes nothing; otherwise a new Equal comparator on the current count decides |
| Assertions.Assertable.UseGreaterThanCompare | src/Array/CountAssertion.php:77-83 | same, with a GreaterThan comparator of the given inclusivity |
| Assertions.Assertable.UseLessThanCompare | src/Array/CountAssertion.php:99-105 | same, with a LessThan comparator of the given inclusivity |
| Assertions.Assertable.UseInRangeCompare | src/Array/CountAssertion.php:132-138 | same, with an InRange comparator of the given bounds |
| Scenarios.CountEqualCases | tests/Array/CountAssertionTest.php:77-83 | Count of [1, 2, 3] holds for 3 and not for 1, and NOT inverts both |
| Scenarios.CountOfThreeBelow | src/Array/CountAssertion.php:99-105 | with a LessThan comparator, Count of [1, 2, 3] holds exactly when 3 is below n (or equal, when inclusive), and NOT answers the opposite |
| Scenarios.CountLessThanCases | tests/Array/CountAssertionTest.php:87-94 | the count 3 is below 4 in both modes and below 3 only when inclusive |
| Scenarios.CountGreaterThanCases | tests/Array/CountAssertionTest.php:98-105 | the count 3 is above 2 in both modes and above 3 only when inclusive |
| Scenarios.CountInRangeCases | tests/Array/CountAssertionTest.php:109-124 | the count 5 is checked against any bounds and inclusivity, and NOT inverts it |
| Scenarios.CountKeepsItsSnapshot | src/Array/CountAssertion.php:115-118 | after `setFirstOperand([])` the old comparator still compares the old count, until a `use*Compare` rebuilds it |
| Scenarios.Pair | src/AbstractConjunction.php:50-55 | a two-child AND or OR owns exactly itself and both children's objects, and answers the short-circuit of the two answers the children gave before |
| Scenarios.FalseOrTrue | tests/ConjunctionTest.php:39-52 | OR of an always-false and an always-true assertion holds |
| Scenarios.TrueAndFalseOrTrue | tests/ConjunctionTest.php:55-70 | the group AND(true, OR(false, true)) holds |
| Scenarios.NestedConjunction | tests/ConjunctionTest.php:55-70 | AND(true, OR(false, true)) holds and its NOT does not |
| Scenarios.NotNot | src/NotAssertion.php:18-21 | NOT(NOT(p)) answers what p answers, for any p |
| Scenarios.InRangeTenToFifteen | src/Compare/InRangeAssertion.php:212-237 | an InRange object on 10..15 holding the integer v answers whether v lies between the bounds, each inclusive or not as set |
| Scenarios.InRangeCases | tests/Compare/InRangeAssertionTest.php:25-144 | InRange objects on 10..15 answer 13, 15 and 10 as the four inclusivity tests expect |
| Scenarios.EqualRebinding | src/AbstractAssert.php:185-194 | `isValid(5)` then `isValid(6)` re-decide with the new operand, and `isValid()` repeats the cached answer |
| ConfigAssertions.AssertMap | src/AbstractAssertion.php:40-42 | only the key 'equals' is registered, and it maps to Equals |
| ConfigAssertions.Override | src/AbstractAssertion.php:225-229 | storing a property never touches check_value, success or fail; a value of the wrong type is refused |
| ConfigAssertions.ApplyProperties | src/AbstractAssertion.php:216-230 | the property loop keeps check_value, success and fail whatever it is given |
| ConfigAssertions.CreateInstanceKeepsProtectedFields | src/AbstractAssertion.php:216-236 | a created instance holds the given check value, success and fail |
| ConfigAssertions.ProtectedEntriesAreSkipped | src/AbstractAssertion.php:225-229 | an entry named check_value, success or fail has no effect |
| ConfigAssertions.UnknownPropertyFails | src/AbstractAssertion.php:220-223 | a name that is not a property of the class, anywhere in the list, means no instance is created |
| ConfigAssertions.PropertyRoundTrip | src/AbstractAssertion.php:139-153 | after `setProperty(n, v)`, `getProperty(n)` is v and other names read as before; an absent name reads as null |
| ConfigAssertions.Equals.constructor | src/AbstractAssertion.php:82-88 | check value, properties, success and fail are stored as given; `cs` is false and `value` null |
| ConfigAssertions.Equals.SetCheckValue | src/AbstractAssertion.php:96-99 | replaces the check value only |
| ConfigAssertions.Equals.SetProperties | src/AbstractAssertion.php:117-120 | replaces the properties array only |
| ConfigAssertions.Equals.SetSuccess | src/AbstractAssertion.php:161-164 | replaces the success payload only |
| ConfigAssertions.Equals.SetFail | src/AbstractAssertion.php:172-175 | replaces the fail payload only |
| ConfigAssertions.Equals.GetProperty | src/AbstractAssertion.php:150-153 | the stored value of a present name, and null for an absent one |
| ConfigAssertions.Equals.SetProperty | src/AbstractAssertion.php:139-142 | stores under the name; that name then reads the new value and every other name reads as before |
| ConfigAssertions.Equals.SetByName | src/AbstractAssertion.php:227-228 | stores a property the way reflection does, converting for the `bool` property and refusing a wrong type with no change |
| ConfigAssertions.Equals.CreateInstance | src/AbstractAssertion.php:209-244 | builds a new object exactly when the property loop succeeds; otherwise it reports the first unknown name or type error, and the object holds the specified fields |
| ConfigAssertions.Equals.Test | src/Equals.php:32-58 | a match needs the same PHP type and a string or integer, so null against null is false; with `cs` a match is identity; a string or integer always matches itself |
| ConfigAssertions.CaseSensitiveMatchImpliesInsensitive | src/Equals.php:44-51 | whatever matches with `cs` set also matches with it off |
| ConfigAssertions.TestIsSymmetric | src/Equals.php:39-56 | for non-null check values and the same `cs`, each of two objects matches the other's check value or neither does |
| ConfigAssertions.TestFallsBackToValue | src/Equals.php:34-37 | `test(null)` answers what `test($value)` answers for the configured value |
| ConfigAssertions.TestByType | src/Equals.php:39-57 | different PHP types are unequal; strings are compared exactly with `cs`, case-insensitively without it; integers by value; booleans, arrays and objects never match |
| ConfigAssertions.TestCaseSensitivity | src/Equals.php:44-51 | 'hello' matches 'Hello' exactly when `cs` is off, which is the default |
| ConfigValidation.FirstMissing | src/ConfigurableArray.php:93-102 | none is reported iff every mandatory key exists; otherwise a missing one, the first in list order when the first is missing |
| ConfigValidation.FirstUnknownKey | src/ConfigurableArray.php:112-126 | none is reported iff every key is one of the four allowed names |
| ConfigValidation.FirstUnknownKeyIsFirst | src/ConfigurableArray.php:119-125 | the reported unknown key is the first one in iteration order |
| ConfigValidation.TypeCheck | src/ConfigurableArray.php:138-148 | the type passes exactly when it is a listed selector, a callable or the name of an assertion class; a rejected string-like type raises 'Invalid value in type', and a rejected array or object a TypeError |
| ConfigValidation.OperandsCheck | src/ConfigurableArray.php:157-166 | passes exactly when operands is an array with `left` and `right`; a missing `left` is reported first, and with `left` present a missing `right` is reported; a non-array raises a TypeError and an array fails only on a missing operand key |
| ConfigValidation.FirstForeignProperty | src/ConfigurableArray.php:222-234 | none is reported iff every property name is one Equals declares |
| ConfigValidation.PropertiesCheck | src/ConfigurableArray.php:201-235 | a non-array raises a TypeError; without its own `properties` key it passes; a non-array inner `properties` raises PropertiesNotArray; a type that is neither listed nor an assertion class passes, while an array or object type raises a TypeError; a listed or class-name type missing from ASSERT_MAP raises a ReflectionException; next to the type 'equals' the first foreign property name is reported, and none means it passes |
| ConfigValidation.Validate | src/ConfigurableArray.php:71-78 | an accepted configuration has both mandatory keys, a valid type and both operands, and with the flag on no unknown key |
| ConfigValidation.ValidateChecksInOrder | src/ConfigurableArray.php:71-78 | the checks run in order and the first failing one decides: a missing mandatory key, then (with the flag on) an unknown key, then the type, the operands, a set `properties`; when all of those pass, the verdict is that of a set `children`, and otherwise acceptance |
| ConfigValidation.ChildrenCheck | src/ConfigurableArray.php:248-267 | a non-array raises a TypeError; without its own `children` key it passes; a non-array inner `children` raises ChildrenNotArray |
| ConfigValidation.NestedChildVerdict | src/ConfigurableArray.php:260-266 | with a nested child configuration, validateChildren accepts exactly when that configuration is accepted, and wraps its rejection as an invalid child unless it is a TypeError or ReflectionException |
| ConfigValidation.UnknownKeysNeedTheFlag | src/ConfigurableArray.php:112-117 | with the flag false, no error at any depth is an unknown-key error |
| ConfigValidation.FlagOnlyAddsRejections | src/ConfigurableArray.php:112-126 | a configuration accepted with the flag on is accepted with it off |
| ConfigValidation.UncaughtIsNeverWrapped | src/ConfigurableArray.php:260-266 | only InvalidArgumentExceptions of a child are wrapped, so a TypeError or ReflectionException is never reported as a child error |
| ConfigValidation.MinimalConfig | src/ConfigurableArray.php:71-78 | `type` 'equals' plus `left`/`right` operands is accepted in both modes |
| ConfigValidation.UnknownKeyCases | src/ConfigurableArray.php:112-126 | a `bogus` key is rejected as unknown with the flag on and accepted with it off |
| ConfigValidation.FlatPropertiesAreUnchecked | src/ConfigurableArray.php:201-206 | `properties => ['notARealProp' => true]` is accepted unchecked |
| ConfigValidation.NestedPropertiesAreChecked | src/ConfigurableArray.php:211-234 | the nested form with a type 'equals' rejects `notARealProp` as an invalid property |
| ConfigValidation.FlatChildrenAreUnchecked | src/ConfigurableArray.php:248-253 | a child configuration without operands, given directly, is accepted unchecked |
| ConfigValidation.NestedChildrenAreChecked | src/ConfigurableArray.php:255-266 | an empty configuration nested one level down is rejected as a wrapped missing-key error |
| ConfigValidation.MissingKeyComesFirst | src/ConfigurableArray.php:71-78 | a missing `operands` is reported before anything about `children` |
| ConfigValidation.ConfigurableArray.Create | src/ConfigurableArray.php:56-60 | an object exists, holding the configuration, exactly when validation accepts it; otherwise the error is returned |
| ConfigValidation.ConfigurableArray.Store | src/ConfigurableArray.php:59 | the validated configuration is stored in the object as given |

## Left out

- Aliasing: one assertion object shared by several combinators, or wrapped in itself, is not modelled. Ownership is a tree of disjoint footprints. A test stub used twice is modelled as two objects.
- PHP type juggling: loose `==` and the ordering of non-integer operands are parameters (`Php`), not computed.
- Floating-point numbers, resources and object internals are not modelled. Objects are opaque identities.
- RegexAssertion, IsInstanceAssertion, IsNumericAssertion, IsIntAssertion and IsFloatAssertion are not modelled. They wrap PCRE, `is_a` and float/numeric-string parsing.
- LessThanAssertion's source file is not part of this model. LessThan is modelled as GreaterThan's mirror, as its tests describe.
- Case folding is ASCII-only. Locale-dependent and multibyte lowering are not modelled.
- A PHP array here is a sequence of key/value entries, and nothing forbids two entries with the same key, which PHP arrays cannot have. Reads and writes act on the first entry with the key, so every property proved holds of real PHP arrays as well.
- Numeric-string array keys are not normalised to integers (PHP turns `'5'` into `5`).
- Reflection is not modelled: `ReflectionClass`, `class_exists`, `class_parents` and `is_callable` are predicates or fixed name sets. Equals is the only concrete assertion class.
- ConfigValidation.Validate: its own ensures states what an accepted configuration satisfies. The order of the checks and every error case are stated by the lemma ConfigValidation.ValidateChecksInOrder, which keeps the function's contract small enough for the nested-configuration proofs.
- `createInstance` called on AbstractAssertion itself is not modelled. There `newInstance` raises an `Error` (an abstract class cannot be instantiated), which the `catch (\ReflectionException $e)` does not catch, so it escapes unwrapped.
- Warnings are not modelled. An undefined index reads as null, as PHP does.
- Every TypeError and ReflectionException is one error, `Uncaught`, and its message is not modelled.
- Exception messages are the constructors of `ConfigError` and `CreateError`. They are not strings.
- The static `$ignoreUnknownKeys` is an argument of `Validate` rather than global state.
- NotAssertion keeps the wrapped object in the field `operand`, and its `first` stays null. So `getFirstOperand()` of a NOT, which returns the wrapped object, is not modelled.
- Each object carries its own `Php` value. The model does not require the objects of one combinator tree to share it, as the single PHP runtime would.
- Getters that only return a field are the fields themselves. Setters return `$this` for chaining, and that return value is not modelled.
