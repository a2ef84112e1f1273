/**
 * The assertion objects: AbstractAssert and its subclasses (the leaf
 * assertions, NotAssertion and CountAssertion) and the two conjunctions.
 *
 * One class, `Assertable`, stands for every object that can answer
 * `isValid()`; its `kind` says which PHP class it is and carries that class's
 * configuration flags. An AbstractAssert keeps its two operands and the cached
 * result `check`; a conjunction keeps its list of children and no cache.
 * Objects own what they wrap: each wrapped assertion belongs to one owner.
 */
module Assertions {
  import opened PhpValues
  import opened Decisions
  import opened Combinators

  /** The leaf kinds `new` creates with two operands, each with its class's default flags. */
  predicate IsInitialLeaf(kind: Kind)
  {
    kind == EqualDefaults || kind == NotEqualDefaults || kind == GreaterThanDefaults || kind == LessThanDefaults
    || kind == ArrayContainsDefaults || kind == ArrayHasKey
    || kind == StringContainsDefaults || kind == StringStartsWithDefaults || kind == StringEndsWithDefaults
    || kind == IsNull || kind == IsNotNull || kind == IsEmpty || kind == IsNotEmpty || kind == IsArray
  }

  /** The objects owned by a list of assertions. */
  ghost function Footprints(s: seq<Assertable>): set<object>
    reads set a | a in s
  {
    if s == [] then {} else Footprints(s[..|s| - 1]) + s[|s| - 1].Repr
  }

  /** Every assertion in `s` is valid, and no two of them share an object. */
  ghost predicate ValidAndApart(s: seq<Assertable>)
    reads set a | a in s, set a, o | a in s && o in a.Repr :: o
  {
    (forall j | 0 <= j < |s| :: s[j].Valid())
    && (forall j, k | 0 <= j < k < |s| :: s[j].Repr !! s[k].Repr)
  }

  /** Extending a prefix of a list by one assertion adds that assertion's objects. */
  lemma FootprintsOfPrefix(s: seq<Assertable>, i: nat)
    requires i < |s|
    ensures Footprints(s[..i + 1]) == Footprints(s[..i]) + s[i].Repr
  {
    assert s[..i + 1][..i] == s[..i];
  }

  /** Each assertion of a list owns only objects of the list's footprint. */
  lemma {:induction false} FootprintsCover(s: seq<Assertable>)
    ensures forall j | 0 <= j < |s| :: s[j].Repr <= Footprints(s)
  {
    if s != [] {
      FootprintsCover(s[..|s| - 1]);
      assert forall j | 0 <= j < |s| - 1 :: s[..|s| - 1][j] == s[j];
    }
  }

  /** The objects owned by a pair of assertions. */
  lemma FootprintsOfPair(a: Assertable, b: Assertable)
    ensures Footprints([a, b]) == a.Repr + b.Repr
  {
    assert Footprints([a]) == a.Repr by {
      assert [a][..0] == [];
    }
    assert Footprints([a, b]) == Footprints([a]) + b.Repr by {
      assert [a, b][..1] == [a];
    }
  }

  class Assertable {
    /** The PHP engine's loose equality and ordering. */
    const php: Php
    /** The PHP class of the object and its configuration flags. */
    var kind: Kind
    var first: Value
    var second: Value
    /** The cached result of the last `assert()`: `None` when there is none. */
    var check: Option<bool>
    /**
     * NotAssertion: the wrapped assertion, its first operand (null when the
     * first operand is a plain value). CountAssertion: its comparator.
     */
    var operand: Assertable?
    /** AbstractConjunction: the assertions, in insertion order. */
    var children: seq<Assertable>
    ghost var Repr: set<object>

    /** The object is well formed: its shape fits its kind, and a leaf's cache is never stale. */
    ghost predicate Valid()
      reads this, Repr
      ensures Valid() ==> this in Repr
      decreases Repr
    {
      this in Repr
      && (kind.IsLeaf() ==> operand == null && children == [])
      && (kind.Not? ==> children == [])
      && (kind.Count? ==> children == [] && operand != null)
      && (kind.IsConjunction() ==> operand == null && check == None)
      && (operand != null ==>
            operand in Repr && operand.Repr <= Repr && this !in operand.Repr && operand.Valid())
      && (kind.Count? ==> operand.kind.IsComparator())
      && (forall i | 0 <= i < |children| ::
            children[i] in Repr && children[i].Repr <= Repr && this !in children[i].Repr && children[i].Valid())
      && (forall i, j | 0 <= i < j < |children| :: children[i].Repr !! children[j].Repr)
      && (kind.IsLeaf() && check.Some? ==> Decide(php, kind, first, second) == Returned(check.value))
      && (kind.Count? && check.Some? ==>
            Decide(operand.php, operand.kind, operand.first, operand.second) == Returned(check.value))
    }

    /** What `isValid()` answers now: the cached result, or a fresh decision. */
    ghost function Current(): (r: Outcome)
      requires Valid()
      reads Repr
      ensures kind.IsLeaf() || kind.Count? ==> r == Decision(second)
      decreases Repr, 2
    {
      if check.Some? then Returned(check.value) else Decision(second)
    }

    /**
     * What `assert()` decides, or a conjunction's loop returns, when the
     * second operand is `withSecond` and this object's own cache is ignored.
     */
    ghost function Decision(withSecond: Value): (r: Outcome)
      requires Valid()
      reads Repr
      ensures kind.Not? && operand != null ==> Negate(r) == operand.Current()
      ensures kind.Count? ==> r == operand.Decision(operand.second)
      decreases Repr, 1
    {
      if kind.Not? then (if operand == null then Raised else Negate(operand.Current()))
      else if kind.Count? then operand.Current()
      else if kind.And? then AndOf(ChildOutcomes(0))
      else if kind.Or? then OrOf(ChildOutcomes(0))
      else Decide(php, kind, first, withSecond)
    }

    /** What the children from index `from` on answer now, in order. */
    ghost function ChildOutcomes(from: nat): (r: seq<Outcome>)
      requires Valid() && from <= |children|
      reads Repr
      ensures |r| == |children| - from
      ensures forall i | 0 <= i < |r| :: r[i] == children[from + i].Current()
      decreases Repr, 0, |children| - from
    {
      if from == |children| then [] else [children[from].Current()] + ChildOutcomes(from + 1)
    }

    /** `check($arg)` replaces the second operand: a non-null argument not identical to it. */
    ghost predicate Rebinds(arg: Value)
      reads this
    {
      !kind.IsConjunction() && arg != Null && arg != second
    }

    /** What `isValid($arg)` will answer, computed in the current state. */
    ghost function Prospect(arg: Value): Outcome
      requires Valid()
      reads Repr
    {
      if Rebinds(arg) then Decision(arg) else Current()
    }

    // -------------------------------------------------------------------
    // Construction

    /** `new XAssertion($first, $second)` for a leaf class: default flags, no cached result. */
    constructor Leaf(php: Php, kind: Kind, first: Value, second: Value)
      requires IsInitialLeaf(kind)
      ensures Valid() && fresh(Repr) && Repr == {this}
      ensures this.php == php && this.kind == kind && this.first == first && this.second == second
      ensures check == None
      ensures Current() == Decide(php, kind, first, second)
    {
      this.php := php;
      this.kind := kind;
      this.first := first;
      this.second := second;
      check := None;
      operand := null;
      children := [];
      Repr := {this};
    }

    /**
     * `new InRangeAssertion($value, $min, $max)`: both operands are the
     * value, both bounds are exclusive.
     */
    constructor InRange(php: Php, value: Value, min: Value, max: Value)
      ensures Valid() && fresh(Repr) && Repr == {this}
      ensures this.php == php && kind == Kind.InRange(min, max, false, false)
      ensures first == value && second == value && check == None
    {
      this.php := php;
      kind := Kind.InRange(min, max, false, false);
      first := value;
      second := value;
      check := None;
      operand := null;
      children := [];
      Repr := {this};
    }

    /** `new IsStringAssertion($value)`: the constructor takes a string only. */
    constructor IsString(php: Php, value: string)
      ensures Valid() && fresh(Repr) && Repr == {this}
      ensures this.php == php && kind == IsStringDefaults
      ensures first == Str(value) && second == Null && check == None
    {
      this.php := php;
      kind := IsStringDefaults;
      first := Str(value);
      second := Null;
      check := None;
      operand := null;
      children := [];
      Repr := {this};
    }

    /** `new NotAssertion($a)`: wraps `a` as its first operand. */
    constructor Not(php: Php, a: Assertable)
      requires a.Valid()
      ensures Valid() && fresh(Repr - a.Repr) && Repr == {this} + a.Repr
      ensures this.php == php && kind == Kind.Not && operand == a && second == Null && check == None
      ensures Current() == Negate(a.Current())
    {
      this.php := php;
      kind := Kind.Not;
      first := Null;
      second := Null;
      check := None;
      operand := a;
      children := [];
      Repr := {this} + a.Repr;
    }

    /** `new AndConjunction($assertions)` or `new OrConjunction($assertions)`: `add` each in order. */
    constructor Conjunction(php: Php, kind: Kind, assertions: seq<Assertable>)
      requires kind.IsConjunction()
      requires ValidAndApart(assertions)
      ensures Valid() && Repr == {this} + Footprints(assertions)
      ensures this.php == php && this.kind == kind && children == assertions
      ensures forall i | 0 <= i < |assertions| :: assertions[i].Current() == old(assertions[i].Current())
    {
      var added: seq<Assertable> := [];
      ghost var owned: set<object> := {};
      var i := 0;
      while i < |assertions|
        invariant 0 <= i <= |assertions|
        invariant |added| == i && forall j | 0 <= j < i :: added[j] == assertions[j]
        invariant owned == Footprints(assertions[..i])
      {
        FootprintsOfPrefix(assertions, i);
        added := added + [assertions[i]];
        owned := owned + assertions[i].Repr;
        i := i + 1;
      }
      assert added == assertions && assertions[..i] == assertions;
      FootprintsCover(assertions);
      this.php := php;
      this.kind := kind;
      first := Null;
      second := Null;
      check := None;
      operand := null;
      children := added;
      Repr := {this} + owned;
    }

    /**
     * `new CountAssertion($first, $second)`: the comparator is an
     * EqualAssertion between `count($first)` and the second operand;
     * `count()` raises (`null` here) when the first operand is not an array.
     */
    static method NewCount(php: Php, first: Value, second: Value) returns (c: Assertable?)
      ensures c == null <==> !first.Arr?
      ensures c != null ==> c.Valid() && fresh(c.Repr) && c.php == php
      ensures c != null ==> c.kind == Count && c.first == first && c.second == second && c.check == None
      ensures c != null ==> c.operand.kind == EqualDefaults && c.operand.first == Int(|first.entries|)
      ensures c != null ==> c.operand.second == second
      ensures c != null ==> c.Current() == Returned(EqualHolds(php, Int(|first.entries|), second, true, true))
    {
      if !first.Arr? {
        return null;
      }
      var comparator := new Assertable.Leaf(php, EqualDefaults, Int(|first.entries|), second);
      c := new Assertable.CountOf(php, first, second, comparator);
    }

    /** The CountAssertion around an already built comparator. */
    constructor CountOf(php: Php, first: Value, second: Value, comparator: Assertable)
      requires comparator.Valid() && comparator.kind.IsComparator()
      ensures Valid() && Repr == {this} + comparator.Repr
      ensures this.php == php && kind == Count && this.first == first && this.second == second
      ensures check == None && operand == comparator
    {
      this.php := php;
      kind := Count;
      this.first := first;
      this.second := second;
      check := None;
      operand := comparator;
      children := [];
      Repr := {this} + comparator.Repr;
    }

    // -------------------------------------------------------------------
    // Evaluation

    /**
     * `isValid($arg)` of an AbstractAssert (`check($arg)`, then the cached
     * result) and `isValid()` of a conjunction, which takes no argument.
     * The answer is what the object said it would answer before the call,
     * and asking again without an argument gives the same answer.
     */
    method IsValid(arg: Value) returns (r: Outcome)
      requires Valid()
      modifies Repr
      ensures Valid() && Repr == old(Repr)
      ensures kind == old(kind) && first == old(first) && operand == old(operand) && children == old(children)
      ensures second == if old(Rebinds(arg)) then arg else old(second)
      ensures r == old(Prospect(arg))
      ensures r == Current() && r == Prospect(Null)
      ensures !kind.IsConjunction() ==> check == if r.Returned? then Some(r.valid) else None
      ensures old(check).Some? && !old(Rebinds(arg)) ==> unchanged(Repr)
      decreases Repr, 3
    {
      if kind.IsConjunction() {
        r := Evaluate();
      } else {
        Check(arg);
        r := if check.Some? then Returned(check.value) else Raised;
      }
    }

    /**
     * `check($arg)`: replace the second operand when `$arg` is non-null and
     * not identical to it, then run `assert()` if no result is cached.
     * Afterwards the cache holds the answer, or stays empty if `assert()` raised.
     */
    method Check(arg: Value)
      requires Valid() && !kind.IsConjunction()
      modifies Repr
      ensures Valid() && Repr == old(Repr)
      ensures kind == old(kind) && first == old(first) && operand == old(operand) && children == old(children)
      ensures second == if old(Rebinds(arg)) then arg else old(second)
      ensures var o := old(Prospect(arg)); check == if o.Returned? then Some(o.valid) else None
      ensures Current() == old(Prospect(arg))
      ensures old(check).Some? && !old(Rebinds(arg)) ==> unchanged(Repr)
      decreases Repr, 2
    {
      if arg != Null && second != arg {
        SetSecondOperand(arg);
      }
      if check == None {
        Assert();
      }
    }

    /**
     * `assert()`: a leaf decides from its operands and flags, NOT negates
     * the wrapped assertion's `isValid()`, COUNT asks its comparator. The
     * result is cached; when the decision raises nothing is cached.
     */
    method Assert()
      requires Valid() && !kind.IsConjunction() && check == None
      modifies Repr
      ensures Valid() && Repr == old(Repr)
      ensures kind == old(kind) && first == old(first) && second == old(second)
      ensures operand == old(operand) && children == old(children)
      ensures var o := old(Decision(second)); check == if o.Returned? then Some(o.valid) else None
      ensures Current() == old(Decision(second))
      decreases Repr, 1
    {
      if kind.Not? {
        if operand != null {
          var inner := operand.IsValid(Null);
          if inner.Returned? {
            check := Some(!inner.valid);
          }
        }
      } else if kind.Count? {
        var inner := operand.IsValid(Null);
        if inner.Returned? {
          check := Some(inner.valid);
        }
      } else {
        var o := Decide(php, kind, first, second);
        if o.Returned? {
          check := Some(o.valid);
        }
      }
    }

    /**
     * `isValid()` of AndConjunction and OrConjunction: ask the children in
     * insertion order and stop at the first one that answers false (AND) or
     * true (OR); an empty conjunction answers true (AND) or false (OR). The
     * children keep their answers: evaluating them only fills their caches.
     */
    method Evaluate() returns (r: Outcome)
      requires Valid() && kind.IsConjunction()
      modifies Repr
      ensures Valid() && Repr == old(Repr) && unchanged(this)
      ensures r == old(Current()) && r == Current()
      ensures forall i | 0 <= i < |children| :: children[i].Current() == old(children[i].Current())
      ensures forall j | 0 <= j < |children| && (exists k | 0 <= k < j :: old(children[k].Current()) != Returned(kind.And?)) ::
                unchanged(children[j].Repr)
      decreases Repr, 2
    {
      ghost var outcomes := ChildOutcomes(0);
      var goOn := kind.And?;
      ConjunctionAnswer();
      if |children| == 0 {
        r := Returned(goOn);
      } else {
        r := AskInOrder(goOn, outcomes);
      }
      SameChildOutcomes(outcomes);
    }

    /**
     * The `foreach` of a conjunction's `isValid()`: ask each child in turn
     * and stop at the first answer other than `goOn`.
     */
    method AskInOrder(goOn: bool, ghost outcomes: seq<Outcome>) returns (r: Outcome)
      requires Valid() && kind.IsConjunction() && |outcomes| == |children|
      requires forall i | 0 <= i < |children| :: children[i].Current() == outcomes[i]
      modifies Repr
      ensures Valid() && Repr == old(Repr) && unchanged(this)
      ensures r == ShortCircuit(goOn, outcomes)
      ensures forall i | 0 <= i < |children| :: children[i].Current() == outcomes[i]
      ensures forall j | 0 <= j < |children| && (exists k | 0 <= k < j :: outcomes[k] != Returned(goOn)) ::
                unchanged(children[j].Repr)
      decreases Repr, 1
    {
      var i := 0;
      while i < |children|
        invariant 0 <= i <= |children|
        invariant Valid() && Repr == old(Repr) && unchanged(this)
        invariant forall j | 0 <= j < |children| :: children[j].Current() == outcomes[j]
        invariant forall j | 0 <= j < i :: outcomes[j] == Returned(goOn)
        invariant forall j | i <= j < |children| :: unchanged(children[j].Repr)
      {
        var o := AskChild(i);
        if o != Returned(goOn) {
          ShortCircuitStopsAt(goOn, outcomes, i);
          return o;
        }
        i := i + 1;
      }
      ShortCircuitDecides(goOn, outcomes);
      r := Returned(goOn);
    }

    /** A conjunction answers the short-circuit loop over its children's answers. */
    lemma ConjunctionAnswer()
      requires Valid() && kind.IsConjunction()
      ensures Current() == ShortCircuit(kind.And?, ChildOutcomes(0))
    {
    }

    /** A conjunction whose children answer `outcomes` answers the loop over `outcomes`. */
    lemma SameChildOutcomes(outcomes: seq<Outcome>)
      requires Valid() && kind.IsConjunction() && |outcomes| == |children|
      requires forall j | 0 <= j < |children| :: children[j].Current() == outcomes[j]
      ensures ChildOutcomes(0) == outcomes
      ensures Current() == ShortCircuit(kind.And?, outcomes)
    {
      ConjunctionAnswer();
    }

    /**
     * One step of the conjunction loop: `$assertion->isValid()` on the
     * child at index `i`. Only that child's objects change, and every child
     * keeps its answer.
     */
    method AskChild(i: nat) returns (o: Outcome)
      requires Valid() && i < |children|
      modifies children[i].Repr
      ensures Valid() && Repr == old(Repr) && unchanged(this)
      ensures o == old(children[i].Current())
      ensures forall j | 0 <= j < |children| :: children[j].Current() == old(children[j].Current())
      decreases Repr, 0
    {
      o := children[i].IsValid(Null);
      forall j | 0 <= j < |children| && j != i
        ensures children[j].Valid() && children[j].Current() == old(children[j].Current())
      {
        assert children[j].Repr !! children[i].Repr;
      }
    }

    // -------------------------------------------------------------------
    // AbstractConjunction::add

    /** `add($a)`: append `a` to the children; the existing children keep their answers. */
    method Add(a: Assertable)
      requires Valid() && kind.IsConjunction() && a.Valid() && a.Repr !! Repr
      modifies this
      ensures Valid() && Repr == old(Repr) + a.Repr
      ensures children == old(children) + [a]
      ensures kind == old(kind) && first == old(first) && second == old(second) && check == old(check)
      ensures operand == old(operand)
      ensures forall i | 0 <= i < |old(children)| :: children[i].Current() == old(children[i].Current())
      ensures children[|children| - 1].Current() == old(a.Current())
    {
      children := children + [a];
      Repr := Repr + a.Repr;
    }

    // -------------------------------------------------------------------
    // AbstractAssert setters

    /**
     * `setFirstOperand($v)` with a plain value: store it and clear the cache.
     * A NOT given a plain value no longer wraps an assertion; a COUNT keeps
     * the comparator it already built.
     */
    method SetFirstOperand(v: Value)
      requires Valid() && !kind.IsConjunction()
      modifies this
      ensures Valid() && Repr <= old(Repr)
      ensures first == v && check == None
      ensures kind == old(kind) && second == old(second) && children == old(children)
      ensures operand == if kind.Not? then null else old(operand)
    {
      first := v;
      check := None;
      if kind.Not? {
        operand := null;
        Repr := {this};
      }
    }

    /** `setFirstOperand($a)` of a NOT with an assertion: wrap `a` instead and clear the cache. */
    method SetWrapped(a: Assertable)
      requires Valid() && kind.Not? && a.Valid() && this !in a.Repr
      modifies this
      ensures Valid() && Repr == {this} + a.Repr
      ensures operand == a && first == Null && check == None
      ensures kind == old(kind) && second == old(second) && children == old(children)
      ensures Current() == Negate(a.Current())
    {
      operand := a;
      first := Null;
      check := None;
      Repr := {this} + a.Repr;
    }

    /**
     * `setSecondOperand($v)`: store it and clear the cache, so that the next
     * `isValid()` decides afresh with `v`.
     */
    method SetSecondOperand(v: Value)
      requires Valid() && !kind.IsConjunction()
      modifies this
      ensures Valid() && Repr == old(Repr)
      ensures second == v && check == None
      ensures kind == old(kind) && first == old(first) && operand == old(operand) && children == old(children)
      ensures Current() == old(Decision(v))
    {
      second := v;
      check := None;
    }
    // -------------------------------------------------------------------
    // Configuration flags of the leaf classes

    /** `setStrict($b)` of EqualAssertion, NotEqualAssertion and ArrayContainsAssertion. */
    method SetStrict(b: bool)
      requires Valid() && (kind.Equal? || kind.NotEqual? || kind.ArrayContains?)
      modifies this
      ensures Valid() && Repr == old(Repr)
      ensures kind == old(kind).(strict := b) && check == None
      ensures first == old(first) && second == old(second)
      ensures Current() == Decide(php, kind, first, second)
    {
      kind := kind.(strict := b);
      check := None;
    }

    /** `setCaseSensitive($b)` of the equality and string assertions. */
    method SetCaseSensitive(b: bool)
      requires Valid()
      requires kind.Equal? || kind.NotEqual? || kind.StringContains? || kind.StringStartsWith? || kind.StringEndsWith?
      modifies this
      ensures Valid() && Repr == old(Repr)
      ensures kind == old(kind).(caseSensitive := b) && check == None
      ensures first == old(first) && second == old(second)
      ensures Current() == Decide(php, kind, first, second)
    {
      kind := kind.(caseSensitive := b);
      check := None;
    }

    /** `setInclusive($b)` of GreaterThanAssertion and LessThanAssertion. */
    method SetInclusive(b: bool)
      requires Valid() && (kind.GreaterThan? || kind.LessThan?)
      modifies this
      ensures Valid() && Repr == old(Repr)
      ensures kind == old(kind).(inclusive := b) && check == None
      ensures first == old(first) && second == old(second)
      ensures Current() == Decide(php, kind, first, second)
    {
      kind := kind.(inclusive := b);
      check := None;
    }

    /** `setInclusive($min, $max)` of InRangeAssertion. */
    method SetInclusiveBounds(inclusiveMin: bool, inclusiveMax: bool)
      requires Valid() && kind.InRange?
      modifies this
      ensures Valid() && Repr == old(Repr)
      ensures kind == old(kind).(inclusiveMin := inclusiveMin, inclusiveMax := inclusiveMax) && check == None
      ensures first == old(first) && second == old(second)
      ensures Current() == Decide(php, kind, first, second)
    {
      kind := kind.(inclusiveMin := inclusiveMin, inclusiveMax := inclusiveMax);
      check := None;
    }

    /** `setMin($min)` of InRangeAssertion. */
    method SetMin(min: Value)
      requires Valid() && kind.InRange?
      modifies this
      ensures Valid() && Repr == old(Repr)
      ensures kind == old(kind).(min := min) && check == None
      ensures first == old(first) && second == old(second)
      ensures Current() == Decide(php, kind, first, second)
    {
      kind := kind.(min := min);
      check := None;
    }

    /** `setMax($max)` of InRangeAssertion. */
    method SetMax(max: Value)
      requires Valid() && kind.InRange?
      modifies this
      ensures Valid() && Repr == old(Repr)
      ensures kind == old(kind).(max := max) && check == None
      ensures first == old(first) && second == old(second)
      ensures Current() == Decide(php, kind, first, second)
    {
      kind := kind.(max := max);
      check := None;
    }

    /** `setMinMax($min, $max)`: `setMin` and then `setMax`. */
    method SetMinMax(min: Value, max: Value)
      requires Valid() && kind.InRange?
      modifies this
      ensures Valid() && Repr == old(Repr)
      ensures kind == old(kind).(min := min, max := max) && check == None
      ensures first == old(first) && second == old(second)
      ensures Current() == Decide(php, kind, first, second)
    {
      SetMin(min);
      SetMax(max);
    }

    /** `setEmptyStringCheck($b)` of IsStringAssertion. */
    method SetEmptyStringCheck(b: bool)
      requires Valid() && kind.IsString?
      modifies this
      ensures Valid() && Repr == old(Repr)
      ensures kind == old(kind).(emptyStringCheck := b) && check == None
      ensures first == old(first) && second == old(second)
      ensures Current() == Decide(php, kind, first, second)
    {
      kind := kind.(emptyStringCheck := b);
      check := None;
    }

    // -------------------------------------------------------------------
    // CountAssertion's comparator

    /** Install a freshly built comparator and clear the cache. */
    method ReplaceComparator(comparator: Assertable)
      requires Valid() && kind.Count?
      requires comparator.Valid() && comparator.kind.IsComparator() && this !in comparator.Repr
      modifies this
      ensures Valid() && Repr == {this} + comparator.Repr
      ensures operand == comparator && check == None
      ensures kind == old(kind) && first == old(first) && second == old(second) && children == old(children)
      ensures Current() == comparator.Current()
    {
      operand := comparator;
      check := None;
      Repr := {this} + comparator.Repr;
    }

    /**
     * `useEqualCompare()`: compare `count($first)`, taken now, with the
     * second operand for identity. `count()` raises when the first operand
     * is not an array, and then nothing changes.
     */
    method UseEqualCompare() returns (raised: bool)
      requires Valid() && kind.Count?
      modifies this
      ensures Valid() && kind == old(kind) && first == old(first) && second == old(second)
      ensures raised <==> !first.Arr?
      ensures raised ==> unchanged(this)
      ensures !raised ==> check == None && fresh(Repr - {this}) && operand.kind == EqualDefaults
      ensures !raised ==> Current() == Returned(EqualHolds(php, Int(|first.entries|), second, true, true))
    {
      if !first.Arr? {
        return true;
      }
      var comparator := new Assertable.Leaf(php, EqualDefaults, Int(|first.entries|), second);
      ReplaceComparator(comparator);
      raised := false;
    }

    /** `useGreaterThanCompare($inclusive)`: is `count($first)`, taken now, above the second operand? */
    method UseGreaterThanCompare(inclusive: bool) returns (raised: bool)
      requires Valid() && kind.Count?
      modifies this
      ensures Valid() && kind == old(kind) && first == old(first) && second == old(second)
      ensures raised <==> !first.Arr?
      ensures raised ==> unchanged(this)
      ensures !raised ==> check == None && fresh(Repr - {this}) && operand.kind == GreaterThan(inclusive)
      ensures !raised ==> Current() == Returned(GreaterThanHolds(php, Int(|first.entries|), second, inclusive))
    {
      if !first.Arr? {
        return true;
      }
      var comparator := new Assertable.Leaf(php, GreaterThanDefaults, Int(|first.entries|), second);
      comparator.SetInclusive(inclusive);
      ReplaceComparator(comparator);
      raised := false;
    }

    /** `useLessThanCompare($inclusive)`: is `count($first)`, taken now, below the second operand? */
    method UseLessThanCompare(inclusive: bool) returns (raised: bool)
      requires Valid() && kind.Count?
      modifies this
      ensures Valid() && kind == old(kind) && first == old(first) && second == old(second)
      ensures raised <==> !first.Arr?
      ensures raised ==> unchanged(this)
      ensures !raised ==> check == None && fresh(Repr - {this}) && operand.kind == LessThan(inclusive)
      ensures !raised ==> Current() == Returned(LessThanHolds(php, Int(|first.entries|), second, inclusive))
    {
      if !first.Arr? {
        return true;
      }
      var comparator := new Assertable.Leaf(php, LessThanDefaults, Int(|first.entries|), second);
      comparator.SetInclusive(inclusive);
      ReplaceComparator(comparator);
      raised := false;
    }

    /**
     * `useInRangeCompare($min, $max, $minInclusive, $maxInclusive)`: is
     * `count($first)`, taken now, within the bounds? The second operand is
     * not used.
     */
    method UseInRangeCompare(min: int, max: int, minInclusive: bool, maxInclusive: bool) returns (raised: bool)
      requires Valid() && kind.Count?
      modifies this
      ensures Valid() && kind == old(kind) && first == old(first) && second == old(second)
      ensures raised <==> !first.Arr?
      ensures raised ==> unchanged(this)
      ensures !raised ==> check == None && fresh(Repr - {this})
      ensures !raised ==> operand.kind == Kind.InRange(Int(min), Int(max), minInclusive, maxInclusive)
      ensures !raised ==> Current() == Returned(InRangeHolds(php, Int(|first.entries|), Int(|first.entries|),
                                                             Int(min), Int(max), minInclusive, maxInclusive))
    {
      if !first.Arr? {
        return true;
      }
      var comparator := new Assertable.InRange(php, Int(|first.entries|), Int(min), Int(max));
      comparator.SetInclusiveBounds(minInclusive, maxInclusive);
      ReplaceComparator(comparator);
      raised := false;
    }
  }
}
