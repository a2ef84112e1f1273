/**
 * The PHP values the assertion library works on, and the few pieces of the
 * PHP runtime its assertions call: `empty()`, ASCII case folding, substring
 * search, array key lookup, and the string coercion that PHP applies to
 * arguments of built-in string functions in files without strict types.
 *
 * PHP's loose equality `==` and its ordering of operands that are not both
 * integers are not modelled: they are the two relations of `Php`, an oracle
 * that every assertion is given when it is created.
 */
module PhpValues {

  datatype Option<+T> = None | Some(value: T)

  /** A PHP array key: an integer or a string. */
  datatype Key = IntKey(i: int) | StrKey(s: string)

  /**
   * A PHP value. Floats and resources are not modelled; an object is opaque
   * and carries only its identity.
   */
  datatype Value =
    | Null
    | Bool(b: bool)
    | Int(i: int)
    | Str(s: string)
    | Arr(entries: seq<(Key, Value)>)
    | Obj(id: nat)

  /** An ordered PHP array: its entries in insertion order. */
  type PhpArray = seq<(Key, Value)>

  /**
   * What a call to `isValid()` does: it returns a boolean, or it raises
   * (a TypeError from a built-in, or an Error from calling a method on
   * something that is not an assertion).
   */
  datatype Outcome = Returned(valid: bool) | Raised

  /** The outcome of `!$x->isValid()`: the negated boolean, or the same exception. */
  function Negate(o: Outcome): Outcome
  {
    match o
    case Returned(b) => Returned(!b)
    case Raised => Raised
  }

  /**
   * The parts of the PHP engine that are left abstract: loose equality
   * (`$a == $b`) and the engine's three-way comparison (`$a <=> $b`, which
   * the engine also uses for `<`, `<=`, `>` and `>=`: `$a > $b` is
   * `($b <=> $a) < 0`).
   */
  datatype Php = Php(looseEquals: (Value, Value) -> bool, compare: (Value, Value) -> int)

  /** Loose equality contains identity: `$a === $b` implies `$a == $b`. */
  ghost predicate LooseEqualityContainsIdentity(php: Php)
  {
    forall v: Value :: php.looseEquals(v, v)
  }

  /** PHP's `empty()`: null, false, 0, "", "0" and the empty array are empty. */
  predicate IsEmptyValue(v: Value)
  {
    match v
    case Null => true
    case Bool(b) => !b
    case Int(i) => i == 0
    case Str(s) => s == "" || s == "0"
    case Arr(entries) => entries == []
    case Obj(_) => false
  }

  /** ASCII lower-casing of one byte, as `strtolower` does since PHP 8.2. */
  function LowerChar(c: char): char
  {
    if 'A' <= c <= 'Z' then (c as int + 32) as char else c
  }

  /** ASCII lower-casing of a string (`strtolower`). */
  function Lower(s: string): (r: string)
    ensures |r| == |s|
    ensures forall i :: 0 <= i < |s| ==> r[i] == LowerChar(s[i])
  {
    if s == [] then [] else [LowerChar(s[0])] + Lower(s[1..])
  }

  /** `str_starts_with($stack, $need)`. */
  predicate StartsWith(stack: string, need: string)
  {
    |need| <= |stack| && stack[..|need|] == need
  }

  /** `str_ends_with($stack, $need)`. */
  predicate EndsWith(stack: string, need: string)
  {
    |need| <= |stack| && stack[|stack| - |need|..] == need
  }

  /** `str_contains($stack, $need)`: the needle occurs at some offset. */
  predicate ContainsAt(stack: string, need: string, at: int)
  {
    0 <= at && at + |need| <= |stack| && stack[at..at + |need|] == need
  }

  predicate Contains(stack: string, need: string)
  {
    exists at | 0 <= at <= |stack| - |need| :: ContainsAt(stack, need, at)
  }

  /** The decimal digits of a natural number, most significant first. */
  function Digits(n: nat): (r: string)
    ensures |r| >= 1
    ensures forall i :: 0 <= i < |r| ==> '0' <= r[i] <= '9'
    decreases n
  {
    if n < 10 then [(48 + n) as char] else Digits(n / 10) + [(48 + n % 10) as char]
  }

  /** An integer written the way PHP converts it to a string. */
  function IntToString(i: int): string
  {
    if i < 0 then "-" + Digits(-i) else Digits(i)
  }

  /**
   * A value passed to a `string` parameter of a built-in function in a file
   * without `declare(strict_types=1)`: integers and booleans are converted,
   * null becomes "" (deprecated, not an error), arrays and objects raise a
   * TypeError (`None`).
   */
  function StringArgument(v: Value): Option<string>
  {
    match v
    case Str(s) => Some(s)
    case Int(i) => Some(IntToString(i))
    case Bool(b) => Some(if b then "1" else "")
    case Null => Some("")
    case Arr(_) => None
    case Obj(_) => None
  }

  /**
   * A value used as an array key by `array_key_exists`: null is the key "",
   * booleans are 0 and 1, arrays and objects raise a TypeError (`None`).
   */
  function KeyArgument(v: Value): Option<Key>
  {
    match v
    case Null => Some(StrKey(""))
    case Bool(b) => Some(IntKey(if b then 1 else 0))
    case Int(i) => Some(IntKey(i))
    case Str(s) => Some(StrKey(s))
    case Arr(_) => None
    case Obj(_) => None
  }

  /** The key is one of the array's keys (`array_key_exists`). */
  predicate HasKey(a: PhpArray, k: Key)
  {
    exists i | 0 <= i < |a| :: a[i].0 == k
  }

  /** The keys of an array, in order (`array_keys`). */
  function Keys(a: PhpArray): (r: seq<Key>)
    ensures |r| == |a|
    ensures forall i :: 0 <= i < |a| ==> r[i] == a[i].0
  {
    if a == [] then [] else [a[0].0] + Keys(a[1..])
  }

  /** `$a[$k] ?? null` as an option: the value stored under the key, if any. */
  function Lookup(a: PhpArray, k: Key): (r: Option<Value>)
    ensures r.Some? <==> HasKey(a, k)
    ensures r.Some? ==> exists i | 0 <= i < |a| :: a[i] == (k, r.value)
  {
    if a == [] then None
    else if a[0].0 == k then Some(a[0].1)
    else
      var r := Lookup(a[1..], k);
      assert forall i :: 0 <= i < |a| - 1 ==> a[1..][i] == a[i + 1];
      r
  }

  /** `$a[$k] = $v`: overwrite the entry with that key in place, or append one. */
  function Put(a: PhpArray, k: Key, v: Value): PhpArray
  {
    if a == [] then [(k, v)]
    else if a[0].0 == k then [(k, v)] + a[1..]
    else [a[0]] + Put(a[1..], k, v)
  }

  /** After `$a[$k] = $v`, reading `$a[$k]` gives `$v` and every other key reads as before. */
  lemma {:induction false} PutThenLookup(a: PhpArray, k: Key, v: Value, other: Key)
    ensures Lookup(Put(a, k, v), k) == Some(v)
    ensures other != k ==> Lookup(Put(a, k, v), other) == Lookup(a, other)
  {
    if a != [] && a[0].0 != k {
      PutThenLookup(a[1..], k, v, other);
      assert Put(a, k, v)[1..] == Put(a[1..], k, v);
    }
  }
}
