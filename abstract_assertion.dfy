/**
 * The assertions built from a configuration array: AbstractAssertion, its
 * registry of selectors, its `createInstance` factory, and its only
 * subclass, Equals.
 */
module ConfigAssertions {
  import opened PhpValues

  /** ASSERT_EQUALS, the only selector in ASSERT_LIST. */
  const AssertEquals: string := "equals"

  /** ASSERT_LIST: the selectors a configuration may name. */
  const AssertList: seq<string> := [AssertEquals]

  /** The classes ASSERT_MAP can name. */
  datatype AssertionClass = EqualsClass

  /** `ASSERT_MAP[$key]`: the class registered under an array key, if any. */
  function AssertMap(k: Key): (r: Option<AssertionClass>)
    ensures r.Some? <==> k == StrKey(AssertEquals)
  {
    if k == StrKey(AssertEquals) then Some(EqualsClass) else None
  }

  /**
   * The property names reflection reports for Equals: its own `cs` and
   * `value`, and the four it inherits from AbstractAssertion.
   */
  const EqualsProperties: set<string> := {"cs", "value", "check_value", "properties", "success", "fail"}

  /** The properties `createInstance` never takes from its `$properties` argument. */
  const NoOverride: set<string> := {"check_value", "success", "fail"}

  /** `gettype($v)`. */
  function TypeName(v: Value): string
  {
    match v
    case Null => "NULL"
    case Bool(_) => "boolean"
    case Int(_) => "integer"
    case Str(_) => "string"
    case Arr(_) => "array"
    case Obj(_) => "object"
  }

  /** An array key passed to a `string` parameter: integer keys become their decimal string. */
  function KeyName(k: Key): string
  {
    match k
    case IntKey(i) => IntToString(i)
    case StrKey(s) => s
  }

  /** The state of an Equals object, field by field. */
  datatype Fields = Fields(checkValue: Value, properties: PhpArray, success: PhpArray, fail: PhpArray,
                           cs: bool, value: Value)

  /** `new Equals($check_value)`: default properties, success and fail, `cs` false, `value` null. */
  function Initial(checkValue: Value): Fields
  {
    Fields(checkValue, [], [], [], false, Null)
  }

  /**
   * A value stored into the `bool` property `cs` outside strict typing:
   * integers and strings are converted, null, arrays and objects raise a
   * TypeError (`None`).
   */
  function BoolProperty(v: Value): Option<bool>
  {
    match v
    case Bool(b) => Some(b)
    case Int(i) => Some(i != 0)
    case Str(s) => Some(s != "" && s != "0")
    case Null => None
    case Arr(_) => None
    case Obj(_) => None
  }

  /** Why `createInstance` fails. */
  datatype CreateError =
    | PropertyNotFound(key: Key)          // InvalidArgumentException "Property %s not found in %s"
    | PropertyTypeError(name: string)     // TypeError from storing a value of the wrong type

  /** What `createInstance` builds: the new object's fields, or the error it raises. */
  datatype Created = Built(fields: Fields) | Failed(error: CreateError)

  /**
   * `ReflectionProperty::setValue` for a property `createInstance` may
   * override: `cs` takes a converted boolean, `value` anything, `properties`
   * an array; `None` is the TypeError.
   */
  function Override(f: Fields, name: string, v: Value): (r: Option<Fields>)
    requires name in EqualsProperties - NoOverride
    ensures r.Some? ==> r.value.checkValue == f.checkValue && r.value.success == f.success && r.value.fail == f.fail
  {
    if name == "cs" then
      (match BoolProperty(v) case Some(b) => Some(f.(cs := b)) case None => None)
    else if name == "value" then Some(f.(value := v))
    else if v.Arr? then Some(f.(properties := v.entries))
    else None
  }

  /**
   * The loop of `createInstance` over `$properties`, in order: an unknown
   * name raises, `check_value`, `success` and `fail` are skipped, every
   * other property is overwritten.
   */
  function ApplyProperties(f: Fields, props: PhpArray): (r: Created)
    decreases props
    ensures r.Built? ==> r.fields.checkValue == f.checkValue && r.fields.success == f.success && r.fields.fail == f.fail
  {
    if props == [] then Built(f)
    else
      var name := KeyName(props[0].0);
      if name !in EqualsProperties then Failed(PropertyNotFound(props[0].0))
      else if name in NoOverride then ApplyProperties(f, props[1..])
      else match Override(f, name, props[0].1)
        case None => Failed(PropertyTypeError(name))
        case Some(g) => ApplyProperties(g, props[1..])
  }

  /** `createInstance($check_value, $properties, $success, $fail)`, as a function of its arguments. */
  function CreateInstanceSpec(checkValue: Value, properties: PhpArray, success: PhpArray, fail: PhpArray): Created
  {
    match ApplyProperties(Initial(checkValue), properties)
    case Built(f) => Built(f.(success := success, fail := fail))
    case Failed(e) => Failed(e)
  }

  /**
   * `createInstance` keeps the check value it was given and always takes
   * `success` and `fail` from its arguments, whatever `$properties` says.
   */
  lemma CreateInstanceKeepsProtectedFields(checkValue: Value, properties: PhpArray, success: PhpArray, fail: PhpArray)
    ensures var r := CreateInstanceSpec(checkValue, properties, success, fail);
            r.Built? ==> r.fields.checkValue == checkValue && r.fields.success == success && r.fields.fail == fail
  {
  }

  /** An entry naming `check_value`, `success` or `fail` is skipped without effect. */
  lemma ProtectedEntriesAreSkipped(f: Fields, name: string, v: Value, rest: PhpArray)
    requires name in NoOverride
    ensures ApplyProperties(f, [(StrKey(name), v)] + rest) == ApplyProperties(f, rest)
  {
    assert ([(StrKey(name), v)] + rest)[1..] == rest;
  }

  /** A name that is not a property of Equals, anywhere in `$properties`, means no object is built. */
  lemma {:induction false} UnknownPropertyFails(f: Fields, props: PhpArray, i: nat)
    requires i < |props| && KeyName(props[i].0) !in EqualsProperties
    ensures ApplyProperties(f, props).Failed?
    decreases i
  {
    var name := KeyName(props[0].0);
    if i > 0 && name in EqualsProperties {
      if name in NoOverride {
        UnknownPropertyFails(f, props[1..], i - 1);
      } else if Override(f, name, props[0].1).Some? {
        UnknownPropertyFails(Override(f, name, props[0].1).value, props[1..], i - 1);
      }
    }
  }

  /** `$properties[$name] ?? null` on a properties array. */
  function PropertyOf(props: PhpArray, name: string): Value
  {
    match Lookup(props, StrKey(name))
    case Some(v) => v
    case None => Null
  }

  /**
   * After `setProperty($name, $v)`, `getProperty($name)` is `$v` and every
   * other name reads as before; a name never set reads as null.
   */
  lemma PropertyRoundTrip(props: PhpArray, name: string, v: Value, other: string)
    ensures PropertyOf(Put(props, StrKey(name), v), name) == v
    ensures other != name ==> PropertyOf(Put(props, StrKey(name), v), other) == PropertyOf(props, other)
    ensures !HasKey(props, StrKey(other)) ==> PropertyOf(props, other) == Null
  {
    PutThenLookup(props, StrKey(name), v, StrKey(other));
  }

  /** An Equals object: the AbstractAssertion fields and Equals' own `cs` and `value`. */
  class Equals {
    var checkValue: Value
    var properties: PhpArray
    var success: PhpArray
    var fail: PhpArray
    var cs: bool
    var value: Value

    /** The object's fields as a value. */
    function Snapshot(): (f: Fields)
      reads this
      ensures f.checkValue == checkValue && f.properties == properties && f.success == success && f.fail == fail
      ensures f.cs == cs && f.value == value
    {
      Fields(checkValue, properties, success, fail, cs, value)
    }

    /** `new Equals($check_value, $properties, $success, $fail)`: each stored as given. */
    constructor(checkValue: Value, properties: PhpArray, success: PhpArray, fail: PhpArray)
      ensures Snapshot() == Initial(checkValue).(properties := properties, success := success, fail := fail)
    {
      this.checkValue := checkValue;
      this.properties := properties;
      this.success := success;
      this.fail := fail;
      cs := false;
      value := Null;
    }

    /** `setCheckValue($v)`. */
    method SetCheckValue(v: Value)
      modifies this
      ensures Snapshot() == old(Snapshot()).(checkValue := v)
    {
      checkValue := v;
    }

    /** `setProperties($p)`: replace the whole array. */
    method SetProperties(p: PhpArray)
      modifies this
      ensures Snapshot() == old(Snapshot()).(properties := p)
    {
      properties := p;
    }

    /** `setSuccess($s)`: replace the whole array. */
    method SetSuccess(s: PhpArray)
      modifies this
      ensures Snapshot() == old(Snapshot()).(success := s)
    {
      success := s;
    }

    /** `setFail($f)`: replace the whole array. */
    method SetFail(f: PhpArray)
      modifies this
      ensures Snapshot() == old(Snapshot()).(fail := f)
    {
      fail := f;
    }

    /** `getProperty($name)`: the stored value, or null when the name is absent. */
    function GetProperty(name: string): (r: Value)
      reads this
      ensures !HasKey(properties, StrKey(name)) ==> r == Null
      ensures Lookup(properties, StrKey(name)).Some? ==> r == Lookup(properties, StrKey(name)).value
    {
      PropertyOf(properties, name)
    }

    /**
     * `setProperty($name, $v)`: store `v` under `name`; `getProperty($name)`
     * then answers `v` and every other name answers as before.
     */
    method SetProperty(name: string, v: Value)
      modifies this
      ensures properties == Put(old(properties), StrKey(name), v)
      ensures checkValue == old(checkValue) && success == old(success) && fail == old(fail)
      ensures cs == old(cs) && value == old(value)
      ensures GetProperty(name) == v
      ensures forall other: string | other != name :: GetProperty(other) == old(GetProperty(other))
    {
      ghost var before := properties;
      properties := Put(properties, StrKey(name), v);
      forall other: string | other != name ensures GetProperty(other) == PropertyOf(before, other) {
        PropertyRoundTrip(before, name, v, other);
      }
      PropertyRoundTrip(before, name, v, name);
    }

    /** `ReflectionProperty::setValue` on `cs`, `value` or `properties`; `false` is the TypeError. */
    method SetByName(name: string, v: Value) returns (stored: bool)
      requires name in EqualsProperties - NoOverride
      modifies this
      ensures stored <==> Override(old(Snapshot()), name, v).Some?
      ensures stored ==> Snapshot() == Override(old(Snapshot()), name, v).value
      ensures !stored ==> unchanged(this)
    {
      if name == "cs" {
        match BoolProperty(v)
        case Some(b) =>
          cs := b;
          return true;
        case None =>
          return false;
      } else if name == "value" {
        value := v;
        return true;
      } else if v.Arr? {
        properties := v.entries;
        return true;
      }
      return false;
    }

    /**
     * `Equals::createInstance($check_value, $properties, $success, $fail)`:
     * build with the check value, apply `$properties` in order, then set
     * `success` and `fail`. An unknown property name raises an
     * InvalidArgumentException and a value of the wrong type a TypeError;
     * then no object is returned.
     */
    static method CreateInstance(checkValue: Value, properties: PhpArray, success: PhpArray, fail: PhpArray)
      returns (e: Equals?, error: Option<CreateError>)
      ensures var spec := CreateInstanceSpec(checkValue, properties, success, fail);
              (e != null <==> spec.Built?) && (error.Some? <==> spec.Failed?)
      ensures var spec := CreateInstanceSpec(checkValue, properties, success, fail);
              spec.Failed? ==> error == Some(spec.error)
      ensures e != null ==> fresh(e) && e.Snapshot() == CreateInstanceSpec(checkValue, properties, success, fail).fields
    {
      e := new Equals(checkValue, [], [], []);
      var i := 0;
      while i < |properties|
        invariant 0 <= i <= |properties|
        invariant fresh(e)
        invariant ApplyProperties(Initial(checkValue), properties) == ApplyProperties(e.Snapshot(), properties[i..])
      {
        assert properties[i..][0] == properties[i] && properties[i..][1..] == properties[i + 1..];
        var (key, v) := properties[i];
        var name := KeyName(key);
        if name !in EqualsProperties {
          return null, Some(PropertyNotFound(key));
        }
        if name !in NoOverride {
          var stored := e.SetByName(name, v);
          if !stored {
            return null, Some(PropertyTypeError(name));
          }
        }
        i := i + 1;
      }
      e.success := success;
      e.fail := fail;
      error := None;
    }

    /**
     * `test($v)`: a null argument is replaced by the `value` property;
     * operands of different PHP types are unequal; strings compare exactly
     * when `cs` is set and case-insensitively otherwise; integers compare
     * by value; anything else is unequal.
     */
    function Test(arg: Value): (r: bool)
      reads this
      ensures var v := if arg == Null then value else arg;
              r ==> TypeName(v) == TypeName(checkValue) && (v.Str? || v.Int?)
      ensures var v := if arg == Null then value else arg;
              r && cs ==> v == checkValue
      ensures var v := if arg == Null then value else arg;
              v == checkValue && (v.Str? || v.Int?) ==> r
    {
      var v := if arg == Null then value else arg;
      if TypeName(v) != TypeName(checkValue) then false
      else if v.Str? then (if cs then v.s == checkValue.s else Lower(v.s) == Lower(checkValue.s))
      else if v.Int? then v.i == checkValue.i
      else false
    }
  }

  /** `test(null)` answers what `test($value)` answers for the configured `value`. */
  lemma TestFallsBackToValue(e: Equals)
    ensures e.Test(Null) == e.Test(e.value)
  {
  }

  /**
   * What `test($v)` answers for a non-null argument: false across PHP
   * types; for two strings, equality (with `cs`) or equality after
   * lower-casing (without); for two integers, equality; false for two
   * booleans, arrays or objects.
   */
  lemma TestByType(e: Equals, v: Value)
    requires v != Null
    ensures TypeName(v) != TypeName(e.checkValue) ==> !e.Test(v)
    ensures v.Str? && e.checkValue.Str? ==>
              e.Test(v) == if e.cs then v.s == e.checkValue.s else Lower(v.s) == Lower(e.checkValue.s)
    ensures v.Int? && e.checkValue.Int? ==> (e.Test(v) <==> v.i == e.checkValue.i)
    ensures v.Bool? || v.Arr? || v.Obj? ==> !e.Test(v)
  {
  }

  /**
   * Two objects that differ only in `cs`: whatever matches case-sensitively
   * also matches without case sensitivity.
   */
  lemma CaseSensitiveMatchImpliesInsensitive(sensitive: Equals, insensitive: Equals, arg: Value)
    requires sensitive.cs && !insensitive.cs
    requires sensitive.checkValue == insensitive.checkValue && sensitive.value == insensitive.value
    ensures sensitive.Test(arg) ==> insensitive.Test(arg)
  {
  }

  /**
   * `test` is symmetric: for two non-null check values and the same `cs`,
   * each object matches the other's check value or neither does.
   */
  lemma TestIsSymmetric(e1: Equals, e2: Equals)
    requires e1.cs == e2.cs && e1.checkValue != Null && e2.checkValue != Null
    ensures e1.Test(e2.checkValue) == e2.Test(e1.checkValue)
  {
  }

  /** By default (`cs` false) 'Hello' equals 'hello'; with `cs` set it does not. */
  lemma TestCaseSensitivity(e: Equals)
    requires e.checkValue == Str("Hello")
    ensures e.Test(Str("hello")) == !e.cs
  {
    assert Lower("hello") == Lower("Hello") by {
      assert Lower("hello") == "hello";
      assert Lower("Hello") == "hello";
    }
    assert "hello" != "Hello" by { assert "hello"[0] != "Hello"[0]; }
  }
}
