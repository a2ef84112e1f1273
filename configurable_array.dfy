/**
 * ConfigurableArray: the validator of a nested configuration array, with
 * its fixed order of checks and the exception each check raises.
 */
module ConfigValidation {
  import opened PhpValues
  import opened ConfigAssertions

  /** MANDATORY_KEYS. */
  const MandatoryKeys: seq<string> := ["type", "operands"]

  /** OPTIONAL_KEYS. */
  const OptionalKeys: seq<string> := ["properties", "children"]

  /** OPERAND_KEYS. */
  const OperandKeys: seq<string> := ["left", "right"]

  /**
   * What the validator asks of the running program: loose equality,
   * `is_callable($type)`, and whether a class of the given name exists and
   * has AbstractAssertion among its parents.
   */
  datatype Runtime = Runtime(php: Php, isCallable: Value -> bool, isAssertionClass: string -> bool)

  /** The exceptions `validate` raises. */
  datatype ConfigError =
    | MissingMandatoryKey(key: string)    // "Missing mandatory key '%s'"
    | UnknownKey(unknown: Key)            // "Unknown key '%s'"
    | InvalidType                         // "Invalid value in 'type' key"
    | MissingOperandKey(operand: string)  // "Missing mandatory key '%s' in 'operands' key"
    | PropertiesNotArray                  // "Invalid value in 'properties' key. Array required"
    | InvalidProperty(property: Key)      // "Invalid property '%s' in 'properties' key"
    | ChildrenNotArray                    // "Invalid value in 'children' key. Array required"
    | InvalidChild(cause: ConfigError)    // "Invalid value in 'children' data config. %s"
    | Uncaught                            // a TypeError or ReflectionException, not an InvalidArgumentException

  /** The answer of `validate`: it returns, or raises the given error. */
  datatype Verdict = Accepted | Rejected(error: ConfigError)

  /** The first of `keys`, in order, that `config` does not hold. */
  function FirstMissing(config: PhpArray, keys: seq<string>): (r: Option<string>)
    ensures r.None? <==> forall i | 0 <= i < |keys| :: HasKey(config, StrKey(keys[i]))
    ensures r.Some? ==> r.value in keys && !HasKey(config, StrKey(r.value))
    ensures keys != [] && !HasKey(config, StrKey(keys[0])) ==> r == Some(keys[0])
  {
    if keys == [] then None
    else if !HasKey(config, StrKey(keys[0])) then Some(keys[0])
    else
      var r := FirstMissing(config, keys[1..]);
      assert forall i | 0 < i < |keys| :: keys[i] == keys[1..][i - 1];
      r
  }

  /** A key `in_array` finds among MANDATORY_KEYS and OPTIONAL_KEYS: only that exact string. */
  predicate IsKnownKey(k: Key)
  {
    k.StrKey? && k.s in MandatoryKeys + OptionalKeys
  }

  /** The first key of `config`, in iteration order, that is not known. */
  function FirstUnknownKey(config: PhpArray): (r: Option<Key>)
    ensures r.None? <==> forall i | 0 <= i < |config| :: IsKnownKey(config[i].0)
    ensures r.Some? ==> !IsKnownKey(r.value)
  {
    if config == [] then None
    else if !IsKnownKey(config[0].0) then Some(config[0].0)
    else
      var r := FirstUnknownKey(config[1..]);
      assert forall i | 0 < i < |config| :: config[i] == config[1..][i - 1];
      r
  }

  /** The unknown key reported is the first unknown key in iteration order. */
  lemma {:induction false} FirstUnknownKeyIsFirst(config: PhpArray, i: nat)
    requires i < |config| && !IsKnownKey(config[i].0)
    requires forall j | 0 <= j < i :: IsKnownKey(config[j].0)
    ensures FirstUnknownKey(config) == Some(config[i].0)
  {
    if i > 0 {
      FirstUnknownKeyIsFirst(config[1..], i - 1);
    }
  }

  /** `in_array($type, ASSERT_LIST)`, with loose comparison. */
  predicate InAssertList(php: Php, v: Value)
  {
    exists i | 0 <= i < |AssertList| :: php.looseEquals(v, Str(AssertList[i]))
  }

  /** `$config[$key]` on a key the array may lack: null when it is absent. */
  function Get(config: PhpArray, key: string): Value
  {
    match Lookup(config, StrKey(key))
    case Some(v) => v
    case None => Null
  }

  /** `isset($config[$key])`: present and not null. */
  predicate IsSet(config: PhpArray, key: string)
  {
    HasKey(config, StrKey(key)) && Get(config, key) != Null
  }

  /**
   * `validateType($type)`: a selector in ASSERT_LIST, a callable, or the name
   * of an assertion class. An array or object that is neither of the first
   * two makes `class_exists` raise a TypeError.
   */
  function TypeCheck(rt: Runtime, t: Value): (r: Option<ConfigError>)
    ensures r.None? <==> InAssertList(rt.php, t) || rt.isCallable(t) ||
                         (StringArgument(t).Some? && rt.isAssertionClass(StringArgument(t).value))
    ensures r.Some? ==> r.value == InvalidType || r.value == Uncaught
    ensures r.Some? ==> (r.value == InvalidType <==> StringArgument(t).Some?)
  {
    if InAssertList(rt.php, t) || rt.isCallable(t) then None
    else match StringArgument(t)
      case None => Some(Uncaught)
      case Some(name) => if rt.isAssertionClass(name) then None else Some(InvalidType)
  }

  /**
   * `validateOperands($operands)`: an array holding `left` and then `right`;
   * anything but an array raises a TypeError.
   */
  function OperandsCheck(operands: Value): (r: Option<ConfigError>)
    ensures r.None? <==> operands.Arr? && HasKey(operands.entries, StrKey("left")) && HasKey(operands.entries, StrKey("right"))
    ensures operands.Arr? && !HasKey(operands.entries, StrKey("left")) ==> r == Some(MissingOperandKey("left"))
    ensures !operands.Arr? ==> r == Some(Uncaught)
    ensures operands.Arr? && r.Some? ==> r.value.MissingOperandKey?
    ensures operands.Arr? && HasKey(operands.entries, StrKey("left")) && !HasKey(operands.entries, StrKey("right")) ==>
              r == Some(MissingOperandKey("right"))
  {
    if !operands.Arr? then Some(Uncaught)
    else match FirstMissing(operands.entries, OperandKeys)
      case Some(k) => Some(MissingOperandKey(k))
      case None =>
        assert HasKey(operands.entries, StrKey(OperandKeys[0])) && HasKey(operands.entries, StrKey(OperandKeys[1]));
        None
  }

  /** The first key of an Equals `properties` array that is not a property of Equals. */
  function FirstForeignProperty(props: PhpArray): (r: Option<Key>)
    ensures r.None? <==> forall i | 0 <= i < |props| :: props[i].0.StrKey? && props[i].0.s in EqualsProperties
    ensures r.Some? ==> !(r.value.StrKey? && r.value.s in EqualsProperties)
  {
    if props == [] then None
    else if !(props[0].0.StrKey? && props[0].0.s in EqualsProperties) then Some(props[0].0)
    else
      var r := FirstForeignProperty(props[1..]);
      assert forall i | 0 < i < |props| :: props[i] == props[1..][i - 1];
      r
  }

  /**
   * `validateProperties($config['properties'])`: the argument must be an
   * array; only when it holds a key `properties` of its own is that entry
   * checked, against the `type` found beside it. A listed selector or
   * assertion class is looked up in ASSERT_MAP; a miss there makes
   * ReflectionClass raise.
   */
  function PropertiesCheck(rt: Runtime, sub: Value): (r: Option<ConfigError>)
    ensures !sub.Arr? ==> r == Some(Uncaught)
    ensures sub.Arr? && !HasKey(sub.entries, StrKey("properties")) ==> r.None?
    ensures r.Some? ==> r.value == Uncaught || r.value == PropertiesNotArray || r.value.InvalidProperty?
    ensures r.Some? && r.value.InvalidProperty? ==>
              sub.Arr? && Get(sub.entries, "type") == Str(AssertEquals) && Get(sub.entries, "properties").Arr?
    ensures sub.Arr? && HasKey(sub.entries, StrKey("properties")) && !Get(sub.entries, "properties").Arr? ==>
              r == Some(PropertiesNotArray)
    ensures sub.Arr? && Get(sub.entries, "properties").Arr? && !InAssertList(rt.php, Get(sub.entries, "type")) &&
            StringArgument(Get(sub.entries, "type")).Some? && !rt.isAssertionClass(StringArgument(Get(sub.entries, "type")).value) ==>
              r.None?
    ensures sub.Arr? && Get(sub.entries, "properties").Arr? && Get(sub.entries, "type") == Str(AssertEquals) &&
            InAssertList(rt.php, Str(AssertEquals)) ==>
              var foreign := FirstForeignProperty(Get(sub.entries, "properties").entries);
              r == if foreign.Some? then Some(InvalidProperty(foreign.value)) else None
    ensures sub.Arr? && Get(sub.entries, "properties").Arr? && !InAssertList(rt.php, Get(sub.entries, "type")) &&
            StringArgument(Get(sub.entries, "type")).None? ==>
              r == Some(Uncaught)
    ensures sub.Arr? && Get(sub.entries, "properties").Arr? ==>
            var t := Get(sub.entries, "type");
            (InAssertList(rt.php, t) || (StringArgument(t).Some? && rt.isAssertionClass(StringArgument(t).value))) &&
            (KeyArgument(t).None? || AssertMap(KeyArgument(t).value).None?) ==>
              r == Some(Uncaught)
  {
    if !sub.Arr? then Some(Uncaught)
    else if !HasKey(sub.entries, StrKey("properties")) then None
    else
      var props := Get(sub.entries, "properties");
      var t := Get(sub.entries, "type");
      if !props.Arr? then Some(PropertiesNotArray)
      else if !InAssertList(rt.php, t) && StringArgument(t).None? then Some(Uncaught)
      else if !InAssertList(rt.php, t) && !rt.isAssertionClass(StringArgument(t).value) then None
      else match KeyArgument(t)
        case None => Some(Uncaught)
        case Some(k) =>
          if AssertMap(k).None? then Some(Uncaught)
          else match FirstForeignProperty(props.entries)
            case None => None
            case Some(p) => Some(InvalidProperty(p))
  }

  /** The key checks pass: every mandatory key is present and, when the flag is set, no key is unknown. */
  predicate KeysPass(ignoreUnknownKeys: bool, config: PhpArray)
  {
    FirstMissing(config, MandatoryKeys).None? && !(ignoreUnknownKeys && FirstUnknownKey(config).Some?)
  }

  /**
   * `validate($config)`: mandatory keys, unknown keys (only when the static
   * flag `$ignoreUnknownKeys` is true), `type`, `operands`, then the set
   * optional `properties` and `children`. The first failing check raises.
   */
  function Validate(rt: Runtime, ignoreUnknownKeys: bool, config: PhpArray): (r: Verdict)
    decreases Arr(config), 1
    ensures r.Accepted? ==> FirstMissing(config, MandatoryKeys).None?
    ensures r.Accepted? ==> OperandsCheck(Get(config, "operands")).None? && TypeCheck(rt, Get(config, "type")).None?
    ensures r.Accepted? && ignoreUnknownKeys ==> forall i | 0 <= i < |config| :: IsKnownKey(config[i].0)
  {
    match FirstMissing(config, MandatoryKeys)
    case Some(k) => Rejected(MissingMandatoryKey(k))
    case None =>
      if ignoreUnknownKeys && FirstUnknownKey(config).Some? then Rejected(UnknownKey(FirstUnknownKey(config).value))
      else match TypeCheck(rt, Get(config, "type"))
        case Some(e) => Rejected(e)
        case None =>
          match OperandsCheck(Get(config, "operands"))
          case Some(e) => Rejected(e)
          case None =>
            var properties := if IsSet(config, "properties") then PropertiesCheck(rt, Get(config, "properties")) else None;
            if properties.Some? then Rejected(properties.value)
            else if !IsSet(config, "children") then Accepted
            else ChildrenCheck(rt, ignoreUnknownKeys, config, Get(config, "children"))
  }

  /**
   * The checks of `validate` run in a fixed order and the first failing one
   * decides: a missing mandatory key, then an unknown key (when the flag is
   * set), then the type, the operands, a set `properties` and a set
   * `children`; a configuration is accepted exactly when every check that
   * applies passes.
   */
  lemma ValidateChecksInOrder(rt: Runtime, ignoreUnknownKeys: bool, config: PhpArray)
    ensures FirstMissing(config, MandatoryKeys).Some? ==>
              Validate(rt, ignoreUnknownKeys, config) == Rejected(MissingMandatoryKey(FirstMissing(config, MandatoryKeys).value))
    ensures FirstMissing(config, MandatoryKeys).None? && ignoreUnknownKeys && FirstUnknownKey(config).Some? ==>
              Validate(rt, ignoreUnknownKeys, config) == Rejected(UnknownKey(FirstUnknownKey(config).value))
    ensures KeysPass(ignoreUnknownKeys, config) && TypeCheck(rt, Get(config, "type")).Some? ==>
              Validate(rt, ignoreUnknownKeys, config) == Rejected(TypeCheck(rt, Get(config, "type")).value)
    ensures KeysPass(ignoreUnknownKeys, config) && TypeCheck(rt, Get(config, "type")).None? &&
            OperandsCheck(Get(config, "operands")).Some? ==>
              Validate(rt, ignoreUnknownKeys, config) == Rejected(OperandsCheck(Get(config, "operands")).value)
    ensures KeysPass(ignoreUnknownKeys, config) && TypeCheck(rt, Get(config, "type")).None? &&
            OperandsCheck(Get(config, "operands")).None? && IsSet(config, "properties") &&
            PropertiesCheck(rt, Get(config, "properties")).Some? ==>
              Validate(rt, ignoreUnknownKeys, config) == Rejected(PropertiesCheck(rt, Get(config, "properties")).value)
    ensures KeysPass(ignoreUnknownKeys, config) && TypeCheck(rt, Get(config, "type")).None? &&
            OperandsCheck(Get(config, "operands")).None? &&
            (IsSet(config, "properties") ==> PropertiesCheck(rt, Get(config, "properties")).None?) ==>
              Validate(rt, ignoreUnknownKeys, config) == if IsSet(config, "children") then ChildrenCheck(rt, ignoreUnknownKeys, config, Get(config, "children"))
                   else Accepted
  {
  }

  /**
   * `validateChildren($config['children'])`: the argument must be an array;
   * only when it holds a key `children` of its own is that entry validated
   * as a configuration, and an InvalidArgumentException from it is wrapped.
   */
  function ChildrenCheck(rt: Runtime, ignoreUnknownKeys: bool, config: PhpArray, sub: Value): (r: Verdict)
    requires HasKey(config, StrKey("children")) && sub == Get(config, "children")
    decreases Arr(config), 0
    ensures !sub.Arr? ==> r == Rejected(Uncaught)
    ensures sub.Arr? && !HasKey(sub.entries, StrKey("children")) ==> r.Accepted?
    ensures sub.Arr? && HasKey(sub.entries, StrKey("children")) && !Get(sub.entries, "children").Arr? ==>
              r == Rejected(ChildrenNotArray)
  {
    ChildIsSmaller(config, "children");
    if !sub.Arr? then Rejected(Uncaught)
    else if !HasKey(sub.entries, StrKey("children")) then Accepted
    else
      var child := Get(sub.entries, "children");
      if !child.Arr? then Rejected(ChildrenNotArray)
      else
        ChildIsSmaller(sub.entries, "children");
        match Validate(rt, ignoreUnknownKeys, child.entries)
        case Accepted => Accepted
        case Rejected(e) => if e.Uncaught? then Rejected(Uncaught) else Rejected(InvalidChild(e))
  }

  /** An entry of an array is smaller than the array. */
  lemma ChildIsSmaller(config: PhpArray, key: string)
    requires HasKey(config, StrKey(key))
    ensures Get(config, key) < Arr(config)
  {
    var i :| 0 <= i < |config| && config[i] == (StrKey(key), Get(config, key));
    assert config[i] in config;
  }

  /** An error, or an error it wraps, is an unknown-key error. */
  predicate MentionsUnknownKey(e: ConfigError)
  {
    match e
    case UnknownKey(_) => true
    case InvalidChild(cause) => MentionsUnknownKey(cause)
    case _ => false
  }

  /** An error that wraps a TypeError or ReflectionException, at any depth. */
  predicate WrapsUncaught(e: ConfigError)
  {
    match e
    case InvalidChild(cause) => cause.Uncaught? || WrapsUncaught(cause)
    case _ => false
  }

  /**
   * The children of a configuration whose `children` entry is an array that
   * holds its own `children` array: the configuration `validateChildren`
   * builds.
   */
  predicate HasNestedChild(config: PhpArray)
  {
    HasKey(config, StrKey("children")) && Get(config, "children").Arr? &&
    HasKey(Get(config, "children").entries, StrKey("children")) &&
    Get(Get(config, "children").entries, "children").Arr?
  }

  /** The configuration `validateChildren` validates, and that it is smaller. */
  function NestedChild(config: PhpArray): (child: PhpArray)
    requires HasNestedChild(config)
    ensures Arr(child) < Arr(config)
  {
    ChildIsSmaller(config, "children");
    ChildIsSmaller(Get(config, "children").entries, "children");
    Get(Get(config, "children").entries, "children").entries
  }

  /**
   * `validateChildren` validates the nested configuration: it accepts
   * exactly when that configuration is accepted, and wraps its rejection
   * as an invalid child unless it is a TypeError or ReflectionException.
   */
  lemma NestedChildVerdict(rt: Runtime, ignoreUnknownKeys: bool, config: PhpArray)
    requires HasNestedChild(config)
    ensures var inner := Validate(rt, ignoreUnknownKeys, NestedChild(config));
            var r := ChildrenCheck(rt, ignoreUnknownKeys, config, Get(config, "children"));
            (r.Accepted? <==> inner.Accepted?) &&
            (inner.Rejected? ==> r == Rejected(if inner.error.Uncaught? then Uncaught else InvalidChild(inner.error)))
  {
  }

  /** With `$ignoreUnknownKeys` false, no level of the configuration reports an unknown key. */
  lemma {:induction false} UnknownKeysNeedTheFlag(rt: Runtime, config: PhpArray)
    ensures Validate(rt, false, config).Rejected? ==> !MentionsUnknownKey(Validate(rt, false, config).error)
    decreases Arr(config)
  {
    if HasNestedChild(config) {
      UnknownKeysNeedTheFlag(rt, NestedChild(config));
    }
  }

  /**
   * Turning the unknown-key check on only adds rejections: a configuration
   * accepted with `$ignoreUnknownKeys` true is accepted with it false.
   */
  lemma {:induction false} FlagOnlyAddsRejections(rt: Runtime, config: PhpArray)
    ensures Validate(rt, true, config).Accepted? ==> Validate(rt, false, config).Accepted?
    decreases Arr(config)
  {
    if Validate(rt, true, config).Accepted? {
      if HasNestedChild(config) {
        FlagOnlyAddsRejections(rt, NestedChild(config));
      }
      assert IsSet(config, "children") ==>
               ChildrenCheck(rt, true, config, Get(config, "children")).Accepted? &&
               ChildrenCheck(rt, false, config, Get(config, "children")).Accepted?;
    }
  }

  /**
   * Only InvalidArgumentExceptions are wrapped: a TypeError or
   * ReflectionException from a nested configuration escapes as it is.
   */
  lemma {:induction false} UncaughtIsNeverWrapped(rt: Runtime, ignoreUnknownKeys: bool, config: PhpArray)
    ensures Validate(rt, ignoreUnknownKeys, config).Rejected? ==> !WrapsUncaught(Validate(rt, ignoreUnknownKeys, config).error)
    decreases Arr(config)
  {
    if HasNestedChild(config) {
      UncaughtIsNeverWrapped(rt, ignoreUnknownKeys, NestedChild(config));
    }
  }

  /** `['left' => 1, 'right' => 2]`. */
  const LeftRight: Value := Arr([(StrKey("left"), Int(1)), (StrKey("right"), Int(2))])

  /** `['type' => 'equals', 'operands' => ['left' => 1, 'right' => 2]]` followed by `extra`. */
  function EqualsConfig(extra: PhpArray): PhpArray
  {
    [(StrKey("type"), Str(AssertEquals)), (StrKey("operands"), LeftRight)] + extra
  }

  /** The mandatory part of `EqualsConfig(extra)` passes the key, type and operand checks. */
  lemma EqualsConfigHead(rt: Runtime, extra: PhpArray)
    requires rt.php.looseEquals(Str(AssertEquals), Str(AssertEquals))
    ensures FirstMissing(EqualsConfig(extra), MandatoryKeys).None?
    ensures TypeCheck(rt, Get(EqualsConfig(extra), "type")).None?
    ensures OperandsCheck(Get(EqualsConfig(extra), "operands")).None?
  {
    var config := EqualsConfig(extra);
    assert config[0] == (StrKey("type"), Str(AssertEquals)) && config[1] == (StrKey("operands"), LeftRight);
    assert Get(config, "type") == Str(AssertEquals);
    assert config[1..][0] == config[1];
    assert "type" != "operands" by { assert "type"[0] != "operands"[0]; }
    assert Lookup(config[1..], StrKey("operands")) == Some(LeftRight);
    assert Lookup(config, StrKey("operands")) == Some(LeftRight);
    assert InAssertList(rt.php, Str(AssertEquals)) by { assert AssertList[0] == AssertEquals; }
    assert LeftRight.entries[0].0 == StrKey("left") && LeftRight.entries[1].0 == StrKey("right");
  }

  /** A configuration with only its mandatory keys is accepted in both modes. */
  lemma MinimalConfig(rt: Runtime, ignoreUnknownKeys: bool)
    requires rt.php.looseEquals(Str(AssertEquals), Str(AssertEquals))
    ensures Validate(rt, ignoreUnknownKeys, EqualsConfig([])) == Accepted
  {
    EqualsConfigHead(rt, []);
    assert !HasKey(EqualsConfig([]), StrKey("properties")) && !HasKey(EqualsConfig([]), StrKey("children"));
  }

  /** A key outside MANDATORY_KEYS and OPTIONAL_KEYS is reported only when the flag is true. */
  lemma UnknownKeyCases(rt: Runtime)
    requires rt.php.looseEquals(Str(AssertEquals), Str(AssertEquals))
    ensures Validate(rt, true, EqualsConfig([(StrKey("bogus"), Bool(true))])) == Rejected(UnknownKey(StrKey("bogus")))
    ensures Validate(rt, false, EqualsConfig([(StrKey("bogus"), Bool(true))])) == Accepted
  {
    var config := EqualsConfig([(StrKey("bogus"), Bool(true))]);
    EqualsConfigHead(rt, [(StrKey("bogus"), Bool(true))]);
    assert !IsKnownKey(config[2].0);
    FirstUnknownKeyIsFirst(config, 2);
    assert !HasKey(config, StrKey("properties")) && !HasKey(config, StrKey("children"));
  }

  /** Reading a key gives the value of its first entry. */
  lemma {:induction false} LookupFirst(a: PhpArray, i: nat)
    requires i < |a| && forall j | 0 <= j < i :: a[j].0 != a[i].0
    ensures Lookup(a, a[i].0) == Some(a[i].1)
  {
    if i > 0 {
      assert a[1..][i - 1] == a[i];
      LookupFirst(a[1..], i - 1);
    }
  }

  /** `['notARealProp' => true]`: a property Equals does not declare. */
  const ForeignProperties: Value := Arr([(StrKey("notARealProp"), Bool(true))])

  /**
   * `validateProperties` looks for `properties` inside the `properties`
   * entry: a flat `['properties' => ['notARealProp' => true]]` is accepted
   * unchecked.
   */
  lemma FlatPropertiesAreUnchecked(rt: Runtime, ignoreUnknownKeys: bool)
    requires rt.php.looseEquals(Str(AssertEquals), Str(AssertEquals))
    ensures Validate(rt, ignoreUnknownKeys, EqualsConfig([(StrKey("properties"), ForeignProperties)])) == Accepted
  {
    var flat := EqualsConfig([(StrKey("properties"), ForeignProperties)]);
    EqualsConfigHead(rt, [(StrKey("properties"), ForeignProperties)]);
    assert IsKnownKey(flat[0].0) && IsKnownKey(flat[1].0) && IsKnownKey(flat[2].0);
    assert FirstUnknownKey(flat).None?;
    LookupFirst(flat, 2);
    assert Get(flat, "properties") == ForeignProperties;
    assert !HasKey(ForeignProperties.entries, StrKey("properties"));
    assert PropertiesCheck(rt, ForeignProperties).None?;
    assert !HasKey(flat, StrKey("children"));
  }

  /** The nested form, with a `type` beside the inner `properties`, is checked and rejected. */
  lemma NestedPropertiesAreChecked(rt: Runtime, ignoreUnknownKeys: bool)
    requires rt.php.looseEquals(Str(AssertEquals), Str(AssertEquals))
    ensures Validate(rt, ignoreUnknownKeys,
                     EqualsConfig([(StrKey("properties"),
                                    Arr([(StrKey("type"), Str(AssertEquals)), (StrKey("properties"), ForeignProperties)]))]))
            == Rejected(InvalidProperty(StrKey("notARealProp")))
  {
    var inner := [(StrKey("type"), Str(AssertEquals)), (StrKey("properties"), ForeignProperties)];
    var nested := EqualsConfig([(StrKey("properties"), Arr(inner))]);
    EqualsConfigHead(rt, [(StrKey("properties"), Arr(inner))]);
    assert IsKnownKey(nested[0].0) && IsKnownKey(nested[1].0) && IsKnownKey(nested[2].0);
    assert FirstUnknownKey(nested).None?;
    LookupFirst(nested, 2);
    assert Get(nested, "properties") == Arr(inner);
    InnerPropertiesRejected(rt, inner);
  }

  /** The inner `properties` array of the nested form names a property Equals lacks. */
  lemma InnerPropertiesRejected(rt: Runtime, inner: PhpArray)
    requires rt.php.looseEquals(Str(AssertEquals), Str(AssertEquals))
    requires inner == [(StrKey("type"), Str(AssertEquals)), (StrKey("properties"), ForeignProperties)]
    ensures PropertiesCheck(rt, Arr(inner)) == Some(InvalidProperty(StrKey("notARealProp")))
  {
    LookupFirst(inner, 0);
    LookupFirst(inner, 1);
    assert Get(inner, "type") == Str(AssertEquals) && Get(inner, "properties") == ForeignProperties;
    assert InAssertList(rt.php, Str(AssertEquals)) by { assert AssertList[0] == AssertEquals; }
    assert "notARealProp" !in EqualsProperties;
    assert FirstForeignProperty(ForeignProperties.entries) == Some(StrKey("notARealProp"));
  }

  /** `['type' => 'equals']`: a child configuration without operands. */
  const IncompleteChild: Value := Arr([(StrKey("type"), Str(AssertEquals))])

  /** `['children' => []]`: an empty configuration nested one level down. */
  const NestedEmptyChild: Value := Arr([(StrKey("children"), Arr([]))])

  /**
   * `validateChildren` looks for `children` inside the `children` entry: an
   * incomplete child configuration given directly is accepted unchecked.
   */
  lemma FlatChildrenAreUnchecked(rt: Runtime, ignoreUnknownKeys: bool)
    requires rt.php.looseEquals(Str(AssertEquals), Str(AssertEquals))
    ensures Validate(rt, ignoreUnknownKeys, EqualsConfig([(StrKey("children"), IncompleteChild)])) == Accepted
  {
    var direct := EqualsConfig([(StrKey("children"), IncompleteChild)]);
    EqualsConfigHead(rt, [(StrKey("children"), IncompleteChild)]);
    assert IsKnownKey(direct[0].0) && IsKnownKey(direct[1].0) && IsKnownKey(direct[2].0);
    assert FirstUnknownKey(direct).None?;
    assert !HasKey(direct, StrKey("properties"));
    LookupFirst(direct, 2);
    assert Get(direct, "children") == IncompleteChild;
    assert !HasKey(IncompleteChild.entries, StrKey("children"));
  }

  /** An empty configuration nested one level down is validated, and its error wrapped. */
  lemma NestedChildrenAreChecked(rt: Runtime, ignoreUnknownKeys: bool)
    requires rt.php.looseEquals(Str(AssertEquals), Str(AssertEquals))
    ensures Validate(rt, ignoreUnknownKeys, EqualsConfig([(StrKey("children"), NestedEmptyChild)]))
            == Rejected(InvalidChild(MissingMandatoryKey("type")))
  {
    var nested := EqualsConfig([(StrKey("children"), NestedEmptyChild)]);
    EqualsConfigHead(rt, [(StrKey("children"), NestedEmptyChild)]);
    assert IsKnownKey(nested[0].0) && IsKnownKey(nested[1].0) && IsKnownKey(nested[2].0);
    assert FirstUnknownKey(nested).None?;
    assert !HasKey(nested, StrKey("properties"));
    LookupFirst(nested, 2);
    assert Get(nested, "children") == NestedEmptyChild;
    LookupFirst(NestedEmptyChild.entries, 0);
    assert Get(NestedEmptyChild.entries, "children") == Arr([]);
    assert Validate(rt, ignoreUnknownKeys, []) == Rejected(MissingMandatoryKey("type"));
  }

  /**
   * The checks run in a fixed order: a configuration that lacks `operands`
   * is rejected for that, whatever its `children` hold.
   */
  lemma MissingKeyComesFirst(rt: Runtime, ignoreUnknownKeys: bool)
    ensures Validate(rt, ignoreUnknownKeys, [(StrKey("type"), Str(AssertEquals)), (StrKey("children"), NestedEmptyChild)])
            == Rejected(MissingMandatoryKey("operands"))
  {
    var config := [(StrKey("type"), Str(AssertEquals)), (StrKey("children"), NestedEmptyChild)];
    assert config[0].0 == StrKey("type");
    assert !HasKey(config, StrKey("operands"));
  }

  /** A ConfigurableArray object: a configuration that passed validation. */
  class ConfigurableArray {
    var config: PhpArray

    /**
     * `new ConfigurableArray($config)`: validate, and store `config` only
     * when validation returns; otherwise no object and the error raised.
     */
    static method Create(rt: Runtime, ignoreUnknownKeys: bool, config: PhpArray) returns (c: ConfigurableArray?, verdict: Verdict)
      ensures verdict == Validate(rt, ignoreUnknownKeys, config)
      ensures c != null <==> verdict.Accepted?
      ensures c != null ==> fresh(c) && c.config == config
    {
      verdict := Validate(rt, ignoreUnknownKeys, config);
      if verdict.Rejected? {
        return null, verdict;
      }
      c := new ConfigurableArray.Store(config);
    }

    /** The assignment of the `config` field that follows validation. */
    constructor Store(config: PhpArray)
      ensures this.config == config
    {
      this.config := config;
    }
  }
}
