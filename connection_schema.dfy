/**
 * State migration of the `auth0_connection` resource. A state is the
 * decoded JSON of the stored resource: a map from attribute names to
 * values, where a nested block such as `options` is a list of maps.
 * Version 0 stored `options[0].strategy_version` as a string, version 1
 * as an integer; version 2 nests `options[0].validation` as
 * `[{ "username": [v] }]`.
 */
module ConnectionSchema {
  import opened Wrappers
  import opened Strconv

  /** A decoded state value: strings, integers, lists, maps, and everything else (null, booleans, floats). */
  datatype Value = Str(s: string) | Int(i: int) | List(items: seq<Value>) | Map(entries: map<string, Value>) | Other

  type State = map<string, Value>

  /** An upgrader either returns a state and an error, or panics. */
  datatype Upgrade = Returned(state: State, err: Option<string>) | Panic

  /** `options` is a non-empty list whose first element is not a map: the unchecked type assertion panics. */
  predicate FirstOptionsNotMap(state: State) {
    "options" in state && state["options"].List? && |state["options"].items| > 0 && !state["options"].items[0].Map?
  }

  /** The map in `options[0]`, when `options` is a non-empty list that starts with a map. */
  function FirstOptions(state: State): (m: Option<map<string, Value>>)
    ensures m.Some? <==> ("options" in state && state["options"].List? && |state["options"].items| > 0 &&
      state["options"].items[0].Map?)
    ensures m.Some? ==> state["options"].items[0] == Map(m.value)
  {
    if "options" in state && state["options"].List? && |state["options"].items| > 0 && state["options"].items[0].Map?
    then Some(state["options"].items[0].entries)
    else None
  }

  /** `options[0].strategy_version` is still stored as a string. */
  predicate StringStrategyVersion(state: State) {
    var m := FirstOptions(state);
    m.Some? && "strategy_version" in m.value && m.value["strategy_version"].Str?
  }

  /** The integer a version-0 strategy version string migrates to: its Atoi value, and 0 when Atoi fails. */
  function MigratedStrategyVersion(s: string): (n: int)
    ensures MinInt <= n <= MaxInt
  {
    match Atoi(s)
    case Some(v) => v
    case None => 0
  }

  /** `connectionSchemaUpgradeV0`: version 0 to version 1. */
  method UpgradeV0(state: State) returns (r: Upgrade)
    ensures r.Panic? <==> FirstOptionsNotMap(state)
    ensures r.Returned? ==> r.err == None
    ensures r.Returned? && !StringStrategyVersion(state) ==> r.state == state
    ensures StringStrategyVersion(state) ==>
      var m := FirstOptions(state).value;
      var n := MigratedStrategyVersion(m["strategy_version"].s);
      r == Returned(state["options" := List([Map(m["strategy_version" := Int(n)])])], None)
    ensures r.Returned? ==> !StringStrategyVersion(r.state)
  {
    var st := state;
    if "options" !in st {
      return Returned(st, None);
    }
    var options := st["options"];
    if options.List? && |options.items| > 0 {
      if !options.items[0].Map? {
        return Panic;
      }
      var m := options.items[0].entries;
      if "strategy_version" !in m {
        return Returned(st, None);
      }
      var strategyVersion := m["strategy_version"];
      if !strategyVersion.Str? {
        return Returned(st, None);
      }
      var parsed := Atoi(strategyVersion.s);
      if parsed.Some? {
        m := m["strategy_version" := Int(parsed.value)];
      } else {
        m := m["strategy_version" := Int(0)];
      }
      st := st["options" := List([Map(m)])];
    }
    return Returned(st, None);
  }

  /** The wrapped form version 2 stores a version-1 validation value in. */
  function WrapValidation(v: Value): Value {
    List([Map(map["username" := List([v])])])
  }

  /** Recovers the version-1 value from the wrapped form; the inverse of WrapValidation. */
  function UnwrapValidation(w: Value): (v: Option<Value>)
    ensures forall x :: w == WrapValidation(x) ==> v == Some(x)
  {
    if w.List? && |w.items| == 1 && w.items[0].Map? && "username" in w.items[0].entries
       && w.items[0].entries["username"].List? && |w.items[0].entries["username"].items| == 1
    then Some(w.items[0].entries["username"].items[0])
    else None
  }

  /** `options[0]` exists as a map and carries a `validation` key. */
  predicate HasValidation(state: State) {
    var m := FirstOptions(state);
    m.Some? && "validation" in m.value
  }

  /** `connectionSchemaUpgradeV1`: version 1 to version 2. */
  method UpgradeV1(state: State) returns (r: Upgrade)
    ensures r.Panic? <==> FirstOptionsNotMap(state)
    ensures r.Returned? ==> r.err == None
    ensures r.Returned? && !HasValidation(state) ==> r.state == state
    ensures HasValidation(state) ==>
      var m := FirstOptions(state).value;
      r == Returned(state["options" := List([Map(m["validation" := WrapValidation(m["validation"])])])], None)
    ensures HasValidation(state) ==>
      r.Returned? && FirstOptions(r.state).Some? &&
      UnwrapValidation(FirstOptions(r.state).value["validation"]) == Some(FirstOptions(state).value["validation"])
  {
    var st := state;
    if "options" !in st {
      return Returned(st, None);
    }
    var options := st["options"];
    if options.List? && |options.items| > 0 {
      if !options.items[0].Map? {
        return Panic;
      }
      var m := options.items[0].entries;
      if "validation" !in m {
        return Returned(st, None);
      }
      var validationOption := m["validation"];
      m := m["validation" := List([Map(map["username" := List([validationOption])])])];
      st := st["options" := List([Map(m)])];
    }
    return Returned(st, None);
  }

  /**
   * A version-0 state whose strategy version is the decimal rendering of an
   * in-range integer migrates to exactly that integer.
   */
  lemma StrategyVersionRoundTrip(n: int)
    requires MinInt <= n <= MaxInt
    ensures MigratedStrategyVersion(FormatInt(n)) == n
  {
    AtoiFormatInt(n);
  }

  /** Wrapping is not idempotent: running the version-1 upgrade twice nests the value twice. */
  lemma WrapValidationNotIdempotent(v: Value)
    ensures WrapValidation(WrapValidation(v)) != WrapValidation(v)
  {
    var w := WrapValidation(v);
    var inner := map["username" := List([v])];
    assert [v][0] == v;
    assert v < List([v]);
    assert inner["username"] == List([v]);
    assert List([v]) < Map(inner);
    assert [Map(inner)][0] == Map(inner);
    assert v < w;
    assert UnwrapValidation(WrapValidation(w)) == Some(w);
    assert UnwrapValidation(w) == Some(v);
  }

  // Schema declarations

  datatype ValueType = TypeBool | TypeInt | TypeFloat | TypeString | TypeList | TypeMap | TypeSet

  /** One attribute declaration, as far as the version builders set it. */
  datatype Schema = Schema(kind: ValueType, elem: Option<ValueType>, optional: bool, computed: bool)

  datatype Resource = Resource(schema: map<string, Schema>)

  /** `b` agrees with `a` on every attribute name other than `key`. */
  predicate DiffersOnlyAt(a: map<string, Schema>, b: map<string, Schema>, key: string) {
    && a.Keys - {key} == b.Keys - {key}
    && forall k :: k in a && k != key ==> k in b && a[k] == b[k]
  }

  const StrategyVersionV0: Schema := Schema(TypeString, None, true, true)
  const ValidationV1: Schema := Schema(TypeMap, Some(TypeString), true, false)

  /** `connectionSchemaV0`: the current schema with `strategy_version` declared as an optional, computed string. */
  method SchemaV0(base: map<string, Schema>) returns (res: Resource)
    ensures "strategy_version" in res.schema && res.schema["strategy_version"] == StrategyVersionV0
    ensures res.schema.Keys == base.Keys + {"strategy_version"}
    ensures DiffersOnlyAt(base, res.schema, "strategy_version")
  {
    var s := base;
    s := s["strategy_version" := StrategyVersionV0];
    return Resource(s);
  }

  /** `connectionSchemaV1`: the current schema with `validation` declared as an optional map of strings. */
  method SchemaV1(base: map<string, Schema>) returns (res: Resource)
    ensures "validation" in res.schema && res.schema["validation"] == ValidationV1
    ensures res.schema.Keys == base.Keys + {"validation"}
    ensures DiffersOnlyAt(base, res.schema, "validation")
  {
    var s := base;
    s := s["validation" := ValidationV1];
    return Resource(s);
  }
}
