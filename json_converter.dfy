/** The generic JSON "hydration" walk of json-converter/convert-json.js.
    `Convert` and `Warnings` say what one call of `convertJSON` returns and
    which warnings it logs; the methods `ConvertJSON`, `ConvertClassInstance`
    and `ConvertPlainObject` follow the source step by step (the copy and
    `delete` of the type key, the logger call, the `for…in` loop) and are
    proved against them. */
module JsonConverter {
  import opened JsValues

  /** A configuration object: `typeKey`, `classes`, `enumerations`, `log`, …,
      each entry a JavaScript value. */
  type Config = map<string, Value>

  const DefaultTypeKey := "type"

  /** The message of the converter's `assert` helper, called without a message. */
  const AssertionMessage := "JSON conversion error "

  /** `validateConfiguration`: throws unless `typeKey` is falsy or a string and
      `classes` is a non-null object; otherwise returns true. */
  function ValidateConfiguration(configuration: Config): (r: Result<bool>)
    ensures r.Ok? <==>
      (!Truthy(Get(configuration, "typeKey")) || Get(configuration, "typeKey").Str?)
      && IsObject(Get(configuration, "classes"))
    ensures r.Ok? ==> r.value
    ensures r.Error? ==> r.message == AssertionMessage
  {
    var typeKey := Get(configuration, "typeKey");
    if !(!Truthy(typeKey) || typeKey.Str?) then Error(AssertionMessage)
    else if !IsObject(Get(configuration, "classes")) then Error(AssertionMessage)
    else Ok(true)
  }

  /** The property name `const {typeKey = DEFAULT_TYPE_KEY} = configuration`
      selects: the default applies only when `typeKey` is `undefined`; any
      other value is used as a property key, so a falsy `typeKey` that
      validation lets through (`null`, `false`, `0`, `""`) does not select
      `"type"`. */
  function TypeKey(configuration: Config): (r: string)
    ensures Get(configuration, "typeKey").Undefined? ==> r == DefaultTypeKey
    ensures Get(configuration, "typeKey").Str? ==> r == Get(configuration, "typeKey").s
    ensures ValidateConfiguration(configuration).Ok? && !Get(configuration, "typeKey").Undefined?
              && !Get(configuration, "typeKey").Str?
            ==> r in {"null", "false", "0"}
  {
    var typeKey := Get(configuration, "typeKey");
    if typeKey.Undefined? then DefaultTypeKey else ToJsString(typeKey)
  }

  /** `isClassInstance`: a non-null object whose value under the type key is truthy. */
  predicate IsClassInstance(json: Value, configuration: Config)
  {
    IsObject(json) && Truthy(GetProp(json, TypeKey(configuration)))
  }

  /** Which values `isClassInstance` accepts: never `null`, a scalar or a
      string; an object exactly when its entry under the type key exists and
      is truthy, which with no `typeKey` configured is the `type` entry. */
  lemma ClassInstanceTest(json: Value, configuration: Config)
    ensures !IsObject(json) ==> !IsClassInstance(json, configuration)
    ensures json.Obj? ==> (IsClassInstance(json, configuration)
              <==> TypeKey(configuration) in json.fields && Truthy(json.fields[TypeKey(configuration)]))
    ensures json.Obj? && Get(configuration, "typeKey").Undefined? ==>
              (IsClassInstance(json, configuration) <==> "type" in json.fields && Truthy(json.fields["type"]))
  {
  }

  /** The registry a configuration names. */
  function Classes(configuration: Config): Value
  {
    Get(configuration, "classes")
  }

  /** What `convertJSON` needs of its configuration beyond what it checks:
      `classes` can be read (validation makes it an object), every registered
      class is a constructor, so that `new Class(props)` does not throw, and a
      given `log` has a `warn` method, so that `log.warn(…)` does not throw. */
  ghost predicate ConfigurationUsable(configuration: Config)
  {
    var classes := Classes(configuration);
    var log := Get(configuration, "log");
    && !classes.Null? && !classes.Undefined?
    && (forall name :: Truthy(GetProp(classes, name)) ==> GetProp(classes, name).Fn?)
    && (log.Undefined? || (!log.Null? && GetProp(log, "warn").Fn?))
  }

  /** `json[typeKey]` of a class declaration. */
  function DeclaredType(json: Value, configuration: Config): Value
    requires json.Obj?
  {
    Get(json.fields, TypeKey(configuration))
  }

  /** `configuration.classes[type]` for a class declaration. */
  function ClassOf(json: Value, configuration: Config): Value
    requires json.Obj? && ConfigurationUsable(configuration)
  {
    GetProp(Classes(configuration), ToJsString(DeclaredType(json, configuration)))
  }

  /** `{...json}` with the type key deleted. */
  function ResidualProps(json: Value, configuration: Config): (props: map<string, Value>)
    requires json.Obj?
    ensures props.Keys == json.fields.Keys - {TypeKey(configuration)}
    ensures forall k :: k in props ==> props[k] == json.fields[k]
  {
    json.fields - {TypeKey(configuration)}
  }

  /** Where a warning goes: `const {log = console} = configuration`. */
  datatype Sink = Console | Logger(log: Value)

  function SinkOf(configuration: Config): Sink
  {
    var log := Get(configuration, "log");
    if log.Undefined? then Console else Logger(log)
  }

  /** One `log.warn` call for an unregistered class: the sink, the type as
      printed, and the residual props whose serialisation the message shows. */
  datatype Warning = Warning(sink: Sink, typeName: string, props: map<string, Value>)

  /** At most the first `n` characters: `s.slice(0, n)`. */
  function Slice(s: string, n: nat): (r: string)
    ensures |r| == if |s| < n then |s| else n
    ensures r <= s
  {
    if |s| <= n then s else s[..n]
  }

  const WarningPrefix := "JSON converter: No registered class of type "

  /** The text passed to `log.warn`. `stringify` stands for `JSON.stringify`,
      whose key order this model does not fix. */
  function WarningText(w: Warning, stringify: Value -> string): (text: string)
    ensures exists excerpt :: excerpt <= stringify(Obj(w.props))
              && |excerpt| == (if |stringify(Obj(w.props))| < 40 then |stringify(Obj(w.props))| else 40)
              && text == WarningPrefix + w.typeName + "(" + excerpt + "...)  "
  {
    var excerpt := Slice(stringify(Obj(w.props)), 40);
    WarningPrefix + w.typeName + "(" + excerpt + "...)  "
  }

  /** The warning an unregistered class declaration produces. */
  function UnregisteredWarning(json: Value, configuration: Config): Warning
    requires json.Obj?
  {
    Warning(SinkOf(configuration), ToJsString(DeclaredType(json, configuration)), ResidualProps(json, configuration))
  }

  /** `convertString`: with or without `enumerations`, the string is returned as it is. */
  function ConvertString(s: string, configuration: Config): (r: Value)
    ensures r == Str(s)
  {
    if Truthy(Get(configuration, "enumerations")) then Str(s) else Str(s)
  }

  /** The value `convertJSON(json, configuration)` returns. */
  function Convert(json: Value, configuration: Config): Value
    requires IsJson(json) && ConfigurationUsable(configuration)
    decreases json
  {
    match json
    case Arr(es) => Arr(seq(|es|, i requires 0 <= i < |es| => Convert(es[i], configuration)))
    case Obj(f) =>
      if IsClassInstance(json, configuration) then
        var cls := ClassOf(json, configuration);
        // The result of `convertPlainObject(props, …)` is discarded: the
        // constructor receives the residual props unconverted.
        if Truthy(cls) then Instance(cls.source, ResidualProps(json, configuration)) else Null
      else
        Obj(map k | k in f :: Convert(f[k], configuration))
    case Str(s) => ConvertString(s, configuration)
    case _ => json
  }

  /** The warnings one call of `convertJSON` logs, as a multiset: objects are
      walked in `for…in` order, which this model does not fix. A registered
      class still logs the warnings of the discarded conversion of its props. */
  ghost function Warnings(json: Value, configuration: Config): multiset<Warning>
    requires IsJson(json) && ConfigurationUsable(configuration)
    decreases json, 1
  {
    match json
    case Arr(es) => ElementsWarnings(es, |es|, configuration, json)
    case Obj(f) =>
      if IsClassInstance(json, configuration) then
        if Truthy(ClassOf(json, configuration))
        then FieldsWarnings(f, f.Keys - {TypeKey(configuration)}, configuration, json)
        else multiset{UnregisteredWarning(json, configuration)}
      else FieldsWarnings(f, f.Keys, configuration, json)
    case _ => multiset{}
  }

  /** The warnings of converting the first `n` elements of an array, in order.
      `parent` is a value that contains every element; it only bounds the recursion. */
  ghost function ElementsWarnings(es: seq<Value>, n: nat, configuration: Config, parent: Value): multiset<Warning>
    requires n <= |es|
    requires forall i :: 0 <= i < |es| ==> es[i] < parent && IsJson(es[i])
    requires ConfigurationUsable(configuration)
    decreases parent, 0, n
  {
    if n == 0 then multiset{}
    else ElementsWarnings(es, n - 1, configuration, parent) + Warnings(es[n - 1], configuration)
  }

  /** One step of the array walk: a log that held the warnings of the first
      `n` elements, and then received those of element `n`, holds the warnings
      of the first `n + 1`. */
  lemma ElementsWarningsStep(es: seq<Value>, n: nat, configuration: Config, parent: Value,
                             start: multiset<Warning>, before: multiset<Warning>, after: multiset<Warning>)
    requires n < |es|
    requires forall i :: 0 <= i < |es| ==> es[i] < parent && IsJson(es[i])
    requires ConfigurationUsable(configuration)
    requires before == start + ElementsWarnings(es, n, configuration, parent)
    requires after == before + Warnings(es[n], configuration)
    ensures after == start + ElementsWarnings(es, n + 1, configuration, parent)
  {
  }

  /** The warnings of converting the values of a dictionary under `keys`, in
      some key order. `parent` is a value that contains every value; it only
      bounds the recursion. */
  ghost function FieldsWarnings(f: map<string, Value>, keys: set<string>, configuration: Config, parent: Value)
    : multiset<Warning>
    requires keys <= f.Keys
    requires forall k :: k in f ==> f[k] < parent && IsJson(f[k])
    requires ConfigurationUsable(configuration)
    decreases parent, 0, |keys|
  {
    if keys == {} then multiset{}
    else
      var k :| k in keys;
      Warnings(f[k], configuration) + FieldsWarnings(f, keys - {k}, configuration, parent)
  }

  /** Any key may be taken first: the sum does not depend on the order. */
  lemma {:induction false} FieldsWarningsSplit(f: map<string, Value>, keys: set<string>, configuration: Config,
                                               parent: Value, k: string)
    requires keys <= f.Keys
    requires forall j :: j in f ==> f[j] < parent && IsJson(f[j])
    requires ConfigurationUsable(configuration)
    requires k in keys
    ensures FieldsWarnings(f, keys, configuration, parent)
         == Warnings(f[k], configuration) + FieldsWarnings(f, keys - {k}, configuration, parent)
    decreases |keys|
  {
    var j :| j in keys && FieldsWarnings(f, keys, configuration, parent)
                          == Warnings(f[j], configuration) + FieldsWarnings(f, keys - {j}, configuration, parent);
    if j != k {
      var withoutJ, withoutK := keys - {j}, keys - {k};
      var rest := withoutJ - {k};
      assert rest == withoutK - {j};
      FieldsWarningsSplit(f, withoutJ, configuration, parent, k);
      FieldsWarningsSplit(f, withoutK, configuration, parent, j);
      assert FieldsWarnings(f, withoutJ, configuration, parent)
          == Warnings(f[k], configuration) + FieldsWarnings(f, rest, configuration, parent);
      assert FieldsWarnings(f, withoutK, configuration, parent)
          == Warnings(f[j], configuration) + FieldsWarnings(f, rest, configuration, parent);
    }
  }

  /** One step of a `for…in` walk: a log that held the warnings of the keys
      already visited, and then received those of `key`, holds the warnings of
      the keys visited so far. */
  lemma FieldsWarningsStep(f: map<string, Value>, todo: set<string>, key: string, configuration: Config, parent: Value,
                           start: multiset<Warning>, before: multiset<Warning>, after: multiset<Warning>)
    requires forall j :: j in f ==> f[j] < parent && IsJson(f[j])
    requires ConfigurationUsable(configuration)
    requires todo <= f.Keys && key in todo
    requires before == start + FieldsWarnings(f, f.Keys - todo, configuration, parent)
    requires after == before + Warnings(f[key], configuration)
    ensures after == start + FieldsWarnings(f, f.Keys - (todo - {key}), configuration, parent)
  {
    var done := f.Keys - (todo - {key});
    assert done - {key} == f.Keys - todo;
    FieldsWarningsSplit(f, done, configuration, parent, key);
  }

  /** Only the values under `keys` matter, and the bound `parent` does not change the sum. */
  lemma {:induction false} FieldsWarningsCongruent(f: map<string, Value>, g: map<string, Value>, keys: set<string>,
                                                   configuration: Config, p: Value, q: Value)
    requires keys <= f.Keys && keys <= g.Keys
    requires forall j :: j in f ==> f[j] < p && IsJson(f[j])
    requires forall j :: j in g ==> g[j] < q && IsJson(g[j])
    requires forall j :: j in keys ==> f[j] == g[j]
    requires ConfigurationUsable(configuration)
    ensures FieldsWarnings(f, keys, configuration, p) == FieldsWarnings(g, keys, configuration, q)
    decreases |keys|
  {
    if keys != {} {
      var k :| k in keys;
      FieldsWarningsSplit(f, keys, configuration, p, k);
      FieldsWarningsSplit(g, keys, configuration, q, k);
      FieldsWarningsCongruent(f, g, keys - {k}, configuration, p, q);
    }
  }

  /** An unregistered type converts to `null` and logs exactly one warning,
      which names the type and carries the residual props. */
  lemma UnregisteredClass(json: Value, configuration: Config)
    requires IsJson(json) && ConfigurationUsable(configuration)
    requires json.Obj? && IsClassInstance(json, configuration) && !Truthy(ClassOf(json, configuration))
    ensures Convert(json, configuration) == Null
    ensures |Warnings(json, configuration)| == 1
    ensures Warnings(json, configuration) == multiset{UnregisteredWarning(json, configuration)}
    ensures UnregisteredWarning(json, configuration).typeName == ToJsString(DeclaredType(json, configuration))
  {
  }

  /** A registered type becomes an instance of its class built from the input's
      keys minus the type key with their original values; the warnings are
      those of converting those props (the conversion whose result is dropped). */
  lemma RegisteredClass(json: Value, configuration: Config)
    requires IsJson(json) && ConfigurationUsable(configuration)
    requires json.Obj? && IsClassInstance(json, configuration) && Truthy(ClassOf(json, configuration))
    ensures var props := Convert(json, configuration).props;
      && Convert(json, configuration) == Instance(ClassOf(json, configuration).source, props)
      && props.Keys == json.fields.Keys - {TypeKey(configuration)}
      && (forall k :: k in props ==> props[k] == json.fields[k])
    ensures var props := ResidualProps(json, configuration);
      Warnings(json, configuration) == FieldsWarnings(props, props.Keys, configuration, Obj(props))
  {
    var props := ResidualProps(json, configuration);
    FieldsWarningsCongruent(json.fields, props, props.Keys, configuration, json, Obj(props));
  }

  /** A plain object converts to an object with the same keys, each value converted. */
  lemma PlainObject(json: Value, configuration: Config)
    requires IsJson(json) && ConfigurationUsable(configuration)
    requires json.Obj? && !IsClassInstance(json, configuration)
    ensures Convert(json, configuration).Obj?
    ensures Convert(json, configuration).fields.Keys == json.fields.Keys
    ensures forall k :: k in json.fields ==> Convert(json, configuration).fields[k] == Convert(json.fields[k], configuration)
  {
  }

  /** An array is converted element by element, into an array of the same
      length, even when it has a truthy value under the type key. */
  lemma ConvertArray(json: Value, configuration: Config)
    requires IsJson(json) && ConfigurationUsable(configuration) && json.Arr?
    ensures Convert(json, configuration).Arr?
    ensures |Convert(json, configuration).elems| == |json.elems|
    ensures forall i :: 0 <= i < |json.elems| ==> Convert(json, configuration).elems[i] == Convert(json.elems[i], configuration)
  {
  }

  /** Strings, numbers, booleans and `null` come back unchanged and log nothing. */
  lemma ScalarsUnchanged(json: Value, configuration: Config)
    requires IsJson(json) && ConfigurationUsable(configuration)
    requires !json.Arr? && !json.Obj?
    ensures Convert(json, configuration) == json
    ensures Warnings(json, configuration) == multiset{}
  {
  }

  /** No object anywhere in the tree carries a truthy type key. */
  predicate NoClassDeclarations(json: Value, configuration: Config)
    decreases json
  {
    match json
    case Arr(es) => forall i :: 0 <= i < |es| ==> NoClassDeclarations(es[i], configuration)
    case Obj(f) =>
      !IsClassInstance(json, configuration) && forall k :: k in f ==> NoClassDeclarations(f[k], configuration)
    case _ => true
  }

  /** A tree without class declarations converts to an equal tree and logs nothing. */
  lemma {:induction false} ConvertIdentity(json: Value, configuration: Config)
    requires IsJson(json) && ConfigurationUsable(configuration)
    requires NoClassDeclarations(json, configuration)
    ensures Convert(json, configuration) == json
    ensures Warnings(json, configuration) == multiset{}
    decreases json, 1
  {
    match json
    case Arr(es) =>
      forall i | 0 <= i < |es| ensures Convert(es[i], configuration) == es[i] {
        ConvertIdentity(es[i], configuration);
      }
      ElementsIdentity(es, |es|, configuration, json);
    case Obj(f) =>
      forall k | k in f ensures Convert(f[k], configuration) == f[k] {
        ConvertIdentity(f[k], configuration);
      }
      assert (map k | k in f :: Convert(f[k], configuration)) == f;
      FieldsIdentity(f, f.Keys, configuration, json);
    case _ =>
  }

  lemma {:induction false} ElementsIdentity(es: seq<Value>, n: nat, configuration: Config, parent: Value)
    requires n <= |es|
    requires forall i :: 0 <= i < |es| ==> es[i] < parent && IsJson(es[i]) && NoClassDeclarations(es[i], configuration)
    requires ConfigurationUsable(configuration)
    ensures ElementsWarnings(es, n, configuration, parent) == multiset{}
    decreases parent, 0, n
  {
    if n != 0 {
      ElementsIdentity(es, n - 1, configuration, parent);
      ConvertIdentity(es[n - 1], configuration);
    }
  }

  lemma {:induction false} FieldsIdentity(f: map<string, Value>, keys: set<string>, configuration: Config, parent: Value)
    requires keys <= f.Keys
    requires forall k :: k in f ==> f[k] < parent && IsJson(f[k]) && NoClassDeclarations(f[k], configuration)
    requires ConfigurationUsable(configuration)
    ensures FieldsWarnings(f, keys, configuration, parent) == multiset{}
    decreases parent, 0, |keys|
  {
    if keys != {} {
      var k :| k in keys;
      FieldsWarningsSplit(f, keys, configuration, parent, k);
      ConvertIdentity(f[k], configuration);
      FieldsIdentity(f, keys - {k}, configuration, parent);
    }
  }

  /** Every warning names a type the registry does not hold, and goes to the configured sink. */
  ghost predicate OnlyUnregistered(ws: multiset<Warning>, configuration: Config)
    requires ConfigurationUsable(configuration)
  {
    forall w :: w in ws ==> !Truthy(GetProp(Classes(configuration), w.typeName)) && w.sink == SinkOf(configuration)
  }

  lemma {:induction false} WarningsOnlyUnregistered(json: Value, configuration: Config)
    requires IsJson(json) && ConfigurationUsable(configuration)
    ensures OnlyUnregistered(Warnings(json, configuration), configuration)
    decreases json, 1
  {
    match json
    case Arr(es) => ElementsOnlyUnregistered(es, |es|, configuration, json);
    case Obj(f) =>
      if IsClassInstance(json, configuration) {
        if Truthy(ClassOf(json, configuration)) {
          FieldsOnlyUnregistered(f, f.Keys - {TypeKey(configuration)}, configuration, json);
        }
      } else {
        FieldsOnlyUnregistered(f, f.Keys, configuration, json);
      }
    case _ =>
  }

  lemma {:induction false} ElementsOnlyUnregistered(es: seq<Value>, n: nat, configuration: Config, parent: Value)
    requires n <= |es|
    requires forall i :: 0 <= i < |es| ==> es[i] < parent && IsJson(es[i])
    requires ConfigurationUsable(configuration)
    ensures OnlyUnregistered(ElementsWarnings(es, n, configuration, parent), configuration)
    decreases parent, 0, n
  {
    if n != 0 {
      ElementsOnlyUnregistered(es, n - 1, configuration, parent);
      WarningsOnlyUnregistered(es[n - 1], configuration);
    }
  }

  lemma {:induction false} FieldsOnlyUnregistered(f: map<string, Value>, keys: set<string>, configuration: Config,
                                                  parent: Value)
    requires keys <= f.Keys
    requires forall k :: k in f ==> f[k] < parent && IsJson(f[k])
    requires ConfigurationUsable(configuration)
    ensures OnlyUnregistered(FieldsWarnings(f, keys, configuration, parent), configuration)
    decreases parent, 0, |keys|
  {
    if keys != {} {
      var k :| k in keys;
      FieldsWarningsSplit(f, keys, configuration, parent, k);
      WarningsOnlyUnregistered(f[k], configuration);
      FieldsOnlyUnregistered(f, keys - {k}, configuration, parent);
    }
  }

  /** The warning sink (`configuration.log` or the console). Its entries are
      the warnings logged so far, in order. */
  class Log {
    ghost var entries: seq<Warning>

    constructor()
      ensures entries == []
    {
      entries := [];
    }
  }

  /** `convertJSON` */
  method ConvertJSON(json: Value, configuration: Config, log: Log) returns (r: Value)
    requires IsJson(json) && ConfigurationUsable(configuration)
    modifies log
    ensures r == Convert(json, configuration)
    ensures old(log.entries) <= log.entries
    ensures multiset(log.entries) == multiset(old(log.entries)) + Warnings(json, configuration)
    decreases json, 2
  {
    if json.Arr? {
      var out := ConvertElements(json.elems, configuration, log, json);
      assert out == seq(|json.elems|, i requires 0 <= i < |json.elems| => Convert(json.elems[i], configuration));
      r := Arr(out);
    } else if IsClassInstance(json, configuration) {
      r := ConvertClassInstance(json, configuration, log);
    } else if IsObject(json) {
      var fields := ConvertPlainObject(json.fields, configuration, log, json);
      assert fields == map k | k in json.fields :: Convert(json.fields[k], configuration);
      r := Obj(fields);
    } else if json.Str? {
      r := ConvertString(json.s, configuration);
    } else {
      r := json;
    }
  }

  /** `json.map(element => convertJSON(element, configuration))`.
      `parent` is a value that contains every element; it only bounds the recursion. */
  method ConvertElements(es: seq<Value>, configuration: Config, log: Log, ghost parent: Value)
    returns (out: seq<Value>)
    requires forall i :: 0 <= i < |es| ==> es[i] < parent && IsJson(es[i])
    requires ConfigurationUsable(configuration)
    modifies log
    ensures |out| == |es|
    ensures forall i :: 0 <= i < |es| ==> out[i] == Convert(es[i], configuration)
    ensures old(log.entries) <= log.entries
    ensures multiset(log.entries) == multiset(old(log.entries)) + ElementsWarnings(es, |es|, configuration, parent)
    decreases parent, 0
  {
    out := [];
    var i := 0;
    ghost var start := multiset(log.entries);
    while i < |es|
      invariant 0 <= i <= |es|
      invariant |out| == i
      invariant ConvertedUpTo(out, es, configuration, parent)
      invariant old(log.entries) <= log.entries
      invariant multiset(log.entries) == start + ElementsWarnings(es, i, configuration, parent)
    {
      ghost var before := log.entries;
      var e := ConvertJSON(es[i], configuration, log);
      ElementsWarningsStep(es, i, configuration, parent, start, multiset(before), multiset(log.entries));
      ConvertedStep(out, es, configuration, parent, e);
      out := out + [e];
      i := i + 1;
    }
  }

  /** `out` holds the conversions of the first `|out|` elements. */
  ghost predicate ConvertedUpTo(out: seq<Value>, es: seq<Value>, configuration: Config, parent: Value)
    requires forall i :: 0 <= i < |es| ==> es[i] < parent && IsJson(es[i])
    requires ConfigurationUsable(configuration)
  {
    |out| <= |es| && forall j {:trigger out[j]} :: 0 <= j < |out| ==> out[j] == Convert(es[j], configuration)
  }

  /** Appending the conversion of the next element extends `ConvertedUpTo`. */
  lemma ConvertedStep(out: seq<Value>, es: seq<Value>, configuration: Config, parent: Value, e: Value)
    requires forall i :: 0 <= i < |es| ==> es[i] < parent && IsJson(es[i])
    requires ConfigurationUsable(configuration)
    requires ConvertedUpTo(out, es, configuration, parent) && |out| < |es|
    requires e == Convert(es[|out|], configuration)
    ensures ConvertedUpTo(out + [e], es, configuration, parent)
  {
  }

  /** `convertClassInstance` */
  method ConvertClassInstance(json: Value, configuration: Config, log: Log) returns (r: Value)
    requires IsJson(json) && ConfigurationUsable(configuration)
    requires json.Obj? && IsClassInstance(json, configuration)
    modifies log
    ensures r == Convert(json, configuration)
    ensures old(log.entries) <= log.entries
    ensures multiset(log.entries) == multiset(old(log.entries)) + Warnings(json, configuration)
    decreases json, 1
  {
    var typeKey := TypeKey(configuration);
    var declared := json.fields[typeKey];
    var props := json.fields;
    props := props - {typeKey};
    var cls := GetProp(Classes(configuration), ToJsString(declared));
    if !Truthy(cls) {
      log.entries := log.entries + [Warning(SinkOf(configuration), ToJsString(declared), props)];
      return Null;
    }
    // Converted, then dropped: only the warnings it logs remain.
    var discarded := ConvertPlainObject(props, configuration, log, json);
    FieldsWarningsCongruent(props, json.fields, props.Keys, configuration, json, json);
    r := Instance(cls.source, props);
  }

  /** `convertPlainObject`: a fresh dictionary filled key by key.
      `parent` is a value that contains every value; it only bounds the recursion. */
  method ConvertPlainObject(fields: map<string, Value>, configuration: Config, log: Log, ghost parent: Value)
    returns (result: map<string, Value>)
    requires forall k :: k in fields ==> fields[k] < parent && IsJson(fields[k])
    requires ConfigurationUsable(configuration)
    modifies log
    ensures result.Keys == fields.Keys
    ensures forall k :: k in fields ==> result[k] == Convert(fields[k], configuration)
    ensures old(log.entries) <= log.entries
    ensures multiset(log.entries) == multiset(old(log.entries)) + FieldsWarnings(fields, fields.Keys, configuration, parent)
    decreases parent, 0
  {
    result := map[];
    var todo := fields.Keys;
    ghost var converted := map k | k in fields :: Convert(fields[k], configuration);
    assert converted - todo == map[];
    ghost var start := multiset(log.entries);
    while todo != {}
      invariant todo <= fields.Keys
      invariant result == converted - todo
      invariant old(log.entries) <= log.entries
      invariant multiset(log.entries) == start + FieldsWarnings(fields, fields.Keys - todo, configuration, parent)
      decreases todo
    {
      var key :| key in todo;
      ghost var before := log.entries;
      var value := ConvertJSON(fields[key], configuration, log);
      RemoveOneFewer(converted, todo, key);
      result := result[key := value];
      FieldsWarningsStep(fields, todo, key, configuration, parent, start, multiset(before), multiset(log.entries));
      todo := todo - {key};
    }
    assert converted - todo == converted;
  }

  /** Taking one key out of the removed set puts back exactly its entry. */
  lemma RemoveOneFewer<K, V>(m: map<K, V>, todo: set<K>, key: K)
    requires key in todo && todo <= m.Keys
    ensures m - (todo - {key}) == (m - todo)[key := m[key]]
  {
  }
}
