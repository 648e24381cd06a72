/** The deck.gl layer over the generic converter: the view-state bookkeeping
    of `DeckJSONConverter`, the normalisation of deck props (`convertDeckJSON`,
    `normalizeMapProps`) and the hydration of layer descriptions
    (`getJSONLayers`, `getJSONLayerProps`). deck-json-converter/deck-json-converter.js
    and deck-json-converter/convert-json.js carry the same functions; both are
    modelled here once. */
module DeckJsonConverter {
  import opened JsValues
  import opened JsonConverter

  const MapboxLightStyle := "mapbox://styles/mapbox/light-v9"

  /** `DEFAULT_MAP_PROPS` */
  const DefaultMapProps: map<string, Value> := map["style" := Str(MapboxLightStyle)]

  /** A JavaScript object that the code edits in place, by assignment and `delete`. */
  class JsObject {
    var fields: map<string, Value>

    constructor(fields: map<string, Value>)
      ensures this.fields == fields
    {
      this.fields := fields;
    }
  }

  // ---------------------------------------------------------------------
  // View state: `DeckJSONConverter.postProcessConvertedJson`
  // ---------------------------------------------------------------------

  /** Whether `a === b` can hold. Scalars compare by value. An object, array,
      function or instance is a reference, and every one the converter hands
      over is freshly built by its own conversion, so it is never identical
      to one kept from an earlier conversion. */
  predicate StrictEquals(a: Value, b: Value)
  {
    a == b && !IsObject(a) && !a.Fn?
  }

  /** `shallowEqualObjects`: identical values, or two objects (arrays
      included) with the same own enumerable keys holding `===` values. */
  predicate ShallowEqualObjects(a: Value, b: Value)
  {
    StrictEquals(a, b)
    || ((a.Obj? || a.Arr?) && (b.Obj? || b.Arr?) && OwnEnumerable(a).Keys == OwnEnumerable(b).Keys
        && forall k :: k in OwnEnumerable(a) ==> StrictEquals(OwnEnumerable(a)[k], OwnEnumerable(b)[k]))
  }

  /** A view state a later conversion can reproduce `===` entry by entry: a
      scalar, or an object or array whose entries are all scalars. */
  predicate ScalarEntries(v: Value)
  {
    (!IsObject(v) && !v.Fn?)
    || ((v.Obj? || v.Arr?) && forall k :: k in OwnEnumerable(v) ==> !IsObject(OwnEnumerable(v)[k]) && !OwnEnumerable(v)[k].Fn?)
  }

  /** Whether a new `initialViewState` replaces the current view state: there
      is no stored one yet, or it differs from the stored one. */
  predicate ViewStateChanged(initialViewState: Value, stored: Value)
  {
    !Truthy(stored) || !ShallowEqualObjects(initialViewState, stored)
  }

  /** The converted JSON after post-processing, and the converter's stored `initialViewState`. */
  datatype Processed = Processed(json: map<string, Value>, stored: Value)

  /** What `postProcessConvertedJson` does to its argument and to the converter's state. */
  function PostProcess(json: map<string, Value>, stored: Value): (r: Processed)
    ensures "initialViewState" !in json ==> r == Processed(json, stored)
    ensures "initialViewState" in json ==> "initialViewState" !in r.json
    ensures forall k :: k != "initialViewState" && k != "viewState" ==>
              (k in r.json <==> k in json) && (k in json ==> r.json[k] == json[k])
    ensures "initialViewState" in json && ViewStateChanged(json["initialViewState"], stored) ==>
              "viewState" in r.json && r.json["viewState"] == json["initialViewState"]
              && r.stored == json["initialViewState"]
    ensures "initialViewState" in json && !ViewStateChanged(json["initialViewState"], stored) ==>
              r == Processed(json - {"initialViewState"}, stored)
  {
    if "initialViewState" in json then
      var initialViewState := json["initialViewState"];
      var updated :=
        if ViewStateChanged(initialViewState, stored) then json["viewState" := initialViewState] else json;
      Processed(updated - {"initialViewState"},
                if ViewStateChanged(initialViewState, stored) then initialViewState else stored)
    else
      Processed(json, stored)
  }

  /** Once a truthy `initialViewState` with scalar entries has been seen,
      receiving an equal one again leaves the new JSON's view state as it is and
      keeps the stored state. */
  lemma {:induction false} RepeatedInitialViewState(first: map<string, Value>, second: map<string, Value>, stored: Value)
    requires "initialViewState" in first && Truthy(first["initialViewState"]) && ScalarEntries(first["initialViewState"])
    requires "initialViewState" in second && second["initialViewState"] == first["initialViewState"]
    ensures var afterFirst := PostProcess(first, stored);
            var afterSecond := PostProcess(second, afterFirst.stored);
            && afterSecond.stored == afterFirst.stored
            && afterSecond.json == second - {"initialViewState"}
  {
    var afterFirst := PostProcess(first, stored);
    var x := first["initialViewState"];
    if ViewStateChanged(x, stored) {
      assert afterFirst.stored == x;
      assert ShallowEqualObjects(x, x);
    } else {
      assert afterFirst.stored == stored && ShallowEqualObjects(x, stored);
    }
    assert !ViewStateChanged(second["initialViewState"], afterFirst.stored);
  }

  /** A view state with a nested object, array or function is rebuilt by every
      conversion, so receiving it again still replaces `viewState` and the
      stored state. */
  lemma {:induction false} NestedViewStateReplaced(json: map<string, Value>, stored: Value, key: string)
    requires "initialViewState" in json && json["initialViewState"].Obj?
    requires key in json["initialViewState"].fields
    requires IsObject(json["initialViewState"].fields[key]) || json["initialViewState"].fields[key].Fn?
    ensures var r := PostProcess(json, stored);
            && r.stored == json["initialViewState"]
            && r.json == (json - {"initialViewState"})["viewState" := json["initialViewState"]]
  {
    var x := json["initialViewState"];
    assert OwnEnumerable(x)[key] == x.fields[key];
    assert ViewStateChanged(x, stored);
    var r := PostProcess(json, stored);
    assert r.json == json["viewState" := x] - {"initialViewState"};
    assert json["viewState" := x] - {"initialViewState"} == (json - {"initialViewState"})["viewState" := x];
  }

  /** `DeckJSONConverter`, with the `initialViewState` it remembers between conversions. */
  class DeckJSONConverter {
    var initialViewState: Value

    constructor()
      ensures initialViewState == Undefined
    {
      initialViewState := Undefined;
    }

    /** `postProcessConvertedJson`: edits `json` in place and returns it. */
    method PostProcessConvertedJson(json: JsObject) returns (r: JsObject)
      modifies this, json
      ensures r == json
      ensures Processed(json.fields, initialViewState) == PostProcess(old(json.fields), old(initialViewState))
    {
      if "initialViewState" in json.fields {
        var updateViewState :=
          !Truthy(initialViewState) || !ShallowEqualObjects(json.fields["initialViewState"], initialViewState);
        if updateViewState {
          json.fields := json.fields["viewState" := json.fields["initialViewState"]];
          initialViewState := json.fields["initialViewState"];
        }
        json.fields := json.fields - {"initialViewState"};
      }
      r := json;
    }
  }

  // ---------------------------------------------------------------------
  // Deck props: `convertDeckJSON`, `normalizeMapProps`
  // ---------------------------------------------------------------------

  /** `if ('initialViewState' in jsonProps) jsonProps.viewState = jsonProps.viewState || jsonProps.initialViewState` */
  function WithViewStateFallback(props: map<string, Value>): (r: map<string, Value>)
    ensures "initialViewState" !in props ==> r == props
    ensures "initialViewState" in props ==>
              && r.Keys == props.Keys + {"viewState"}
              && r["initialViewState"] == props["initialViewState"]
              && (Truthy(Get(props, "viewState")) ==> r["viewState"] == props["viewState"])
              && (!Truthy(Get(props, "viewState")) ==> r["viewState"] == props["initialViewState"])
    ensures forall k :: k in props && k != "viewState" ==> r[k] == props[k]
  {
    if "initialViewState" in props
    then props["viewState" := Or(Get(props, "viewState"), props["initialViewState"])]
    else props
  }

  /** Whether `normalizeMapProps` rebuilds `map`: `jsonProps.map || jsonProps.mapStyle`. */
  predicate HasMapProps(props: map<string, Value>)
  {
    Truthy(Get(props, "map")) || Truthy(Get(props, "mapStyle"))
  }

  /** `Object.assign({}, DEFAULT_MAP_PROPS, jsonProps.map)` */
  function BaseMap(props: map<string, Value>): (m: map<string, Value>)
    ensures m.Keys == DefaultMapProps.Keys + OwnEnumerable(Get(props, "map")).Keys
    ensures forall k :: k in OwnEnumerable(Get(props, "map")) ==> m[k] == OwnEnumerable(Get(props, "map"))[k]
    ensures "style" !in OwnEnumerable(Get(props, "map")) ==> m["style"] == Str(MapboxLightStyle)
  {
    Assign(Assign(map[], Obj(DefaultMapProps)), Get(props, "map"))
  }

  /** The rebuilt `map` once `mapStyle`, when present, is copied into `style` and `mapStyle`. */
  function MapWithStyle(props: map<string, Value>): (m: map<string, Value>)
    ensures m.Keys == BaseMap(props).Keys + (if "mapStyle" in props then {"style", "mapStyle"} else {})
    ensures forall k :: k in BaseMap(props) && !(k in {"style", "mapStyle"} && "mapStyle" in props)
              ==> m[k] == BaseMap(props)[k]
  {
    if "mapStyle" in props
    then BaseMap(props)["style" := props["mapStyle"]]["mapStyle" := props["mapStyle"]]
    else BaseMap(props)
  }

  /** The rebuilt `map` once `viewState`, when present, is copied into it. */
  function MapWithViewState(props: map<string, Value>): map<string, Value>
  {
    if "viewState" in props then MapWithStyle(props)["viewState" := props["viewState"]] else MapWithStyle(props)
  }

  /** The props after `normalizeMapProps`. */
  function NormalizedMapProps(props: map<string, Value>): (r: map<string, Value>)
    ensures !HasMapProps(props) ==> r == props
    ensures HasMapProps(props) ==> "map" in r && r["map"].Obj? && "mapStyle" !in r
    ensures HasMapProps(props) ==>
              r["map"].fields.Keys == BaseMap(props).Keys
                + (if "mapStyle" in props then {"style", "mapStyle"} else {})
                + (if "viewState" in props then {"viewState"} else {})
    ensures forall k :: k != "map" && k != "mapStyle" ==> (k in r <==> k in props) && (k in props ==> r[k] == props[k])
    ensures HasMapProps(props) && "mapStyle" in props ==>
              r["map"].fields["style"] == props["mapStyle"] && r["map"].fields["mapStyle"] == props["mapStyle"]
    ensures HasMapProps(props) && "viewState" in props ==> r["map"].fields["viewState"] == props["viewState"]
    ensures HasMapProps(props) ==>
              forall k :: k in BaseMap(props) && !(k in {"style", "mapStyle"} && "mapStyle" in props)
                          && !(k == "viewState" && "viewState" in props)
                          ==> r["map"].fields[k] == BaseMap(props)[k]
  {
    if !HasMapProps(props) then props
    else (props - {"mapStyle"})["map" := Obj(MapWithViewState(props))]
  }

  /** `style` falls back to the light-v9 URL when neither `map.style` nor `mapStyle` is given. */
  lemma MapStyleDefault(props: map<string, Value>)
    requires HasMapProps(props) && "mapStyle" !in props && "style" !in OwnEnumerable(Get(props, "map"))
    ensures NormalizedMapProps(props)["map"].fields["style"] == Str(MapboxLightStyle)
  {
  }

  /** `normalizeMapProps`: edits `jsonProps` in place; the new `map` object is fresh. */
  method NormalizeMapProps(jsonProps: JsObject)
    modifies jsonProps
    ensures jsonProps.fields == NormalizedMapProps(old(jsonProps.fields))
  {
    ghost var props := jsonProps.fields;
    if Truthy(Get(jsonProps.fields, "map")) || Truthy(Get(jsonProps.fields, "mapStyle")) {
      var rebuilt := Assign(Assign(map[], Obj(DefaultMapProps)), Get(jsonProps.fields, "map"));
      jsonProps.fields := jsonProps.fields["map" := Obj(rebuilt)];
    }
    if !Truthy(Get(jsonProps.fields, "map")) {
      return;
    }
    assert HasMapProps(props) && jsonProps.fields == props["map" := Obj(BaseMap(props))];
    if "mapStyle" in jsonProps.fields {
      var mapStyle := jsonProps.fields["mapStyle"];
      var m := jsonProps.fields["map"].fields;
      assert m["style" := mapStyle]["mapStyle" := mapStyle] == MapWithStyle(props);
      jsonProps.fields := jsonProps.fields["map" := Obj(m["style" := mapStyle]["mapStyle" := mapStyle])];
      UpdateTwice(props, "map", Obj(BaseMap(props)), Obj(MapWithStyle(props)));
      jsonProps.fields := jsonProps.fields - {"mapStyle"};
      UpdateThenRemove(props, "map", Obj(MapWithStyle(props)), "mapStyle");
    } else {
      RemoveAbsent(props, "mapStyle");
      assert MapWithStyle(props) == BaseMap(props);
    }
    OtherKeyKept(props, "mapStyle", "map", Obj(MapWithStyle(props)), "viewState");
    if "viewState" in jsonProps.fields {
      var m := jsonProps.fields["map"].fields;
      jsonProps.fields := jsonProps.fields["map" := Obj(m["viewState" := jsonProps.fields["viewState"]])];
      UpdateTwice(props - {"mapStyle"}, "map", Obj(MapWithStyle(props)), Obj(MapWithViewState(props)));
    }
  }

  /** Deleting a key that is absent changes nothing. */
  lemma RemoveAbsent(m: map<string, Value>, d: string)
    requires d !in m
    ensures m - {d} == m
  {
  }

  /** Deleting one key and setting another leaves any third key as it was. */
  lemma OtherKeyKept(m: map<string, Value>, d: string, k: string, v: Value, q: string)
    requires q != d && q != k
    ensures q in (m - {d})[k := v] <==> q in m
    ensures q in m ==> (m - {d})[k := v][q] == m[q]
  {
  }

  /** Setting a key twice keeps the second value. */
  lemma UpdateTwice(m: map<string, Value>, k: string, v: Value, w: Value)
    ensures m[k := v][k := w] == m[k := w]
  {
  }

  /** Setting one key and then deleting another is deleting first and then setting. */
  lemma UpdateThenRemove(m: map<string, Value>, k: string, v: Value, d: string)
    requires k != d
    ensures m[k := v] - {d} == (m - {d})[k := v]
  {
  }

  /** The props `convertDeckJSON` returns for converted props `props`. */
  function DeckProps(props: map<string, Value>): map<string, Value>
  {
    NormalizedMapProps(WithViewStateFallback(props))
  }

  /** When the deck props carry `initialViewState` and a map, the map receives
      the view state the fallback chose: the existing truthy `viewState`, else
      `initialViewState`. */
  lemma {:induction false} MapViewStateAfterFallback(props: map<string, Value>)
    requires "initialViewState" in props && HasMapProps(props)
    ensures var r := DeckProps(props);
            r["map"].fields["viewState"] == Or(Get(props, "viewState"), props["initialViewState"])
            && r["viewState"] == r["map"].fields["viewState"]
            && r["initialViewState"] == props["initialViewState"]
  {
    var fallback := WithViewStateFallback(props);
    assert Get(fallback, "map") == Get(props, "map");
    assert Get(fallback, "mapStyle") == Get(props, "mapStyle");
    assert HasMapProps(fallback);
    assert "viewState" in fallback;
  }

  /** `convertDeckJSON`: converts, then edits the converted props in place. */
  method ConvertDeckJSON(json: Value, configuration: Config, log: Log) returns (jsonProps: JsObject)
    requires IsJson(json) && ConfigurationUsable(configuration)
    requires json.Obj? && !IsClassInstance(json, configuration)
    modifies log
    ensures fresh(jsonProps)
    ensures Convert(json, configuration).Obj?
    ensures jsonProps.fields == DeckProps(Convert(json, configuration).fields)
    ensures old(log.entries) <= log.entries
    ensures multiset(log.entries) == multiset(old(log.entries)) + Warnings(json, configuration)
  {
    var converted := ConvertJSON(json, configuration, log);
    jsonProps := new JsObject(converted.fields);
    if "initialViewState" in jsonProps.fields {
      jsonProps.fields := jsonProps.fields["viewState" := Or(Get(jsonProps.fields, "viewState"), jsonProps.fields["initialViewState"])];
    }
    NormalizeMapProps(jsonProps);
  }

  // ---------------------------------------------------------------------
  // Layers: `getJSONLayers`, `getJSONLayerProps`
  // ---------------------------------------------------------------------

  /** `parseExpressionString(source, configuration, isAccessor)`; it may yield a
      falsy value when the expression does not parse. */
  type Parser = (string, Config, bool) -> Value

  /** `Layer && Layer._propTypes && Layer._propTypes[propName]` */
  function PropTypeOf(layer: Value, name: string): Value
  {
    if !Truthy(layer) then layer
    else
      var propTypes := GetProp(layer, "_propTypes");
      if !Truthy(propTypes) then propTypes else GetProp(propTypes, name)
  }

  /** `typeof propType === 'object' && propType.type`. A `null` prop type
      makes the source throw, so it is excluded. */
  function DeclaredKind(layer: Value, name: string): Value
    requires PropTypeOf(layer, name) != Null
  {
    var propType := PropTypeOf(layer, name);
    if IsObject(propType) then GetProp(propType, "type") else Bool(false)
  }

  /** The kind the `switch` sees: a `get…` name is always an accessor. */
  function PropKind(layer: Value, name: string): (kind: Value)
    requires PropTypeOf(layer, name) != Null
    ensures StartsWith(name, "get") ==> kind == Str("accessor")
    ensures !StartsWith(name, "get") ==> kind == DeclaredKind(layer, name)
    ensures !StartsWith(name, "get") && !IsObject(PropTypeOf(layer, name)) ==> kind == Bool(false)
  {
    if StartsWith(name, "get") then Str("accessor") else DeclaredKind(layer, name)
  }

  /** Every string-valued prop can have its prop type read without throwing. */
  predicate PropTypesReadable(layer: Value, props: map<string, Value>)
  {
    forall name :: name in props && props[name].Str? ==> PropTypeOf(layer, name) != Null
  }

  /** The value of one prop after the `switch`: accessor strings are parsed
      with `isAccessor` set, function strings without it, everything else is kept. */
  function ResolvedProp(layer: Value, name: string, value: Value, configuration: Config, parse: Parser): Value
    requires value.Str? ==> PropTypeOf(layer, name) != Null
  {
    if !value.Str? then value
    else
      var kind := PropKind(layer, name);
      if kind == Str("accessor") then parse(value.s, configuration, true)
      else if kind == Str("function") then parse(value.s, configuration, false)
      else value
  }

  /** How one prop is resolved: a `get…` string is always parsed as an
      accessor, whatever its declared type; a string declared `'accessor'` is
      parsed as one too; a string declared `'function'` is parsed with the
      accessor flag unset; any other string, and any non-string, is kept. */
  lemma PropResolution(layer: Value, name: string, value: Value, configuration: Config, parse: Parser)
    requires value.Str? ==> PropTypeOf(layer, name) != Null
    ensures var r := ResolvedProp(layer, name, value, configuration, parse);
      && (!value.Str? ==> r == value)
      && (value.Str? && StartsWith(name, "get") ==> r == parse(value.s, configuration, true))
      && (value.Str? && !StartsWith(name, "get") && DeclaredKind(layer, name) == Str("accessor")
          ==> r == parse(value.s, configuration, true))
      && (value.Str? && !StartsWith(name, "get") && DeclaredKind(layer, name) == Str("function")
          ==> r == parse(value.s, configuration, false))
      && (value.Str? && !StartsWith(name, "get")
          && DeclaredKind(layer, name) != Str("accessor") && DeclaredKind(layer, name) != Str("function")
          ==> r == value)
  {
  }

  /** Every prop after the `switch`, falsy or not. */
  function ResolvedProps(layer: Value, props: map<string, Value>, configuration: Config, parse: Parser): (r: map<string, Value>)
    requires PropTypesReadable(layer, props)
    ensures r.Keys == props.Keys
    ensures forall k :: k in r ==> r[k] == ResolvedProp(layer, k, props[k], configuration, parse)
  {
    map k | k in props :: ResolvedProp(layer, k, props[k], configuration, parse)
  }

  /** The entries of `m` whose value is truthy. */
  function TruthyEntries(m: map<string, Value>): (r: map<string, Value>)
    ensures forall k :: k in r <==> k in m && Truthy(m[k])
    ensures forall k :: k in r ==> r[k] == m[k]
  {
    map k | k in m && Truthy(m[k]) :: m[k]
  }

  /** Visiting one more key adds its value when that is truthy and leaves the
      result alone otherwise. */
  lemma TruthyEntriesStep(m: map<string, Value>, todo: set<string>, key: string)
    requires key in todo && todo <= m.Keys
    ensures TruthyEntries(m - (todo - {key}))
              == if Truthy(m[key]) then TruthyEntries(m - todo)[key := m[key]] else TruthyEntries(m - todo)
  {
    var after := TruthyEntries(m - (todo - {key}));
    var expected := if Truthy(m[key]) then TruthyEntries(m - todo)[key := m[key]] else TruthyEntries(m - todo);
    assert after.Keys == expected.Keys;
  }

  /** The props `getJSONLayerProps` returns: every resolved value that is
      truthy, under its own name, and nothing else. */
  function LayerProps(layer: Value, props: map<string, Value>, configuration: Config, parse: Parser): (r: map<string, Value>)
    requires PropTypesReadable(layer, props)
    ensures forall k :: k in r <==> k in props && Truthy(ResolvedProp(layer, k, props[k], configuration, parse))
    ensures forall k :: k in r ==> r[k] == ResolvedProp(layer, k, props[k], configuration, parse) && Truthy(r[k])
  {
    TruthyEntries(ResolvedProps(layer, props, configuration, parse))
  }

  /** Falsy values (`0`, `""`, `false`, `null`, a failed parse) never reach the
      result; truthy non-string values are copied unchanged. */
  lemma FalsyPropsDropped(layer: Value, props: map<string, Value>, configuration: Config, parse: Parser, name: string)
    requires PropTypesReadable(layer, props) && name in props
    ensures !props[name].Str? && !Truthy(props[name]) ==> name !in LayerProps(layer, props, configuration, parse)
    ensures !props[name].Str? && Truthy(props[name]) ==> LayerProps(layer, props, configuration, parse)[name] == props[name]
    ensures props[name].Str? && StartsWith(name, "get") && !Truthy(parse(props[name].s, configuration, true))
            ==> name !in LayerProps(layer, props, configuration, parse)
  {
  }

  /** `getJSONLayerProps`: a fresh dictionary filled in a `for…in` loop over the layer description. */
  method GetJSONLayerProps(layer: Value, jsonProps: Value, configuration: Config, parse: Parser)
    returns (replacedProps: map<string, Value>)
    requires PropTypesReadable(layer, OwnEnumerable(jsonProps))
    ensures replacedProps == LayerProps(layer, OwnEnumerable(jsonProps), configuration, parse)
  {
    var props := OwnEnumerable(jsonProps);
    replacedProps := map[];
    var todo := props.Keys;
    ghost var resolved := ResolvedProps(layer, props, configuration, parse);
    assert TruthyEntries(resolved - todo) == map[];
    while todo != {}
      invariant todo <= props.Keys
      invariant replacedProps == TruthyEntries(resolved - todo)
      decreases todo
    {
      var propName :| propName in todo;
      var propValue := props[propName];
      if propValue.Str? {
        var kind := PropKind(layer, propName);
        if kind == Str("accessor") {
          propValue := parse(propValue.s, configuration, true);
        } else if kind == Str("function") {
          propValue := parse(propValue.s, configuration, false);
        }
      }
      assert propValue == ResolvedProp(layer, propName, props[propName], configuration, parse);
      TruthyEntriesStep(resolved, todo, propName);
      if Truthy(propValue) {
        replacedProps := replacedProps[propName := propValue];
      }
      todo := todo - {propName};
    }
    assert resolved - todo == resolved;
  }

  /** `configuration.layers || {}` */
  function LayerCatalog(configuration: Config): (catalog: Value)
    ensures Truthy(catalog)
    ensures Truthy(Get(configuration, "layers")) ==> catalog == Get(configuration, "layers")
    ensures !Truthy(Get(configuration, "layers")) ==> catalog == Obj(map[])
  {
    Or(Get(configuration, "layers"), Obj(map[]))
  }

  /** `layerCatalog[jsonLayer.type]`. Reading `type` of `null` or `undefined` throws. */
  function LayerClass(jsonLayer: Value, configuration: Config): Value
    requires !jsonLayer.Null? && !jsonLayer.Undefined?
  {
    GetProp(LayerCatalog(configuration), ToJsString(GetProp(jsonLayer, "type")))
  }

  /** `jsonLayers = []`: the layer descriptions, `undefined` standing for none. */
  function LayerList(jsonLayers: Value): seq<Value>
    requires jsonLayers.Undefined? || jsonLayers.Arr?
  {
    if jsonLayers.Undefined? then [] else jsonLayers.elems
  }

  /** What `getJSONLayers` needs of each description: it is not `null` or
      `undefined`, a registered layer is a constructor, and its prop types can be read. */
  ghost predicate LayerBuildable(jsonLayer: Value, configuration: Config)
  {
    && !jsonLayer.Null? && !jsonLayer.Undefined?
    && (Truthy(LayerClass(jsonLayer, configuration)) ==> LayerClass(jsonLayer, configuration).Fn?)
    && PropTypesReadable(LayerClass(jsonLayer, configuration), OwnEnumerable(jsonLayer))
  }

  /** `Layer && new Layer(props)`: the layer's instance, or the falsy lookup result itself. */
  function LayerEntry(jsonLayer: Value, configuration: Config, parse: Parser): (r: Value)
    requires LayerBuildable(jsonLayer, configuration)
    ensures Truthy(r) <==> Truthy(LayerClass(jsonLayer, configuration))
    ensures Truthy(LayerClass(jsonLayer, configuration)) ==>
              r == Instance(LayerClass(jsonLayer, configuration).source,
                            LayerProps(LayerClass(jsonLayer, configuration), OwnEnumerable(jsonLayer), configuration, parse))
  {
    var layer := LayerClass(jsonLayer, configuration);
    var props := LayerProps(layer, OwnEnumerable(jsonLayer), configuration, parse);
    if Truthy(layer) then Instance(layer.source, props) else layer
  }

  /** `getJSONLayers`: one entry per description, in order (`undefined` stands
      for the default `[]`). */
  function GetJSONLayers(jsonLayers: Value, configuration: Config, parse: Parser): (r: seq<Value>)
    requires jsonLayers.Undefined? || jsonLayers.Arr?
    requires forall i :: 0 <= i < |LayerList(jsonLayers)| ==> LayerBuildable(LayerList(jsonLayers)[i], configuration)
    ensures |r| == |LayerList(jsonLayers)|
    ensures jsonLayers.Undefined? ==> r == []
    ensures forall i :: 0 <= i < |LayerList(jsonLayers)| ==> r[i] == LayerEntry(LayerList(jsonLayers)[i], configuration, parse)
  {
    var layers := LayerList(jsonLayers);
    seq(|layers|, i requires 0 <= i < |layers| => LayerEntry(layers[i], configuration, parse))
  }

  /** A description whose `type` the catalog does not hold yields a falsy entry,
      and the entries keep the order of the descriptions. */
  lemma UnregisteredLayer(jsonLayers: Value, configuration: Config, parse: Parser, i: nat)
    requires jsonLayers.Arr? && i < |jsonLayers.elems|
    requires forall j :: 0 <= j < |jsonLayers.elems| ==> LayerBuildable(jsonLayers.elems[j], configuration)
    requires jsonLayers.elems[i].Obj? && "type" in jsonLayers.elems[i].fields
    requires ToJsString(jsonLayers.elems[i].fields["type"]) !in OwnEnumerable(LayerCatalog(configuration))
    requires LayerCatalog(configuration).Obj?
    ensures !Truthy(GetJSONLayers(jsonLayers, configuration, parse)[i])
  {
  }
}
