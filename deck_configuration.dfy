/** deck-json-converter/deck-configuration.js: the module-level catalog of
    view classes and `getDeckConfiguration`, which overlays a user
    configuration on the defaults and, as a side effect, adds the user's
    classes to that shared catalog for every later call. */
module DeckConfiguration {
  import opened JsValues

  /** The view classes of `@deck.gl/core` the catalog starts with. */
  const DefaultViewNames: set<string> := {"MapView", "FirstPersonView", "OrbitView", "OrthographicView"}

  /** `configuration = {}`: the default applies only to `undefined`. */
  function WithDefault(configuration: Value): (r: Value)
    ensures configuration.Undefined? ==> r == Obj(map[])
    ensures !configuration.Undefined? ==> r == configuration
  {
    if configuration.Undefined? then Obj(map[]) else configuration
  }

  /** The user's `classes`, as `Object.assign` copies them. */
  function UserClasses(configuration: Value): map<string, Value>
    requires !configuration.Null? && !configuration.Undefined?
  {
    OwnEnumerable(GetProp(configuration, "classes"))
  }

  /** The user's `enumerations`, as `Object.assign` copies them. */
  function UserEnumerations(configuration: Value): map<string, Value>
    requires !configuration.Null? && !configuration.Undefined?
  {
    OwnEnumerable(GetProp(configuration, "enumerations"))
  }

  /** The catalog after `Object.assign(DEFAULT_VIEW_CATALOG, configuration.classes)`:
      every class it held, and every user class, the user's entry winning a clash. */
  function MergedClasses(catalog: map<string, Value>, configuration: Value): (r: map<string, Value>)
    requires !configuration.Null? && !configuration.Undefined?
    ensures r.Keys == catalog.Keys + UserClasses(configuration).Keys
    ensures forall name :: name in UserClasses(configuration) ==> r[name] == UserClasses(configuration)[name]
    ensures forall name :: name in catalog && name !in UserClasses(configuration) ==> r[name] == catalog[name]
  {
    Assign(catalog, GetProp(configuration, "classes"))
  }

  /** `Object.assign({COORDINATE_SYSTEM, GL}, configuration.enumerations)`: both
      defaults and every user enumeration, the user's entry winning a clash. */
  function MergedEnumerations(coordinateSystem: Value, gl: Value, configuration: Value): (r: map<string, Value>)
    requires !configuration.Null? && !configuration.Undefined?
    ensures r.Keys == {"COORDINATE_SYSTEM", "GL"} + UserEnumerations(configuration).Keys
    ensures forall name :: name in UserEnumerations(configuration) ==> r[name] == UserEnumerations(configuration)[name]
    ensures "COORDINATE_SYSTEM" !in UserEnumerations(configuration) ==> r["COORDINATE_SYSTEM"] == coordinateSystem
    ensures "GL" !in UserEnumerations(configuration) ==> r["GL"] == gl
  {
    Assign(map["COORDINATE_SYSTEM" := coordinateSystem, "GL" := gl], GetProp(configuration, "enumerations"))
  }

  /** `Object.assign({}, base, {classes, enumerations})` on plain dictionaries:
      the base entries, with `classes` and `enumerations` set last. */
  function Overlay(base: map<string, Value>, classes: Value, enumerations: Value): (r: map<string, Value>)
    ensures r.Keys == base.Keys + {"classes", "enumerations"}
    ensures forall k :: k in base && k != "classes" && k != "enumerations" ==> r[k] == base[k]
    ensures r["classes"] == classes && r["enumerations"] == enumerations
  {
    base + map["classes" := classes, "enumerations" := enumerations]
  }

  /** Copying a configuration into `{}` and then assigning `classes` and
      `enumerations` is `Overlay`. */
  lemma AssignIsOverlay(configuration: Value, classes: Value, enumerations: Value)
    ensures Assign(Assign(map[], configuration), Obj(map["classes" := classes, "enumerations" := enumerations]))
         == Overlay(OwnEnumerable(configuration), classes, enumerations)
  {
    assert Assign(map[], configuration) == OwnEnumerable(configuration);
  }

  /** The object `getDeckConfiguration` returns, given the catalog before the
      call: a fresh object with every own key of the configuration, and
      `classes` and `enumerations` replaced by the merged maps (the last
      source of `Object.assign({}, configuration, {classes, enumerations})`
      wins). */
  function DeckConfigurationOf(catalog: map<string, Value>, coordinateSystem: Value, gl: Value, configuration: Value)
    : (r: map<string, Value>)
    requires !configuration.Null? && !configuration.Undefined?
    ensures r.Keys == OwnEnumerable(configuration).Keys + {"classes", "enumerations"}
    ensures forall k :: k in OwnEnumerable(configuration) && k != "classes" && k != "enumerations"
              ==> r[k] == OwnEnumerable(configuration)[k]
    ensures r["classes"] == Obj(MergedClasses(catalog, configuration))
    ensures r["enumerations"] == Obj(MergedEnumerations(coordinateSystem, gl, configuration))
  {
    Overlay(OwnEnumerable(configuration),
            Obj(MergedClasses(catalog, configuration)),
            Obj(MergedEnumerations(coordinateSystem, gl, configuration)))
  }

  /** Any merge keeps the four default views the catalog holds, each with its
      old value unless the user's `classes` names it. */
  lemma DefaultViewsKept(catalog: map<string, Value>, configuration: Value)
    requires !configuration.Null? && !configuration.Undefined?
    requires DefaultViewNames <= catalog.Keys
    ensures DefaultViewNames <= MergedClasses(catalog, configuration).Keys
    ensures forall name :: name in DefaultViewNames && name !in UserClasses(configuration)
              ==> MergedClasses(catalog, configuration)[name] == catalog[name]
  {
  }

  /** A class registered by one call stays in the catalog, with its value,
      through a later call that does not register the same name. */
  lemma {:induction false} ClassesPersist(catalog: map<string, Value>, first: Value, second: Value, name: string)
    requires !first.Null? && !first.Undefined? && !second.Null? && !second.Undefined?
    requires name in UserClasses(first) && name !in UserClasses(second)
    ensures var afterFirst := MergedClasses(catalog, first);
            && name in MergedClasses(afterFirst, second)
            && MergedClasses(afterFirst, second)[name] == UserClasses(first)[name]
  {
    var afterFirst := MergedClasses(catalog, first);
    assert afterFirst[name] == UserClasses(first)[name];
  }

  /** The module-level state of deck-configuration.js: `DEFAULT_VIEW_CATALOG`,
      and the imported view classes and enumerations it starts from. */
  class DeckConfigurationDefaults {
    var defaultViewCatalog: map<string, Value>
    const coordinateSystem: Value
    const gl: Value

    /** The four default view names are never removed from the catalog. */
    ghost predicate Valid()
      reads this
    {
      DefaultViewNames <= defaultViewCatalog.Keys
    }

    /** `const DEFAULT_VIEW_CATALOG = {MapView, FirstPersonView, OrbitView, OrthographicView}` */
    constructor(mapView: Value, firstPersonView: Value, orbitView: Value, orthographicView: Value,
                coordinateSystem: Value, gl: Value)
      ensures Valid()
      ensures defaultViewCatalog == map["MapView" := mapView, "FirstPersonView" := firstPersonView,
                                        "OrbitView" := orbitView, "OrthographicView" := orthographicView]
      ensures this.coordinateSystem == coordinateSystem && this.gl == gl
    {
      defaultViewCatalog := map["MapView" := mapView, "FirstPersonView" := firstPersonView,
                                "OrbitView" := orbitView, "OrthographicView" := orthographicView];
      this.coordinateSystem := coordinateSystem;
      this.gl := gl;
    }

    /** `getDeckConfiguration`: mutates the shared catalog, then builds the result. */
    method GetDeckConfiguration(configuration: Value) returns (r: map<string, Value>)
      requires Valid() && !configuration.Null?
      modifies this
      ensures Valid()
      ensures defaultViewCatalog == MergedClasses(old(defaultViewCatalog), WithDefault(configuration))
      ensures r == DeckConfigurationOf(old(defaultViewCatalog), coordinateSystem, gl, WithDefault(configuration))
      ensures r["classes"] == Obj(defaultViewCatalog)
    {
      var config := if configuration.Undefined? then Obj(map[]) else configuration;
      assert config == WithDefault(configuration);
      defaultViewCatalog := Assign(defaultViewCatalog, GetProp(config, "classes"));
      var enumerations := Assign(map["COORDINATE_SYSTEM" := coordinateSystem, "GL" := gl], GetProp(config, "enumerations"));
      r := Assign(Assign(map[], config), Obj(map["classes" := Obj(defaultViewCatalog), "enumerations" := Obj(enumerations)]));
      AssignIsOverlay(config, Obj(defaultViewCatalog), Obj(enumerations));
    }
  }

  /** Right after start-up, a configuration without `classes` gets exactly the
      four default views, and one that names a default view replaces it. */
  lemma FirstCallClasses(mapView: Value, firstPersonView: Value, orbitView: Value, orthographicView: Value,
                         configuration: Value)
    requires !configuration.Null? && !configuration.Undefined?
    ensures var initial := map["MapView" := mapView, "FirstPersonView" := firstPersonView,
                               "OrbitView" := orbitView, "OrthographicView" := orthographicView];
            var merged := MergedClasses(initial, configuration);
            && DefaultViewNames <= merged.Keys
            && (UserClasses(configuration) == map[] ==> merged == initial)
            && ("MapView" in UserClasses(configuration) ==> merged["MapView"] == UserClasses(configuration)["MapView"])
            && ("MapView" !in UserClasses(configuration) ==> merged["MapView"] == mapView)
  {
  }
}
