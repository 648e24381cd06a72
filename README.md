# deck.gl JSON hydration, modelled in Dafny

This project models the core of deck.gl's `@deck.gl/json` module and proves properties of it. The module turns a
parsed JSON description of a visualisation into deck.gl props:

- **Generic converter** (`json-converter/convert-json.js`, module `JsonConverter`). `convertJSON` walks a JSON tree.
  - Arrays are converted element by element.
  - An object with a truthy value under the type key (default `"type"`) is a class declaration. It is looked up in
    `configuration.classes`. A registered class is instantiated with the object's other keys. An unregistered one logs
    a warning and becomes `null`.
  - Other objects are rebuilt key by key. Strings and scalars come back unchanged.
  - `validateConfiguration` throws on a malformed configuration.
- **Deck converter** (`deck-json-converter/deck-json-converter.js` and its near-copy `deck-json-converter/convert-json.js`,
  module `DeckJsonConverter`).
  - `DeckJSONConverter.postProcessConvertedJson` remembers the last `initialViewState`. It copies a new one into
    `viewState` only when it differs by shallow equality.
  - `convertDeckJSON` and `normalizeMapProps` edit the converted props in place. They fall back from `viewState` to
    `initialViewState`, merge `map` over `DEFAULT_MAP_PROPS`, and move `mapStyle` into `map`.
  - `getJSONLayers` and `getJSONLayerProps` instantiate layers. String props of accessor or function type are parsed,
    and falsy props are dropped.
- **Deck configuration** (`deck-json-converter/deck-configuration.js`, module `DeckConfiguration`). `getDeckConfiguration`
  overlays the user's `classes` and `enumerations` on the defaults. It also mutates the module-level
  `DEFAULT_VIEW_CATALOG`, so classes registered in one call stay for every later call.

Module `JsValues` models the JavaScript values the code handles and the language operations it relies on:
- truthiness
- `typeof … === 'object'`
- property reads
- own enumerable keys, as `for…in`, spread and `Object.assign` see them
- `Object.assign`
- `String(v)` as a property key

## How the model is organised

Every operation has a function that says what it returns, with lemmas stating what the source promises. The operations
that loop or change state also have a method that follows the source step by step and is proved against that function:
- `convertJSON`, its array `map`, `convertClassInstance` and the `for…in` loop of `convertPlainObject`;
- `postProcessConvertedJson`, which edits `json` and the converter's stored `initialViewState`;
- `convertDeckJSON` and `normalizeMapProps`, which edit `jsonProps` in place;
- the `for…in` loop of `getJSONLayerProps`;
- `getDeckConfiguration`, which mutates `DEFAULT_VIEW_CATALOG`.

`validateConfiguration`, `isClassInstance`, `convertString`, `getJSONLayers` and the view-state fallback of
`convertDeckJSON` are expressions over their inputs and exist only as functions.

Warnings go to a `Log` whose ghost `entries` record every `log.warn` call in order. `for…in` order over an object is not
fixed by the model. So the spec function `Warnings` gives the warnings of a conversion as a multiset. `ConvertJSON`
proves that the log only grows, and by exactly that multiset.

The model follows the code as written in three places a reader might not expect:
- `convertClassInstance` discards the result of `convertPlainObject`. The constructor receives nested declarations as
  raw objects. The discarded conversion still constructs them, and those constructor calls are not modelled. Its
  warnings are still logged. `RegisteredClass` states this.
- A falsy `typeKey` other than `undefined` passes validation and is used as a property key (`"null"`, `"false"`,
  `"0"`, `""`). Only `undefined` selects the default `"type"`.
- The configuration is not read-only across calls: `getDeckConfiguration` mutates the shared view catalog.

`deck-json-converter/deck-json-converter.js` and `deck-json-converter/convert-json.js` carry the same `convertDeckJSON`,
`normalizeMapProps`, `getJSONLayers` and `getJSONLayerProps`. They are modelled once. The table cites whichever copy the
member follows. The same lines exist in the other copy.

## Model

| member | source | states |
|---|---|---|
| JsonConverter.ValidateConfiguration | modules/json/src/json-converter/convert-json.js:16-28 | Succeeds, returning true, iff `typeKey` is falsy or a string and `classes` is a non-null object; otherwise fails with the message `"JSON conversion error "` |
| JsonConverter.TypeKey | modules/json/src/json-converter/convert-json.js:62-65 | The type key is `"type"` only when `typeKey` is undefined; a string `typeKey` is used as is; any other falsy value that validation admits selects `"null"`, `"false"` or `"0"` |
| JsonConverter.ClassInstanceTest | modules/json/src/json-converter/convert-json.js:62-65 | `null`, scalars and strings are never class declarations; an object is one iff its entry under the type key exists and is truthy, the `type` entry when no `typeKey` is configured |
| JsonConverter.ResidualProps | modules/json/src/json-converter/convert-json.js:73-74 | The props copy has the declaration's keys minus the type key, each with its original value |
| JsonConverter.Slice | modules/json/src/json-converter/convert-json.js:82 | `slice(0, n)` is a prefix of length `min(|s|, n)` |
| JsonConverter.WarningText | modules/json/src/json-converter/convert-json.js:82-83 | The warning is the fixed prefix, the type, and an excerpt that is exactly the first `min(40, length)` characters of the serialised props |
| JsonConverter.ConvertString | modules/json/src/json-converter/convert-json.js:106-112 | A string comes back unchanged whether or not `enumerations` is set |
| JsonConverter.ConvertArray | modules/json/src/json-converter/convert-json.js:32-34 | An array converts to an array of the same length whose i-th element is the conversion of the i-th input, even with a truthy type key |
| JsonConverter.UnregisteredClass | modules/json/src/json-converter/convert-json.js:77-85 | An unregistered type converts to `null` and logs exactly one warning, which names the type and carries the residual props |
| JsonConverter.RegisteredClass | modules/json/src/json-converter/convert-json.js:67-90 | A registered type becomes an instance of its class built from the input's keys minus the type key with their unconverted values; the warnings are those of converting those props |
| JsonConverter.PlainObject | modules/json/src/json-converter/convert-json.js:93-102 | A plain object converts to an object with exactly the same keys, each value converted recursively |
| JsonConverter.ScalarsUnchanged | modules/json/src/json-converter/convert-json.js:45-59 | Strings, numbers, booleans and `null` come back unchanged and log nothing |
| JsonConverter.ConvertIdentity | modules/json/src/json-converter/convert-json.js:31-60 | A tree with no truthy type key anywhere converts to an equal tree and logs nothing |
| JsonConverter.FieldsWarningsSplit | modules/json/src/json-converter/convert-json.js:97-100 | The warnings of a `for…in` walk do not depend on which key is visited first |
| JsonConverter.WarningsOnlyUnregistered | modules/json/src/json-converter/convert-json.js:77-85 | Every warning a conversion logs names a type the registry does not hold and goes to `configuration.log`, or the console when that is undefined |
| JsonConverter.ConvertJSON | modules/json/src/json-converter/convert-json.js:31-60 | Returns `Convert(json)`; the log only grows, by exactly the warnings `Warnings(json)` |
| JsonConverter.ConvertElements | modules/json/src/json-converter/convert-json.js:32-34 | The mapped array has the input's length and each element converted; the log grows by the elements' warnings |
| JsonConverter.ConvertClassInstance | modules/json/src/json-converter/convert-json.js:67-90 | Copies the declaration, deletes the type key, then either logs one warning and returns `null` or converts and discards the props and returns the instance; agrees with `Convert` and `Warnings` |
| JsonConverter.ConvertPlainObject | modules/json/src/json-converter/convert-json.js:93-102 | The `for…in` loop yields a dictionary with the same keys, each value converted; the log grows by the values' warnings |
| DeckJsonConverter.PostProcess | modules/json/src/deck-json-converter/deck-json-converter.js:31-44 | Without `initialViewState` nothing changes. With it, the key is deleted and other keys are kept. `viewState` and the stored state take the new value iff the stored state is falsy or not shallow-equal to it; otherwise only `initialViewState` is deleted and the stored state is kept |
| DeckJsonConverter.RepeatedInitialViewState | modules/json/src/deck-json-converter/deck-json-converter.js:31-41 | Receiving again a truthy `initialViewState` whose entries are all scalars only deletes `initialViewState` and keeps the stored state |
| DeckJsonConverter.NestedViewStateReplaced | modules/json/src/deck-json-converter/deck-json-converter.js:31-41 | An `initialViewState` with a nested object, array or function never compares shallow-equal to the stored one, so it always replaces `viewState` and the stored state |
| DeckJsonConverter.DeckJSONConverter.PostProcessConvertedJson | modules/json/src/deck-json-converter/deck-json-converter.js:27-45 | Edits `json` in place and returns the same object; the new `json` and `initialViewState` field are those of `PostProcess` |
| DeckJsonConverter.WithViewStateFallback | modules/json/src/deck-json-converter/convert-json.js:27-29 | With `initialViewState` present, `viewState` becomes the existing truthy `viewState`, else `initialViewState`, and `initialViewState` is kept; otherwise the props are unchanged |
| DeckJsonConverter.BaseMap | modules/json/src/deck-json-converter/convert-json.js:38-39 | The rebuilt `map` holds `DEFAULT_MAP_PROPS` overridden by the old `map`'s own keys |
| DeckJsonConverter.NormalizedMapProps | modules/json/src/deck-json-converter/convert-json.js:37-56 | No change unless `map` or `mapStyle` is truthy. Otherwise `map` is a new object with the base keys; `mapStyle` moves into `map.style` and `map.mapStyle` and leaves the top level; `viewState` is copied into `map.viewState`; all other props are kept |
| DeckJsonConverter.MapStyleDefault | modules/json/src/deck-json-converter/convert-json.js:38-39 | `map.style` defaults to the light-v9 style URL when neither `map.style` nor `mapStyle` is given |
| DeckJsonConverter.NormalizeMapProps | modules/json/src/deck-json-converter/deck-json-converter.js:62-81 | The in-place edits of `jsonProps` leave exactly `NormalizedMapProps` of the old props |
| DeckJsonConverter.MapViewStateAfterFallback | modules/json/src/deck-json-converter/deck-json-converter.js:52-80 | With `initialViewState` and a map, `map.viewState` and `viewState` both hold the existing truthy `viewState`, else `initialViewState` |
| DeckJsonConverter.ConvertDeckJSON | modules/json/src/deck-json-converter/deck-json-converter.js:48-59 | Returns a fresh object holding the converted props after the view-state fallback and map normalisation; logs the conversion's warnings |
| DeckJsonConverter.PropKind | modules/json/src/deck-json-converter/convert-json.js:78-83 | A `get…` name is always `'accessor'`; otherwise the kind is the declared `propType.type`, or false when the prop type is not an object |
| DeckJsonConverter.PropResolution | modules/json/src/deck-json-converter/convert-json.js:77-94 | A `get…` or accessor-typed string is parsed as an accessor; a function-typed string is parsed with the accessor flag unset; other strings and non-strings are kept |
| DeckJsonConverter.LayerProps | modules/json/src/deck-json-converter/convert-json.js:71-102 | A key appears in the result iff its resolved value is truthy, and then it holds that value |
| DeckJsonConverter.FalsyPropsDropped | modules/json/src/deck-json-converter/convert-json.js:96-101 | Falsy non-strings and failed accessor parses are absent; truthy non-strings are copied unchanged |
| DeckJsonConverter.GetJSONLayerProps | modules/json/src/deck-json-converter/deck-json-converter.js:96-127 | The `for…in` loop over the description yields exactly `LayerProps` of its own enumerable props |
| DeckJsonConverter.LayerCatalog | modules/json/src/deck-json-converter/deck-json-converter.js:88 | The catalog is `configuration.layers` when that is truthy and `{}` otherwise, so it is always truthy |
| DeckJsonConverter.LayerEntry | modules/json/src/deck-json-converter/deck-json-converter.js:89-93 | An entry is truthy iff its layer class is. A registered class yields an instance built from the layer's resolved props |
| DeckJsonConverter.GetJSONLayers | modules/json/src/deck-json-converter/deck-json-converter.js:86-94 | One entry per description, in order; no descriptions (the `[]` default) gives no entries |
| DeckJsonConverter.UnregisteredLayer | modules/json/src/deck-json-converter/convert-json.js:61-69 | A description whose `type` is not in the layer catalog yields a falsy entry at its own position |
| DeckConfiguration.WithDefault | modules/json/src/deck-json-converter/deck-configuration.js:8 | A missing configuration is treated as `{}` |
| DeckConfiguration.MergedClasses | modules/json/src/deck-json-converter/deck-configuration.js:10 | The catalog keeps every class it held and gains every user class; on a clash the user's entry wins |
| DeckConfiguration.MergedEnumerations | modules/json/src/deck-json-converter/deck-configuration.js:11 | `COORDINATE_SYSTEM` and `GL` are present unless the user overrides them; every user enumeration is present, and the user's entry wins |
| DeckConfiguration.DeckConfigurationOf | modules/json/src/deck-json-converter/deck-configuration.js:9-12 | The result has every own key of the configuration, plus `classes` and `enumerations`, which hold the merged maps |
| DeckConfiguration.DefaultViewsKept | modules/json/src/deck-json-converter/deck-configuration.js:6-10 | `MapView`, `FirstPersonView`, `OrbitView` and `OrthographicView` stay in the catalog after any merge, each unchanged unless the user names it |
| DeckConfiguration.ClassesPersist | modules/json/src/deck-json-converter/deck-configuration.js:6-10 | A class registered by one call stays in the catalog, with the same value, through a later call that does not name it |
| DeckConfiguration.FirstCallClasses | modules/json/src/deck-json-converter/deck-configuration.js:6-10 | On the first call, a configuration without classes gets exactly the four default views; a user `MapView` replaces the default one |
| DeckConfiguration.DeckConfigurationDefaults.constructor | modules/json/src/deck-json-converter/deck-configuration.js:6 | The catalog starts with the four core view classes |
| DeckConfiguration.DeckConfigurationDefaults.GetDeckConfiguration | modules/json/src/deck-json-converter/deck-configuration.js:8-13 | Mutates the shared catalog to `MergedClasses` of its old value, returns `DeckConfigurationOf` the old catalog, and the returned `classes` is the catalog's new contents; the four default views are never lost |

## Left out

- Numbers are modelled as unbounded integers. Fractions, `NaN` and `Infinity` are not modelled. Only truthiness and the decimal text of a number as a property key matter to this code.
- Strings are sequences of characters, not UTF-16 code units.
- Properties inherited through a prototype chain are not modelled. `for…in`, spread and `Object.assign` see only own enumerable properties.
- Object key order is not modelled. Warnings are compared as a multiset.
- Instances built by `new Class(props)` and `new Layer(props)` are opaque values recording the constructor and its props. Constructor side effects and the instances' own properties are not modelled.
- JSON.stringify is a parameter of `WarningText`, because its output depends on key order. The `log.warn` call is recorded in a ghost log, not executed.
- `parseExpressionString` is a parameter of type `(string, configuration, isAccessor) -> value`. The expression grammar is not modelled. A call without the accessor flag is modelled with the flag false.
- JsonConverter.Convert: requires a value `JSON.parse` can produce. Functions or instances inside the input are outside the model.
- JsonConverter.Convert: requires `classes` to be readable and every truthy registered class to be a constructor. `new` on a non-constructor throws; that exception is not modelled.
- JsonConverter.Convert: requires `configuration.log`, when given, to be an object with a `warn` method. `const {log = console} = configuration` replaces only `undefined`, so `log.warn(…)` throws on a `null` log or one without `warn`. That exception is not modelled. The source throws only when it meets an unregistered type, so a configuration with such a log that never meets one is also outside the model.
- DeckJsonConverter.ConvertDeckJSON: requires the top-level JSON to be a plain object that is not a class declaration. The `in` operator throws on primitives, and an array or instance is not a props object.
- DeckJsonConverter.DeckJSONConverter.PostProcessConvertedJson: `json` is a dictionary edited in place. An array or instance passed as `json` is not modelled.
- DeckJsonConverter.NormalizeMapProps: the nested `map` object is a value inside the props. It is freshly built by `Object.assign({}, …)` and never shared, so updating it in place is modelled as replacing it.
- DeckJsonConverter.GetJSONLayers: requires each description to be neither `null` nor `undefined` (reading `.type` would throw), a registered layer to be a constructor, and each string prop's prop type not to be `null` (`typeof null === 'object'` makes `propType.type` throw).
- DeckJsonConverter.GetJSONLayers: `jsonLayers` must be an array or `undefined`. `map` on any other value throws.
- DeckConfiguration.DeckConfigurationDefaults.GetDeckConfiguration: the returned `classes` is the catalog object itself, so later calls also change it. The model returns the catalog's contents at return time and does not capture that aliasing.
- DeckConfiguration.DeckConfigurationDefaults.GetDeckConfiguration: requires the configuration not to be `null`, because reading `configuration.classes` would throw. The view classes, `COORDINATE_SYSTEM` and `GL` from `@deck.gl/core` and `@luma.gl/constants` are opaque values given to the constructor.
- DeckJsonConverter.ShallowEqualObjects: `shallowEqualObjects` is not part of this model. It is defined as `===`, or two objects or arrays with the same own enumerable keys holding `===` values.
- DeckJsonConverter.StrictEquals: object identity is not modelled. Every object, array, function or instance is taken to be a fresh reference, as it is when a new conversion builds it. Passing the same object to `postProcessConvertedJson` twice, which makes `===` hold, is not modelled.
- DeckJsonConverter.RepeatedInitialViewState: holds only for view states whose entries are scalars. With nested objects the source replaces the view state on every conversion, which `NestedViewStateReplaced` states.
- The `JSONConverter` base class, its constructor and its conversion driver are not part of this model. `DeckJSONConverter`'s constructor is modelled as starting with no stored `initialViewState`.
- `json-layer.js` is a rendering adapter tied to deck.gl's layer lifecycle and is not modelled.
- The input configuration and JSON are values, so the model cannot mutate them. That neither `convertJSON` nor `getDeckConfiguration` mutates its input holds by construction and is not stated as a lemma.
