# Highlightable layers for Leaflet, modelled in Dafny

Leaflet.HighlightableLayers gives Leaflet's vector shapes a highlight effect,
such as an outline drawn around a polygon. `createHighlightableLayerClass`
takes a Leaflet base class (`Circle`, `Polygon`, …) and returns a subclass.
An instance of that subclass is the *primary* shape. It also owns one
*auxiliary* shape of the base class for every layer name other than `"main"`
that its style generator returns. Every mutating call is fanned out to the
primary and to every auxiliary: `setStyle`, `onAdd`, `onRemove`, `redraw`, and
the extra method names given to the factory. The five `Layers` presets are
built from this factory.

The model has three modules:

- `Values` (`values.dfy`) holds JavaScript values and their truthiness, the
  options record as a `map<string, Value>`, and `Object.assign` (`Assign`). It
  also holds the record reached by applying a sequence of patches
  (`MergeAll`), with a lemma saying which patch each property comes from.
- `Trace` (`trace.dfy`) holds what an instance does to the outside world, as a
  ghost trace of events. Each event is addressed to the `Primary` shape or to
  the `Auxiliary(name)` shape stored under a layer name. `Targeting(t, x)` is
  the list of actions in trace `t` that reach shape `x`. "Exactly once" is
  stated as: that list has one element.
- `Layers` (`layers.dfy`) holds the factory, which is the loop that installs
  the fan-out wrappers. It also holds the presets and the effective options.
  The class `HighlightableLayer` has the fields `realOptions` and `layers`
  (the keys of the auxiliary dictionary, in `Object.keys` order) and the
  methods `SetStyle`, `OnAdd`, `OnRemove` and `Invoke`. `Invoke` is the
  wrapper for `redraw` and each extra method name.

Style generators are named (`PolygonStyles`, `PolylineStyles`, `Custom(n)`).
A function `run` passed to the constructor gives each name its meaning. It is
an arbitrary total function, so every property holds for every generator.
What a base-class method returns is likewise an arbitrary function `respond`
of the receiver, the method name and the arguments.

Faults in the source are preconditions in the model:
- `StyleReady` covers reading `styles.main.pane` when `"main"` is missing
  (line 80). It also covers reading `styles[layerName].pane` when an
  auxiliary's key is missing from the generated styles (line 86).
- `CanGenerate` covers calling a `generateStyles` value that is not a
  function.

The `setStyle` loop walks the keys of the auxiliary dictionary, not the keys
of the generated styles (line 85). So a generated layer name with no
auxiliary is silently ignored. An auxiliary whose key is missing from a later
generation faults at line 86.

The factory's `defaultOptions` are assigned over the options the caller
passes (line 38), so a default wins over a caller's value for the same key.
In particular, a `Polyline` always uses the polyline generator, even when the
caller passes `generateStyles` (`PresetGenerator`).

The auxiliary dictionary is a `const` field. It is set in the constructor's
first phase, and no method can change it afterwards.

## Model

| member | source | states |
|---|---|---|
| `Values.Assign` | src/layers.ts:76 | `Object.assign`: the result has the keys of both records; a patched key takes the patch's value and every other key keeps its old value |
| `Values.MergeAllLastWrite` | src/layers.ts:76-78 | of `MergeAll`, the record reached by repeating line 76 once per `setStyle` call: after any sequence of `setStyle` patches, a property is present exactly when the base or some patch has it; its value comes from the last patch that has it, or from the base when no patch does |
| `Trace.EachAux` | src/layers.ts:99-101 | one event per auxiliary key, in key order, each carrying the same action |
| `Trace.TargetingEachAux` | src/layers.ts:58-60 | fanning an action out over distinct keys reaches each key's auxiliary exactly once and reaches no other shape |
| `Trace.PrimaryThenAuxiliariesOrder` | src/layers.ts:55-63 | the primary acts before any auxiliary; the primary gets its action once, each auxiliary gets its action exactly once, and names that are not auxiliary keys get nothing |
| `Trace.AuxiliariesThenPrimaryOrder` | src/layers.ts:65-73 | every auxiliary acts before the primary; each gets its action exactly once, and names that are not auxiliary keys get nothing |
| `Layers.CreateHighlightableLayerClass` | src/layers.ts:96-104 | the produced class's fan-out wrappers are installed for exactly `redraw` and the extra method names; the base class and the defaults are kept |
| `Layers.MakeLayers` | src/layers.ts:109-123 | the five presets: Circle and CircleMarker fan out `redraw`, `setRadius` and `setLatLng`; Polygon and Polyline fan out `redraw` and `setLatLngs`; Rectangle fans out `redraw` and `setBounds`; only Polyline has defaults, and they hold the polyline generator |
| `Layers.EffectiveOptions` | src/layers.ts:35-43 | every property other than `generateStyles` is present if the base options or the defaults have it, and a default wins over a base value; `generateStyles` is the defaults' value, else the base value, and the polygon generator when that value is falsy; the result always holds a truthy generator |
| `Layers.PresetGenerator` | src/layers.ts:111-121 | a Polyline uses the polyline generator whatever the caller passes; a class without defaults uses the caller's truthy generator, else the polygon generator |
| `Layers.AuxKeys` | src/layers.ts:46-50 | the auxiliary names are exactly the generated names other than `"main"`; `"main"` is never one; distinct names stay distinct |
| `Layers.InitialLayers` | src/layers.ts:45-50 | the auxiliary dictionary is built from `ConstructorStyles`, line 46's `generateStyles(realOptions) ?? {}`; the auxiliary dictionary's keys are exactly the non-`"main"` keys of the generator's first output, each once; a null or undefined output gives no auxiliaries |
| `Layers.FallbackStyles` | src/layers.ts:78 | of `GeneratedStyles`, line 78's `generateStyles?.(realOptions) ?? { main: {...} }`: without a generator, or when the generator yields null or undefined, the primary is styled with a copy of the whole options record, and `setStyle` can complete only when there are no auxiliaries |
| `Layers.AuxKeysKeepOrder` | src/layers.ts:46-50 | the auxiliary names keep the generated record's key order: any two of them occur in the record in the same relative order, so the dictionary's `Object.keys` order, which `onAdd`, `onRemove` and `setStyle` follow, is the generator's order without `"main"` |
| `Trace.TargetingAddressed` | src/layers.ts:80-83 | a run of actions addressed to one shape reaches that shape with exactly those actions, in order, and reaches no other shape |
| `Layers.Styled` | src/layers.ts:80-83 | every event of one layer's styling is addressed to that layer |
| `Layers.TargetingStyled` | src/layers.ts:80-83 | one layer's styling reaches only that layer: a pane change first, only when the style names a truthy pane, then the style itself |
| `Layers.AuxiliaryStyles` | src/layers.ts:85-90 | the events of the `setStyle` loop are addressed only to auxiliaries whose keys are in the dictionary |
| `Layers.TargetingAuxiliaryStyles` | src/layers.ts:85-90 | the `setStyle` loop gives each auxiliary exactly its own generated style, with its pane change first when there is one, and addresses no name outside the dictionary |
| `Layers.StyleTraceTargets` | src/layers.ts:80-90 | of `StyleTrace`, the events of lines 80-90 (the primary's styling, then the loop's): `setStyle` styles the primary with `"main"` before any auxiliary is styled; each auxiliary gets its own entry exactly once; generated names with no auxiliary are never touched |
| `Layers.HighlightableLayer.constructor` | src/layers.ts:32-53 | `realOptions` is the effective options; the auxiliary keys are those of the first generation; one auxiliary is constructed per key with the caller's arguments, and then `setStyle({})` runs |
| `Layers.HighlightableLayer.SetStyle` | src/layers.ts:75-93 | the patch is merged into `realOptions`; the generator sees the whole accumulated record; the primary is styled with `"main"` and then each auxiliary with its own style; returns `this`; the object invariant (`realOptions` is the iterated merge of all patches) is kept |
| `Layers.HighlightableLayer.StyleLayer` | src/layers.ts:80-83 | `setLayerPane` on the layer when its style names a truthy pane, then the base `setStyle`; the trace grows by exactly `Styled(x, style)` and the options are unchanged |
| `Layers.HighlightableLayer.StyleAuxiliaries` | src/layers.ts:85-90 | the loop over the dictionary's keys styles each auxiliary with its own entry in key order; the trace grows by exactly `AuxiliaryStyles(table, layers)` and the options are unchanged |
| `Layers.HighlightableLayer.OnAdd` | src/layers.ts:55-63 | the base `onAdd` runs on the primary, then `addLayer` runs for each auxiliary on the same map in key order; returns `this`; options are unchanged |
| `Layers.HighlightableLayer.OnRemove` | src/layers.ts:65-73 | `removeLayer` runs for each auxiliary in key order, then the base `onRemove` runs on the primary; returns `this`; options are unchanged |
| `Layers.HighlightableLayer.Invoke` | src/layers.ts:96-104 | a fanned-out method runs on the primary, then with identical arguments on each auxiliary; the primary's result is returned |
| `Layers.RestyleTwice` | src/layers.ts:75-93 | two `setStyle({})` calls in a row leave `realOptions` unchanged and issue identical styling both times |

## Left out

- Leaflet is not part of this model. That covers `Path`, its subclasses, drawing, projection, hit-testing, and `Map.addLayer`/`removeLayer` beyond the call itself. Each Leaflet call is one trace event.
- Leaflet's base methods can call back into the patched ones. For example, `setLatLngs` calls `this.redraw()`, which would reach the fan-out wrapper. The model treats a base method as one opaque event, so it does not include these nested calls.
- `generatePolygonStyles` and `generatePolylineStyles` (`./styles`) are not part of this model. They are names given meaning by the `run` parameter.
- `setLayerPane` (`./panes`) is not part of this model. It is the `SetPane` event.
- `clone` (`./utils`) is not part of this model. It is a shallow copy, which a Dafny map value already is.
- The runtime prototype patching is a set of method names (`LayerClass.fanOut`). `Invoke` is the wrapper stored under each name. In the source, an extra method named `setStyle`, `onAdd` or `onRemove` would overwrite that method. The model keeps those three separate.
- Auxiliary shapes are identified by their key (`Auxiliary(name)`), not by object identity. They are not Dafny objects.
- `Object.keys` puts integer-like keys first. The model uses the generator's insertion order for every key.
- JavaScript numbers are integers here, so `NaN` is not modelled as a falsy value.
- Faults are preconditions, not modelled outcomes. These are the `TypeError` for a missing `"main"`, for a missing auxiliary style, and for a non-function `generateStyles`.
- A base method's return value depends only on the receiver, the method name and the arguments (`respond`), not on the shape's state.
- Layers.HighlightableLayer.constructor: computes `realOptions` with `EffectiveOptions` in one step, not as the three in-place updates of lines 35-43. The resulting value is the same.
- TypeScript generics and the option typing (lines 6-26) are not modelled. Geometry arguments are opaque `Value`s passed through unchanged.
- Outline colours, widths and bounds depend on the style generators and on Leaflet, which are outside the model.
