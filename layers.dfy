/**
  The highlightable-layer factory: from a base shape class it produces a class
  whose instances are the primary shape and own one auxiliary shape per
  non-"main" layer name of their style generator, and which fan every
  mutating call out to all of them.
 */
module Layers {
  import opened Values
  import opened Trace

  const MainKey := "main"
  const PaneKey := "pane"
  const GenerateStylesKey := "generateStyles"

  /**
    What a style generator returns: a record from layer name to that layer's
    style. `order` is the record's key order, as `Object.keys` lists it.
   */
  datatype StyleRecord = StyleRecord(order: seq<string>, table: map<string, Options>)

  predicate WellFormedRecord(s: StyleRecord) {
    NoDuplicates(s.order) && (set k | k in s.order) == s.table.Keys
  }

  type Styles = s: StyleRecord | WellFormedRecord(s) witness StyleRecord([], map[])

  /** The meaning of each generator name; `None` is a `null` or `undefined` result. */
  type Generate = (GeneratorName, Options) -> Option<Styles>

  /** What the base class's own method returns for a receiver, a method name and arguments. */
  type Respond = (Target, string, seq<Value>) -> Value

  /** The Leaflet base classes the presets are built from. */
  datatype ShapeKind = Circle | CircleMarker | Polygon | Polyline | Rectangle

  /**
    A class produced by the factory: its base class, the method names whose
    prototype slot holds the fan-out wrapper, and the factory's default options.
   */
  datatype LayerClass = LayerClass(base: ShapeKind, fanOut: set<string>, defaults: Option<Options>)

  /**
    `createHighlightableLayerClass`: the class body is fixed, and the loop over
    `redraw` and the extra method names installs one fan-out wrapper per name.
   */
  method CreateHighlightableLayerClass(base: ShapeKind, cloneMethods: seq<string>, defaults: Option<Options>)
    returns (c: LayerClass)
    ensures c.base == base && c.defaults == defaults
    ensures forall m :: m in c.fanOut <==> m == "redraw" || m in cloneMethods
  {
    var names := ["redraw"] + cloneMethods;
    var patched: set<string> := {};
    for i := 0 to |names|
      invariant forall m :: m in patched <==> m in names[..i]
    {
      patched := patched + {names[i]};
    }
    assert names[..|names|] == names;
    c := LayerClass(base, patched, defaults);
  }

  const PolylineDefaults: Options := map[GenerateStylesKey := Generator(PolylineStyles)]

  /** The `Layers` table: one produced class per Leaflet shape. */
  datatype Presets = Presets(
    circle: LayerClass,
    circleMarker: LayerClass,
    polygon: LayerClass,
    polyline: LayerClass,
    rectangle: LayerClass)

  method MakeLayers() returns (p: Presets)
    ensures p.circle == LayerClass(Circle, {"redraw", "setRadius", "setLatLng"}, None)
    ensures p.circleMarker == LayerClass(CircleMarker, {"redraw", "setRadius", "setLatLng"}, None)
    ensures p.polygon == LayerClass(Polygon, {"redraw", "setLatLngs"}, None)
    ensures p.polyline == LayerClass(Polyline, {"redraw", "setLatLngs"}, Some(PolylineDefaults))
    ensures p.rectangle == LayerClass(Rectangle, {"redraw", "setBounds"}, None)
  {
    var circle := CreateHighlightableLayerClass(Circle, ["setRadius", "setLatLng"], None);
    var circleMarker := CreateHighlightableLayerClass(CircleMarker, ["setRadius", "setLatLng"], None);
    var polygon := CreateHighlightableLayerClass(Polygon, ["setLatLngs"], None);
    var polyline := CreateHighlightableLayerClass(Polyline, ["setLatLngs"], Some(PolylineDefaults));
    var rectangle := CreateHighlightableLayerClass(Rectangle, ["setBounds"], None);
    assert circle.fanOut == {"redraw", "setRadius", "setLatLng"};
    assert circleMarker.fanOut == {"redraw", "setRadius", "setLatLng"};
    assert polygon.fanOut == {"redraw", "setLatLngs"};
    assert polyline.fanOut == {"redraw", "setLatLngs"};
    assert rectangle.fanOut == {"redraw", "setBounds"};
    p := Presets(circle, circleMarker, polygon, polyline, rectangle);
  }

  function DefaultsOf(defaults: Option<Options>): Options {
    if defaults.Some? then defaults.value else map[]
  }

  /**
    The effective options `realOptions` right after construction: a copy of the
    base options, overwritten property by property by the factory defaults, with
    the polygon generator filled in when `generateStyles` is still falsy.
   */
  function EffectiveOptions(options: Options, defaults: Option<Options>): (r: Options)
    ensures forall k :: k != GenerateStylesKey ==> (k in r <==> k in options || k in DefaultsOf(defaults))
    ensures forall k :: k != GenerateStylesKey && k in DefaultsOf(defaults) ==> r[k] == DefaultsOf(defaults)[k]
    ensures forall k :: k != GenerateStylesKey && k in options && k !in DefaultsOf(defaults) ==> r[k] == options[k]
    ensures GenerateStylesKey in r && Truthy(r[GenerateStylesKey])
    ensures r[GenerateStylesKey] ==
      (var v := if GenerateStylesKey in DefaultsOf(defaults) then DefaultsOf(defaults)[GenerateStylesKey]
                else Get(options, GenerateStylesKey);
       if Truthy(v) then v else Generator(PolygonStyles))
  {
    var overlaid := if defaults.Some? then Assign(options, defaults.value) else options;
    if Truthy(Get(overlaid, GenerateStylesKey)) then overlaid
    else overlaid[GenerateStylesKey := Generator(PolygonStyles)]
  }

  /**
    Of the presets only Polyline has a default generator, and being a default
    it overwrites one the caller passes; the others keep the caller's generator
    and fall back to the polygon generator.
   */
  lemma PresetGenerator(options: Options)
    ensures EffectiveOptions(options, Some(PolylineDefaults))[GenerateStylesKey] == Generator(PolylineStyles)
    ensures EffectiveOptions(options, None)[GenerateStylesKey] ==
      if Truthy(Get(options, GenerateStylesKey)) then options[GenerateStylesKey] else Generator(PolygonStyles)
  {
  }

  /** The layer names of a generated record other than "main", in record order. */
  function AuxKeys(order: seq<string>): (r: seq<string>)
    ensures forall k :: k in r <==> k in order && k != MainKey
    ensures NoDuplicates(order) ==> NoDuplicates(r)
    decreases |order|
  {
    if order == [] then []
    else
      var init, last := order[..|order| - 1], order[|order| - 1];
      assert forall i :: 0 <= i < |init| ==> init[i] == order[i];
      var rest := AuxKeys(init);
      if last == MainKey then rest
      else
        NoDuplicatesSnoc(rest, last);
        rest + [last]
  }

  lemma AuxKeysStep(order: seq<string>, i: int)
    requires 0 <= i < |order|
    ensures AuxKeys(order[..i + 1]) == AuxKeys(order[..i]) + (if order[i] == MainKey then [] else [order[i]])
  {
    assert order[..i + 1][..i] == order[..i];
  }

  /**
    The auxiliary names keep the generated record's order: any two of them
    appear in the record in the order they have among the auxiliary names.
    With the set equality and the absence of duplicates above, this makes
    them the record's order with "main" taken out.
   */
  lemma {:induction false} AuxKeysKeepOrder(order: seq<string>, i: int, j: int)
    requires 0 <= i < j < |AuxKeys(order)|
    ensures exists p, q :: 0 <= p < q < |order| && order[p] == AuxKeys(order)[i] && order[q] == AuxKeys(order)[j]
    decreases |order|
  {
    var n := |order| - 1;
    var init, last := order[..n], order[n];
    var rest, r := AuxKeys(init), AuxKeys(order);
    assert forall k :: 0 <= k < n ==> init[k] == order[k];
    if last == MainKey || j < |rest| {
      assert r[i] == rest[i] && r[j] == rest[j];
      AuxKeysKeepOrder(init, i, j);
      var p, q :| 0 <= p < q < n && init[p] == rest[i] && init[q] == rest[j];
      assert order[p] == r[i] && order[q] == r[j];
    } else {
      assert r[i] == rest[i] && r[j] == last;
      assert rest[i] in init;
      var p :| 0 <= p < n && init[p] == rest[i];
      assert order[p] == r[i] && order[n] == r[j];
    }
  }

  /** The generator's output as the constructor reads it: `generateStyles(realOptions) ?? {}`. */
  function ConstructorStyles(run: Generate, eff: Options): StyleRecord
    requires Get(eff, GenerateStylesKey).Generator?
  {
    match run(Get(eff, GenerateStylesKey).name, eff)
    case None => StyleRecord([], map[])
    case Some(s) => s
  }

  /**
    The keys of the auxiliary dictionary built by the constructor: exactly the
    non-"main" keys of the generator's output, each once; none for a null result.
   */
  function InitialLayers(run: Generate, eff: Options): (r: seq<string>)
    requires Get(eff, GenerateStylesKey).Generator?
    ensures NoDuplicates(r) && MainKey !in r
    ensures forall k :: k in r <==> k in ConstructorStyles(run, eff).table && k != MainKey
    ensures run(Get(eff, GenerateStylesKey).name, eff).None? ==> r == []
  {
    var s := ConstructorStyles(run, eff);
    assert WellFormedRecord(s);
    assert forall k :: k in s.order <==> k in s.table by {
      forall k ensures k in s.order <==> k in s.table {
        assert k in s.order <==> k in (set j | j in s.order);
      }
    }
    AuxKeys(s.order)
  }

  /** `generateStyles?.(...)` does not fault: the property is absent, null, undefined or a generator. */
  predicate CanGenerate(o: Options) {
    var v := Get(o, GenerateStylesKey);
    Nullish(v) || v.Generator?
  }

  /** `{ main: { ...realOptions } }`, used when there is no generator or it yields nothing. */
  function Fallback(o: Options): Styles {
    var s := StyleRecord([MainKey], map[MainKey := o]);
    assert (set k | k in s.order) == {MainKey};
    s
  }

  /** The styles `setStyle` works with: `generateStyles?.(realOptions) ?? { main: { ...realOptions } }`. */
  function GeneratedStyles(run: Generate, o: Options): Styles
    requires CanGenerate(o)
  {
    var v := Get(o, GenerateStylesKey);
    if v.Generator? && run(v.name, o).Some? then run(v.name, o).value else Fallback(o)
  }

  /**
    `setStyle` runs to completion: the generated styles have a "main" entry
    (line 80 reads `styles.main.pane`) and one for every auxiliary (line 86
    reads `styles[layerName].pane`).
   */
  predicate StyleReady(run: Generate, o: Options, layers: seq<string>) {
    && CanGenerate(o)
    && MainKey in GeneratedStyles(run, o).table
    && forall k :: k in layers ==> k in GeneratedStyles(run, o).table
  }

  /**
    Without a generator, or when it yields null or undefined, the primary is
    styled with a copy of the whole record, and every auxiliary would fault.
   */
  lemma FallbackStyles(run: Generate, o: Options, layers: seq<string>)
    requires CanGenerate(o)
    requires !Get(o, GenerateStylesKey).Generator? || run(Get(o, GenerateStylesKey).name, o).None?
    ensures GeneratedStyles(run, o).table == map[MainKey := o]
    ensures StyleReady(run, o, layers) ==> forall k :: k !in layers || k == MainKey
  {
  }

  /** What `setStyle` does to one layer: its pane, only when the style names a truthy one, then its style. */
  function StyleActions(style: Options): seq<Action> {
    (if Truthy(Get(style, PaneKey)) then [SetPane(Get(style, PaneKey))] else []) + [ApplyStyle(style)]
  }

  /** One layer's part of `setStyle`'s trace: `StyleActions(style)`, all addressed to `x`. */
  function Styled(x: Target, style: Options): (t: seq<Event>)
    ensures forall e :: e in t ==> e.target == x
  {
    Addressed(x, StyleActions(style))
  }

  /** One layer's styling reaches that layer only, as a pane change (when there is one) and then the style. */
  lemma TargetingStyled(x: Target, style: Options, y: Target)
    ensures Targeting(Styled(x, style), y) == if x == y then StyleActions(style) else []
  {
    TargetingAddressed(x, StyleActions(style), y);
  }

  /** The auxiliaries' part of `setStyle`'s trace: each of `keys`, in order, styled from `table`. */
  function AuxiliaryStyles(table: map<string, Options>, keys: seq<string>): (t: seq<Event>)
    requires forall k :: k in keys ==> k in table
    ensures forall e :: e in t ==> e.target.Auxiliary? && e.target.name in keys
    decreases |keys|
  {
    if keys == [] then []
    else
      var last := keys[|keys| - 1];
      AuxiliaryStyles(table, keys[..|keys| - 1]) + Styled(Auxiliary(last), table[last])
  }

  lemma {:induction false} TargetingAuxiliaryStyles(table: map<string, Options>, keys: seq<string>, x: Target)
    requires forall k :: k in keys ==> k in table
    requires NoDuplicates(keys)
    ensures Targeting(AuxiliaryStyles(table, keys), x) ==
      if x.Auxiliary? && x.name in keys then StyleActions(table[x.name]) else []
    decreases |keys|
  {
    if keys != [] {
      var n := |keys| - 1;
      var init, last := keys[..n], keys[n];
      assert keys == init + [last];
      assert NoDuplicates(init) && last !in init by {
        assert forall i :: 0 <= i < n ==> init[i] == keys[i];
      }
      var before, step := AuxiliaryStyles(table, init), Styled(Auxiliary(last), table[last]);
      assert AuxiliaryStyles(table, keys) == before + step;
      TargetingAuxiliaryStyles(table, init, x);
      TargetingAppend(before, step, x);
      TargetingStyled(Auxiliary(last), table[last], x);
      if x == Auxiliary(last) {
        assert Targeting(before, x) == [];
      } else if x.Auxiliary? && x.name in init {
        assert Targeting(step, x) == [] && x.name in keys;
      } else {
        assert Targeting(before, x) == [] && Targeting(step, x) == [];
        assert !(x.Auxiliary? && x.name in keys);
      }
    }
  }

  lemma AuxiliaryStylesStep(table: map<string, Options>, keys: seq<string>, i: int)
    requires 0 <= i < |keys| && forall k :: k in keys ==> k in table
    ensures AuxiliaryStyles(table, keys[..i + 1]) ==
      AuxiliaryStyles(table, keys[..i]) + Styled(Auxiliary(keys[i]), table[keys[i]])
  {
    assert keys[..i + 1][..i] == keys[..i];
  }

  /** Everything one `setStyle` call does once `realOptions` is merged. */
  function StyleTrace(s: Styles, layers: seq<string>): seq<Event>
    requires MainKey in s.table && forall k :: k in layers ==> k in s.table
  {
    Styled(Primary, s.table[MainKey]) + AuxiliaryStyles(s.table, layers)
  }

  /**
    `setStyle` styles the primary before any auxiliary; the primary gets the
    "main" style, each auxiliary exactly its own generated style, each preceded
    by a pane change only when that style names a pane; a generated layer name
    with no auxiliary is never addressed.
   */
  lemma StyleTraceTargets(s: Styles, layers: seq<string>, x: Target)
    requires MainKey in s.table && forall k :: k in layers ==> k in s.table
    requires NoDuplicates(layers)
    ensures PrimaryFirst(StyleTrace(s, layers))
    ensures Targeting(StyleTrace(s, layers), x) ==
      if x == Primary then StyleActions(s.table[MainKey])
      else if x.name in layers then StyleActions(s.table[x.name])
      else []
  {
    var head, tail := Styled(Primary, s.table[MainKey]), AuxiliaryStyles(s.table, layers);
    TargetingAppend(head, tail, x);
    TargetingStyled(Primary, s.table[MainKey], x);
    TargetingAuxiliaryStyles(s.table, layers, x);
    var t := StyleTrace(s, layers);
    forall k | |head| <= k < |t|
      ensures t[k].target.Auxiliary?
    {
      assert t[k] == tail[k - |head|];
    }
    forall k | 0 <= k < |head|
      ensures t[k].target == Primary
    {
      assert t[k] == head[k];
    }
  }

  /** The constructor and `setStyle({})` run to completion on these options. */
  predicate CanConstruct(run: Generate, eff: Options) {
    Get(eff, GenerateStylesKey).Generator? && StyleReady(run, eff, InitialLayers(run, eff))
  }

  /** An instance of a class produced by the factory. */
  class HighlightableLayer {
    const cls: LayerClass
    const run: Generate
    const respond: Respond
    /** `Object.keys(this.layers)`: the auxiliary shapes are `Auxiliary(k)` for these `k`. */
    const layers: seq<string>
    /** `realOptions` as the constructor left it before its own `setStyle({})`. */
    ghost const initialOptions: Options
    var realOptions: Options
    /** Every patch passed to `setStyle`, oldest first. */
    ghost var patches: seq<Options>
    ghost var trace: seq<Event>

    ghost predicate Valid()
      reads this
    {
      && Get(initialOptions, GenerateStylesKey).Generator?
      && layers == InitialLayers(run, initialOptions)
      && realOptions == MergeAll(initialOptions, patches)
    }

    /**
      `new HighlightableLayer(...args)`, where `options` is `this.options` as
      the base constructor leaves it.
     */
    constructor (cls: LayerClass, run: Generate, respond: Respond, args: seq<Value>, options: Options)
      requires CanConstruct(run, EffectiveOptions(options, cls.defaults))
      ensures Valid()
      ensures this.cls == cls && this.run == run && this.respond == respond
      ensures realOptions == EffectiveOptions(options, cls.defaults)
      ensures layers == InitialLayers(run, realOptions)
      ensures patches == [map[]]
      ensures trace == EachAux(layers, Construct(args)) + StyleTrace(GeneratedStyles(run, realOptions), layers)
    {
      // clone(this.options), Object.assign(..., defaultOptions), then the polygon fallback
      var opts := EffectiveOptions(options, cls.defaults);
      var order := ConstructorStyles(run, opts).order;
      var names: seq<string> := [];
      ghost var created: seq<Event> := [];
      for i := 0 to |order|
        invariant names == AuxKeys(order[..i])
        invariant created == EachAux(names, Construct(args))
      {
        AuxKeysStep(order, i);
        if order[i] != MainKey {
          EachAuxSnoc(names, order[i], Construct(args));
          names := names + [order[i]];
          created := created + [Event(Auxiliary(order[i]), Construct(args))];
        }
      }
      assert order[..|order|] == order;
      this.cls, this.run, this.respond := cls, run, respond;
      layers := names;
      initialOptions := opts;
      realOptions := opts;
      patches := [];
      trace := created;
      new;
      assert Assign(opts, map[]) == opts;
      var self := SetStyle(map[]);
    }

    /**
      `setStyle(style)`: merge the patch into `realOptions`, generate styles from
      the whole record, style the primary with "main" and each auxiliary with its
      own entry; returns `this`.
     */
    method SetStyle(patch: Options) returns (self: HighlightableLayer)
      requires Valid()
      requires StyleReady(run, Assign(realOptions, patch), layers)
      modifies this
      ensures Valid() && self == this
      ensures realOptions == Assign(old(realOptions), patch)
      ensures patches == old(patches) + [patch]
      ensures trace == old(trace) + StyleTrace(GeneratedStyles(run, realOptions), layers)
    {
      realOptions := Assign(realOptions, patch);
      patches := patches + [patch];
      assert patches[..|patches| - 1] == old(patches);
      var styles := GeneratedStyles(run, realOptions);
      assert forall k :: k in layers ==> k in styles.table;
      var main := styles.table[MainKey];
      ghost var start := trace;
      StyleLayer(Primary, main);
      ghost var afterPrimary := trace;
      StyleAuxiliaries(styles.table);
      ghost var a, b := Styled(Primary, main), AuxiliaryStyles(styles.table, layers);
      assert afterPrimary + b == start + (a + b) by {
        assert afterPrimary == start + a;
        assert |afterPrimary + b| == |start + (a + b)|;
        forall k | 0 <= k < |start + (a + b)| ensures (afterPrimary + b)[k] == (start + (a + b))[k] {}
      }
      self := this;
    }

    /** Lines 80-83 and 86-89: `setLayerPane(x, style.pane)` when the pane is truthy, then `x.setStyle(style)`. */
    method StyleLayer(x: Target, style: Options)
      modifies this
      ensures realOptions == old(realOptions) && patches == old(patches)
      ensures trace == old(trace) + Styled(x, style)
    {
      if Truthy(Get(style, PaneKey)) {
        trace := trace + [Event(x, SetPane(Get(style, PaneKey)))];
      }
      trace := trace + [Event(x, ApplyStyle(style))];
    }

    /** Lines 85-90: each auxiliary, in key order, styled with its own entry of `table`. */
    method StyleAuxiliaries(table: map<string, Options>)
      requires forall k :: k in layers ==> k in table
      modifies this
      ensures realOptions == old(realOptions) && patches == old(patches)
      ensures trace == old(trace) + AuxiliaryStyles(table, layers)
    {
      for i := 0 to |layers|
        invariant realOptions == old(realOptions) && patches == old(patches)
        invariant trace == old(trace) + AuxiliaryStyles(table, layers[..i])
      {
        AuxiliaryStylesStep(table, layers, i);
        var name := layers[i];
        StyleLayer(Auxiliary(name), table[name]);
        assert trace == old(trace) + (AuxiliaryStyles(table, layers[..i]) + Styled(Auxiliary(name), table[name]));
      }
      assert layers[..|layers|] == layers;
    }

    /** `onAdd(map)`: the base `onAdd` on the primary, then `map.addLayer` for each auxiliary; returns `this`. */
    method OnAdd(surface: SurfaceId) returns (self: HighlightableLayer)
      requires Valid()
      modifies this
      ensures Valid() && self == this
      ensures realOptions == old(realOptions) && patches == old(patches)
      ensures trace == old(trace) + PrimaryThenAuxiliaries(BaseOnAdd(surface), layers, AddLayer(surface))
    {
      trace := trace + [Event(Primary, BaseOnAdd(surface))];
      for i := 0 to |layers|
        invariant realOptions == old(realOptions) && patches == old(patches)
        invariant trace == old(trace) + [Event(Primary, BaseOnAdd(surface))] + EachAux(layers[..i], AddLayer(surface))
      {
        assert layers[..i + 1][..i] == layers[..i];
        trace := trace + [Event(Auxiliary(layers[i]), AddLayer(surface))];
      }
      assert layers[..|layers|] == layers;
      self := this;
    }

    /** `onRemove(map)`: `map.removeLayer` for each auxiliary, then the base `onRemove` on the primary; returns `this`. */
    method OnRemove(surface: SurfaceId) returns (self: HighlightableLayer)
      requires Valid()
      modifies this
      ensures Valid() && self == this
      ensures realOptions == old(realOptions) && patches == old(patches)
      ensures trace == old(trace) + AuxiliariesThenPrimary(layers, RemoveLayer(surface), BaseOnRemove(surface))
    {
      for i := 0 to |layers|
        invariant realOptions == old(realOptions) && patches == old(patches)
        invariant trace == old(trace) + EachAux(layers[..i], RemoveLayer(surface))
      {
        assert layers[..i + 1][..i] == layers[..i];
        trace := trace + [Event(Auxiliary(layers[i]), RemoveLayer(surface))];
      }
      assert layers[..|layers|] == layers;
      trace := trace + [Event(Primary, BaseOnRemove(surface))];
      self := this;
    }

    /**
      The wrapper installed for `redraw` and each extra method name: the base
      method on the primary, then the same method with the same arguments on each
      auxiliary; the auxiliaries' results are dropped and the primary's returned.
     */
    method Invoke(name: string, args: seq<Value>) returns (r: Value)
      requires Valid()
      requires name in cls.fanOut
      modifies this
      ensures Valid()
      ensures realOptions == old(realOptions) && patches == old(patches)
      ensures r == respond(Primary, name, args)
      ensures trace == old(trace) + PrimaryThenAuxiliaries(Call(name, args), layers, Call(name, args))
    {
      r := respond(Primary, name, args);
      trace := trace + [Event(Primary, Call(name, args))];
      for i := 0 to |layers|
        invariant realOptions == old(realOptions) && patches == old(patches)
        invariant trace == old(trace) + [Event(Primary, Call(name, args))] + EachAux(layers[..i], Call(name, args))
      {
        assert layers[..i + 1][..i] == layers[..i];
        var ignored := respond(Auxiliary(layers[i]), name, args);
        trace := trace + [Event(Auxiliary(layers[i]), Call(name, args))];
      }
      assert layers[..|layers|] == layers;
    }
  }

  /**
    `setStyle({})` twice in a row: the options record stays as it was and both
    calls style every layer identically.
   */
  method RestyleTwice(layer: HighlightableLayer)
    requires layer.Valid()
    requires StyleReady(layer.run, layer.realOptions, layer.layers)
    modifies layer
    ensures layer.Valid() && layer.realOptions == old(layer.realOptions)
    ensures var once := StyleTrace(GeneratedStyles(layer.run, old(layer.realOptions)), layer.layers);
      layer.trace == old(layer.trace) + once + once
  {
    assert Assign(layer.realOptions, map[]) == layer.realOptions;
    var self := layer.SetStyle(map[]);
    self := layer.SetStyle(map[]);
  }
}
