/**
  What a highlightable layer does to the outside world, recorded as a trace of
  events. Each event is addressed to the primary shape (the instance itself)
  or to the auxiliary shape stored under a layer name.
 */
module Trace {
  import opened Values

  /** The display surface (a Leaflet map) a layer is added to or removed from. */
  type SurfaceId = nat

  datatype Target = Primary | Auxiliary(name: string)

  datatype Action =
    | Construct(args: seq<Value>)             // `new BaseClass(...args)`
    | BaseOnAdd(surface: SurfaceId)           // the base class's own `onAdd(map)`
    | AddLayer(surface: SurfaceId)            // `map.addLayer(layer)`
    | RemoveLayer(surface: SurfaceId)         // `map.removeLayer(layer)`
    | BaseOnRemove(surface: SurfaceId)        // the base class's own `onRemove(map)`
    | SetPane(pane: Value)                    // `setLayerPane(layer, pane)`
    | ApplyStyle(style: Options)              // the base class's own `setStyle(style)`
    | Call(name: string, args: seq<Value>)    // a fanned-out method such as `redraw`

  datatype Event = Event(target: Target, action: Action)

  /** The same action addressed to the auxiliary under each of `keys`, in key order. */
  function EachAux(keys: seq<string>, a: Action): (t: seq<Event>)
    ensures |t| == |keys|
    ensures forall i :: 0 <= i < |t| ==> t[i] == Event(Auxiliary(keys[i]), a)
    decreases |keys|
  {
    if keys == [] then []
    else EachAux(keys[..|keys| - 1], a) + [Event(Auxiliary(keys[|keys| - 1]), a)]
  }

  lemma EachAuxSnoc(keys: seq<string>, k: string, a: Action)
    ensures EachAux(keys + [k], a) == EachAux(keys, a) + [Event(Auxiliary(k), a)]
  {
    assert (keys + [k])[..|keys|] == keys;
  }

  /** The actions of trace `t` addressed to `x`, in the order they happen. */
  function Targeting(t: seq<Event>, x: Target): seq<Action>
    decreases |t|
  {
    if t == [] then []
    else Targeting(t[..|t| - 1], x) + (if t[|t| - 1].target == x then [t[|t| - 1].action] else [])
  }

  lemma {:induction false} TargetingAppend(s: seq<Event>, t: seq<Event>, x: Target)
    ensures Targeting(s + t, x) == Targeting(s, x) + Targeting(t, x)
    decreases |t|
  {
    if t == [] {
      assert s + t == s;
    } else {
      var n := |t| - 1;
      assert (s + t)[..|s + t| - 1] == s + t[..n];
      TargetingAppend(s, t[..n], x);
    }
  }

  /** Fanning one action out over distinct keys reaches each of them exactly once and nothing else. */
  lemma {:induction false} TargetingEachAux(keys: seq<string>, a: Action, x: Target)
    requires NoDuplicates(keys)
    ensures Targeting(EachAux(keys, a), x) == if x.Auxiliary? && x.name in keys then [a] else []
    decreases |keys|
  {
    if keys != [] {
      var n := |keys| - 1;
      var init, last := keys[..n], keys[n];
      var e := Event(Auxiliary(last), a);
      assert keys == init + [last];
      assert NoDuplicates(init) && last !in init by {
        assert forall i :: 0 <= i < n ==> init[i] == keys[i];
      }
      TargetingEachAux(init, a, x);
      assert EachAux(keys, a) == EachAux(init, a) + [e];
      TargetingAppend(EachAux(init, a), [e], x);
      TargetingSingle(e, x);
      if x.Auxiliary? && x.name == last {
        assert x.name !in init;
      }
    }
  }

  lemma TargetingSingle(e: Event, x: Target)
    ensures Targeting([e], x) == if e.target == x then [e.action] else []
  {
    assert [e][..0] == [];
  }

  /** Each of `acts`, in order, addressed to the one shape `x`. */
  function Addressed(x: Target, acts: seq<Action>): seq<Event> {
    seq(|acts|, i requires 0 <= i < |acts| => Event(x, acts[i]))
  }

  /** Addressing actions to one shape hands that shape exactly those actions, in order, and nothing to any other. */
  lemma {:induction false} TargetingAddressed(x: Target, acts: seq<Action>, y: Target)
    ensures Targeting(Addressed(x, acts), y) == if x == y then acts else []
    decreases |acts|
  {
    if acts != [] {
      var n := |acts| - 1;
      var t := Addressed(x, acts);
      assert t[..n] == Addressed(x, acts[..n]);
      TargetingAddressed(x, acts[..n], y);
      assert acts == acts[..n] + [acts[n]];
    }
  }

  /** No event addressed to an auxiliary comes before an event addressed to the primary. */
  ghost predicate PrimaryFirst(t: seq<Event>) {
    forall i, j :: 0 <= i < j < |t| && t[j].target == Primary ==> t[i].target == Primary
  }

  /** No event addressed to an auxiliary comes after an event addressed to the primary. */
  ghost predicate PrimaryLast(t: seq<Event>) {
    forall i, j :: 0 <= i < j < |t| && t[i].target == Primary ==> t[j].target == Primary
  }

  /** `a` on the primary, then `b` on every auxiliary in key order. */
  function PrimaryThenAuxiliaries(a: Action, keys: seq<string>, b: Action): seq<Event> {
    [Event(Primary, a)] + EachAux(keys, b)
  }

  /** `b` on every auxiliary in key order, then `a` on the primary. */
  function AuxiliariesThenPrimary(keys: seq<string>, b: Action, a: Action): seq<Event> {
    EachAux(keys, b) + [Event(Primary, a)]
  }

  /**
    Primary first, then each auxiliary exactly once with the same action; a name
    that is not a key is never addressed.
   */
  lemma PrimaryThenAuxiliariesOrder(a: Action, keys: seq<string>, b: Action, x: Target)
    requires NoDuplicates(keys)
    ensures PrimaryFirst(PrimaryThenAuxiliaries(a, keys, b))
    ensures Targeting(PrimaryThenAuxiliaries(a, keys, b), x) ==
      if x == Primary then [a] else if x.name in keys then [b] else []
  {
    var head := [Event(Primary, a)];
    TargetingAppend(head, EachAux(keys, b), x);
    TargetingEachAux(keys, b, x);
    assert head[..0] == [];
  }

  /**
    Each auxiliary exactly once with the same action, the primary last; a name
    that is not a key is never addressed.
   */
  lemma AuxiliariesThenPrimaryOrder(keys: seq<string>, b: Action, a: Action, x: Target)
    requires NoDuplicates(keys)
    ensures PrimaryLast(AuxiliariesThenPrimary(keys, b, a))
    ensures Targeting(AuxiliariesThenPrimary(keys, b, a), x) ==
      if x == Primary then [a] else if x.name in keys then [b] else []
  {
    var tail := [Event(Primary, a)];
    TargetingAppend(EachAux(keys, b), tail, x);
    TargetingEachAux(keys, b, x);
    assert tail[..0] == [];
  }
}
