/**
  JavaScript values as far as the highlightable-layer factory can tell them
  apart, option records, and `Object.assign` on them.
 */
module Values {

  datatype Option<T> = None | Some(value: T)

  /** The style generators a record can name. Their bodies live outside this model. */
  datatype GeneratorName = PolygonStyles | PolylineStyles | Custom(id: nat)

  /**
    A value stored in an options record. Numbers are integers here; geometry
    and other objects the factory only passes along are `Opaque`.
   */
  datatype Value =
    | Undefined
    | Null
    | Bool(b: bool)
    | Num(n: int)
    | Str(s: string)
    | Generator(name: GeneratorName)
    | Opaque(id: nat)

  /** An options record (`PathOptions` plus the highlight fields), keyed by property name. */
  type Options = map<string, Value>

  /** `v == null || v === undefined`, the test behind `?.` and `??`. */
  predicate Nullish(v: Value) {
    v.Undefined? || v.Null?
  }

  /** JavaScript truthiness, as used by `if (x)` and `!x`. */
  predicate Truthy(v: Value) {
    match v
    case Undefined => false
    case Null => false
    case Bool(b) => b
    case Num(n) => n != 0
    case Str(s) => s != ""
    case Generator(_) => true
    case Opaque(_) => true
  }

  /** Property read `o[k]`: an absent property reads as `undefined`. */
  function Get(o: Options, k: string): Value {
    if k in o then o[k] else Undefined
  }

  predicate NoDuplicates<T(==)>(s: seq<T>) {
    forall i, j :: 0 <= i < j < |s| ==> s[i] != s[j]
  }

  lemma NoDuplicatesSnoc<T>(s: seq<T>, x: T)
    ensures NoDuplicates(s) && x !in s ==> NoDuplicates(s + [x])
  {
    if NoDuplicates(s) && x !in s {
      var t := s + [x];
      forall i, j | 0 <= i < j < |t|
        ensures t[i] != t[j]
      {
        if j == |s| {
          assert t[i] == s[i];
        }
      }
    }
  }

  /**
    `Object.assign(target, source)`: every own property of `source` is copied
    onto `target`, overwriting a property of the same name; the others stay.
   */
  function Assign(target: Options, source: Options): (r: Options)
    ensures r.Keys == target.Keys + source.Keys
    ensures forall k :: k in source ==> r[k] == source[k]
    ensures forall k :: k in target && k !in source ==> r[k] == target[k]
  {
    target + source
  }

  /** The record reached from `base` by assigning `patches` onto it one after another. */
  function MergeAll(base: Options, patches: seq<Options>): Options
    decreases |patches|
  {
    if patches == [] then base
    else Assign(MergeAll(base, patches[..|patches| - 1]), patches[|patches| - 1])
  }

  /** Some patch of the sequence has property `k`. */
  ghost predicate Writes(patches: seq<Options>, k: string) {
    exists i :: 0 <= i < |patches| && k in patches[i]
  }

  /** Patch `j` has property `k` and no later patch has it. */
  ghost predicate LastWriter(patches: seq<Options>, j: int, k: string) {
    0 <= j < |patches| && k in patches[j] && forall i :: j < i < |patches| ==> k !in patches[i]
  }

  /**
    After any sequence of shallow merges, a property is present exactly when the
    base or some patch has it; its value comes from the LAST patch that has it,
    and from the base when no patch does.
   */
  lemma {:induction false} MergeAllLastWrite(base: Options, patches: seq<Options>, k: string)
    ensures (k in MergeAll(base, patches)) <==> (k in base || Writes(patches, k))
    ensures forall j :: LastWriter(patches, j, k) ==>
      k in MergeAll(base, patches) && MergeAll(base, patches)[k] == patches[j][k]
    ensures !Writes(patches, k) ==> Get(MergeAll(base, patches), k) == Get(base, k)
    decreases |patches|
  {
    if patches != [] {
      var n := |patches| - 1;
      var init, last := patches[..n], patches[n];
      MergeAllLastWrite(base, init, k);
      var prev := MergeAll(base, init);
      assert MergeAll(base, patches) == Assign(prev, last);
      assert Writes(patches, k) <==> Writes(init, k) || k in last by {
        if Writes(init, k) {
          var i :| 0 <= i < n && k in init[i];
          assert k in patches[i];
        }
        if Writes(patches, k) && k !in last {
          var i :| 0 <= i < |patches| && k in patches[i];
          assert i < n && k in init[i];
        }
      }
      forall j | LastWriter(patches, j, k)
        ensures k in MergeAll(base, patches) && MergeAll(base, patches)[k] == patches[j][k]
      {
        if j < n {
          assert k !in last;
          assert LastWriter(init, j, k);
        }
      }
    }
  }
}
