/** `src/lib/utils/object.svelte.ts`: `keys`, `omit` and `pick` over plain
  * objects. An object is its list of own properties in `Object.keys`
  * order, each name appearing once; assigning a new name appends it,
  * assigning an existing one replaces its value in place. */
module Objects {
  import opened Wrappers
  import opened Text

  type Object<V> = seq<(string, V)>

  /** `keys(o)`: the property names in order. */
  function Keys<V>(o: Object<V>): (r: seq<string>)
    ensures |r| == |o| && forall i :: 0 <= i < |o| ==> r[i] == o[i].0
  {
    if o == [] then [] else [o[0].0] + Keys(o[1..])
  }

  predicate WellFormed<V>(o: Object<V>)
  {
    forall i, j :: 0 <= i < j < |o| ==> o[i].0 != o[j].0
  }

  /** `o[key]`, with `None` for `undefined`. */
  function Lookup<V>(o: Object<V>, key: string): (r: Option<V>)
    ensures r.None? <==> key !in Keys(o)
    ensures r.Some? ==> exists i :: 0 <= i < |o| && o[i] == (key, r.value)
  {
    if o == [] then None
    else if o[0].0 == key then Some(o[0].1)
    else Lookup(o[1..], key)
  }

  /** `o[key] = value` */
  function Assign<V>(o: Object<V>, key: string, value: V): (r: Object<V>)
    ensures key !in Keys(o) ==> r == o + [(key, value)]
    ensures key in Keys(o) ==> |r| == |o| && Keys(r) == Keys(o)
  {
    if o == [] then [(key, value)]
    else if o[0].0 == key then [(key, value)] + o[1..]
    else [o[0]] + Assign(o[1..], key, value)
  }

  // ----- omit -----

  /** The properties of `obj` whose names are not listed, in order. */
  function Omitted<V>(obj: Object<V>, names: seq<string>): Object<V>
  {
    if obj == [] then []
    else
      var last := obj[|obj| - 1];
      Omitted(obj[..|obj| - 1], names) + if last.0 in names then [] else [last]
  }

  /** `omit(obj, ...keys)`: copies every property whose name is not listed. */
  method Omit<V>(obj: Object<V>, names: seq<string>) returns (result: Object<V>)
    ensures result == Omitted(obj, names)
  {
    result := [];
    var i := 0;
    while i < |obj|
      invariant 0 <= i <= |obj|
      invariant result == Omitted(obj[..i], names)
    {
      var (key, value) := obj[i];
      assert obj[..i + 1][..i] == obj[..i];
      if key !in names {
        result := result + [(key, value)];
      }
      i := i + 1;
    }
    assert obj[..i] == obj;
  }

  /** `omit` keeps exactly the unlisted properties, with their values. */
  lemma {:induction false} OmittedMembers<V>(obj: Object<V>, names: seq<string>, p: (string, V))
    ensures p in Omitted(obj, names) <==> p in obj && p.0 !in names
    decreases |obj|
  {
    if obj != [] {
      var init := obj[..|obj| - 1];
      OmittedMembers(init, names, p);
      assert obj == init + [obj[|obj| - 1]];
    }
  }

  /** No listed name survives, and every other key keeps its value. */
  lemma OmitLookup<V>(obj: Object<V>, names: seq<string>, key: string)
    requires WellFormed(obj)
    ensures key in names ==> Lookup(Omitted(obj, names), key).None?
    ensures key !in names ==> Lookup(Omitted(obj, names), key) == Lookup(obj, key)
  {
    var r := Omitted(obj, names);
    var l := Lookup(r, key);
    if l.Some? {
      var i :| 0 <= i < |r| && r[i] == (key, l.value);
      OmittedMembers(obj, names, r[i]);
    }
    if key !in names {
      OmittedSubsequence(obj, names);
      LookupUnique(obj, key);
      var m := Lookup(obj, key);
      if m.Some? {
        var j :| 0 <= j < |obj| && obj[j] == (key, m.value);
        OmittedMembers(obj, names, obj[j]);
        var k :| 0 <= k < |r| && r[k] == obj[j];
        LookupFinds(r, k);
        assert Lookup(r, key) == m;
      }
    }
  }

  /** The kept properties keep their names apart. */
  lemma {:induction false} OmittedSubsequence<V>(obj: Object<V>, names: seq<string>)
    requires WellFormed(obj)
    ensures WellFormed(Omitted(obj, names))
    decreases |obj|
  {
    if obj != [] {
      var init := obj[..|obj| - 1];
      var last := obj[|obj| - 1];
      OmittedSubsequence(init, names);
      var front := Omitted(init, names);
      if last.0 !in names {
        forall i | 0 <= i < |front|
          ensures front[i].0 != last.0
        {
          OmittedMembers(init, names, front[i]);
          var j :| 0 <= j < |init| && init[j] == front[i];
        }
      }
    }
  }

  /** In a well-formed object a name's value is the one stored with it. */
  lemma LookupUnique<V>(o: Object<V>, key: string)
    requires WellFormed(o)
    ensures forall i :: 0 <= i < |o| && o[i].0 == key ==> Lookup(o, key) == Some(o[i].1)
  {
    forall i | 0 <= i < |o| && o[i].0 == key
      ensures Lookup(o, key) == Some(o[i].1)
    {
      LookupFinds(o, i);
    }
  }

  lemma {:induction false} LookupFinds<V>(o: Object<V>, i: nat)
    requires WellFormed(o) && i < |o|
    ensures Lookup(o, o[i].0) == Some(o[i].1)
    decreases |o|
  {
    if i > 0 {
      assert o[1..][i - 1] == o[i];
      LookupFinds(o[1..], i - 1);
    }
  }

  /** Omitting nothing copies the object. */
  lemma {:induction false} OmitNothing<V>(obj: Object<V>)
    ensures Omitted(obj, []) == obj
    decreases |obj|
  {
    if obj != [] {
      OmitNothing(obj[..|obj| - 1]);
    }
  }

  // ----- pick -----

  /** The object `pick` builds: each listed name in turn, assigned the
    * value `obj` has for it, `undefined` (`None`) when it has none. */
  function Picked<V>(obj: Object<V>, names: seq<string>): Object<Option<V>>
  {
    if names == [] then []
    else
      var key := names[|names| - 1];
      Assign(Picked(obj, names[..|names| - 1]), key, Lookup(obj, key))
  }

  /** `pick(obj, ...keys)` */
  method Pick<V>(obj: Object<V>, names: seq<string>) returns (result: Object<Option<V>>)
    ensures result == Picked(obj, names)
  {
    result := [];
    var i := 0;
    while i < |names|
      invariant 0 <= i <= |names|
      invariant result == Picked(obj, names[..i])
    {
      var key := names[i];
      assert names[..i + 1][..i] == names[..i];
      result := Assign(result, key, Lookup(obj, key));
      i := i + 1;
    }
    assert names[..i] == names;
  }

  /** The picked object has exactly the listed names (a name is among
    * `Keys` exactly when `Lookup` finds it), each holding the value `obj`
    * has for it or `undefined`. */
  lemma {:induction false} PickedKeys<V>(obj: Object<V>, names: seq<string>, key: string)
    ensures Lookup(Picked(obj, names), key) == if key in names then Some(Lookup(obj, key)) else None
    decreases |names|
  {
    if names != [] {
      var init := names[..|names| - 1];
      var last := names[|names| - 1];
      var before := Picked(obj, init);
      assert Picked(obj, names) == Assign(before, last, Lookup(obj, last));
      PickedKeys(obj, init, key);
      AssignLookup(before, last, Lookup(obj, last), key);
      InSnoc(names, key);
    }
  }

  /** Reading back after an assignment. */
  lemma {:induction false} AssignLookup<V>(o: Object<V>, k: string, v: V, key: string)
    ensures Lookup(Assign(o, k, v), key) == if key == k then Some(v) else Lookup(o, key)
    decreases |o|
  {
    if o != [] && o[0].0 != k {
      AssignLookup(o[1..], k, v, key);
    }
  }
}
