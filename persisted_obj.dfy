/** `src/lib/spells/persisted-obj.svelte.ts`: an object kept in browser
  * storage under one key, with the default `JSON.stringify`/`JSON.parse`
  * serializer. Reads go through the proxy over `root`, the value chosen
  * at creation; every proxied write bumps `version` and writes the whole
  * of `root` back. Storage events from other tabs replace `current` and
  * bump `version`. The storage area is reduced to the text under the
  * key; a write that throws is given as `writable` false. Reactivity and
  * the per-object proxy cache are left out. */
module PersistedObj {
  import opened Wrappers
  import opened Json

  datatype StorageType = Local | SessionArea

  /** `deserialize(value)`: the parsed value, or none when parsing throws. */
  function Deserialize(value: string): Option<Json>
  {
    Parse(value)
  }

  /** The value a stored text replaces the current one with, if any: a
    * parse that succeeds with a truthy value. */
  function Replacement(value: string): Option<Json>
  {
    var d := Deserialize(value);
    if d.Some? && Truthy(d.value) then d else None
  }

  /** `target[property] = value` on an object's members: the member is
    * replaced where it stands, or appended. */
  function SetMember(members: seq<Member>, key: string, value: Json): (r: seq<Member>)
    ensures Lookup(r, key) == Some(value)
    ensures forall other :: other != key ==> Lookup(r, other) == Lookup(members, other)
  {
    if exists i :: 0 <= i < |members| && members[i].key == key then
      var i :| 0 <= i < |members| && members[i].key == key;
      ReplacedFound(members, key, value, i);
      assert forall other :: other != key ==> Lookup(Replaced(members, key, value), other) == Lookup(members, other) by {
        forall other | other != key
          ensures Lookup(Replaced(members, key, value), other) == Lookup(members, other)
        {
          ReplacedOther(members, key, value, other);
        }
      }
      Replaced(members, key, value)
    else
      var r := members + [Member(key, value)];
      assert r[..|r| - 1] == members;
      r
  }

  /** Every member named `key` given `value`. */
  function Replaced(members: seq<Member>, key: string, value: Json): (r: seq<Member>)
    ensures |r| == |members|
    ensures forall i :: 0 <= i < |r| ==> r[i] == if members[i].key == key then Member(key, value) else members[i]
  {
    if members == [] then []
    else [if members[0].key == key then Member(key, value) else members[0]] + Replaced(members[1..], key, value)
  }

  lemma {:induction false} ReplacedFound(members: seq<Member>, key: string, value: Json, i: nat)
    requires i < |members| && members[i].key == key
    ensures Lookup(Replaced(members, key, value), key) == Some(value)
    decreases |members|
  {
    var n := |members| - 1;
    var r := Replaced(members, key, value);
    if members[n].key != key {
      assert r[..n] == Replaced(members[..n], key, value);
      ReplacedFound(members[..n], key, value, i);
    }
  }

  lemma {:induction false} ReplacedOther(members: seq<Member>, key: string, value: Json, other: string)
    requires other != key
    ensures Lookup(Replaced(members, key, value), other) == Lookup(members, other)
    decreases |members|
  {
    if members != [] {
      var init := members[..|members| - 1];
      var r := Replaced(members, key, value);
      assert r[..|r| - 1] == Replaced(init, key, value);
      ReplacedOther(init, key, value, other);
    }
  }

  /** The value read through the proxy along a path of property names. */
  function GetAt(root: Json, path: seq<string>): Option<Json>
  {
    if path == [] then Some(root)
    else
      var child := Get(root, path[0]);
      if child.None? then None else GetAt(child.value, path[1..])
  }

  /** `proxy.p1.….pn[property] = value`: `None` when a step of the path
    * is not an object, where the write throws and nothing changes. */
  function SetAt(root: Json, path: seq<string>, property: string, value: Json): Option<Json>
  {
    if !root.JObj? then None
    else if path == [] then Some(JObj(SetMember(root.members, property, value)))
    else
      var child := Lookup(root.members, path[0]);
      if child.None? then None
      else
        var updated := SetAt(child.value, path[1..], property, value);
        if updated.None? then None else Some(JObj(SetMember(root.members, path[0], updated.value)))
  }

  /** Reading along a path that starts with `key`. */
  lemma GetAtCons(j: Json, key: string, rest: seq<string>)
    ensures GetAt(j, [key] + rest) == if Get(j, key).None? then None else GetAt(Get(j, key).value, rest)
  {
    var p := [key] + rest;
    assert p != [] && p[0] == key && p[1..] == rest;
  }

  lemma HeadAndRest(path: seq<string>, last: string)
    requires path != []
    ensures path + [last] == [path[0]] + (path[1..] + [last])
  {
  }

  /** A write is read back at once. */
  lemma {:induction false} SetThenGet(root: Json, path: seq<string>, property: string, value: Json)
    requires SetAt(root, path, property, value).Some?
    ensures GetAt(SetAt(root, path, property, value).value, path + [property]) == Some(value)
    decreases |path|
  {
    if path == [] {
      var ms := SetMember(root.members, property, value);
      assert SetAt(root, path, property, value) == Some(JObj(ms));
      assert path + [property] == [property] + [];
      GetAtCons(JObj(ms), property, []);
      assert Get(JObj(ms), property) == Some(value);
    } else {
      var child := Lookup(root.members, path[0]).value;
      var updated := SetAt(child, path[1..], property, value).value;
      var ms := SetMember(root.members, path[0], updated);
      assert SetAt(root, path, property, value) == Some(JObj(ms));
      SetThenGet(child, path[1..], property, value);
      HeadAndRest(path, property);
      GetAtCons(JObj(ms), path[0], path[1..] + [property]);
      assert Get(JObj(ms), path[0]) == Some(updated);
    }
  }

  /** The other properties of the object written to keep their values. */
  lemma {:induction false} SetKeepsOthers(root: Json, path: seq<string>, property: string, value: Json, other: string)
    requires SetAt(root, path, property, value).Some? && other != property
    ensures GetAt(SetAt(root, path, property, value).value, path + [other]) == GetAt(root, path + [other])
    decreases |path|
  {
    if path == [] {
      var ms := SetMember(root.members, property, value);
      assert SetAt(root, path, property, value) == Some(JObj(ms));
      assert path + [other] == [other] + [];
      GetAtCons(JObj(ms), other, []);
      GetAtCons(root, other, []);
      assert Get(JObj(ms), other) == Get(root, other);
    } else {
      var child := Lookup(root.members, path[0]).value;
      var updated := SetAt(child, path[1..], property, value).value;
      var ms := SetMember(root.members, path[0], updated);
      assert SetAt(root, path, property, value) == Some(JObj(ms));
      SetKeepsOthers(child, path[1..], property, value, other);
      HeadAndRest(path, other);
      GetAtCons(JObj(ms), path[0], path[1..] + [other]);
      GetAtCons(root, path[0], path[1..] + [other]);
      assert Get(JObj(ms), path[0]) == Some(updated);
      assert Get(root, path[0]) == Some(child);
    }
  }

  /** The persisted object's state. `stored` is the text under `key` in the
    * chosen storage, `None` when there is none. */
  class PersistedObj {
    const key: string
    const hasWindow: bool
    const syncTabs: bool
    const storageType: StorageType
    var current: Json
    var root: Json
    var version: int
    var stored: Option<string>

    /** Whether storage events reach `handleStorageEvent`. */
    predicate Subscribed()
      reads this
    {
      hasWindow && syncTabs && storageType == Local
    }

    /** `createPersistedObj(key, initialValue, options)`: a stored value that
      * deserialises to something truthy replaces the initial value; with
      * nothing stored the initial value is written. The proxy then wraps
      * that value for good. */
    constructor(key: string, initialValue: Json, storageType: StorageType, syncTabs: bool, hasWindow: bool,
                stored: Option<string>, writable: bool)
      ensures this.key == key && this.storageType == storageType && this.syncTabs == syncTabs && this.hasWindow == hasWindow
      ensures version == 0
      ensures current == (if hasWindow && stored.Some? && Replacement(stored.value).Some?
        then Replacement(stored.value).value else initialValue)
      ensures root == current
      ensures this.stored == (if hasWindow && stored.None? && writable then Some(Serialize(initialValue)) else stored)
    {
      this.key := key;
      this.storageType := storageType;
      this.syncTabs := syncTabs;
      this.hasWindow := hasWindow;
      current := initialValue;
      version := 0;
      this.stored := stored;
      new;
      if hasWindow {
        if stored.Some? {
          var deserialized := Deserialize(stored.value);
          if deserialized.Some? && Truthy(deserialized.value) {
            current := deserialized.value;
          }
        } else if writable {
          this.stored := Some(Serialize(initialValue));
        }
      }
      root := current;
    }

    /** A `storage` event from another tab. It reaches the object only when
      * subscribed; one for another key or a removal is ignored; otherwise
      * a truthy parsed value replaces `current` and `version` is bumped
      * either way. What the proxy reads is never affected. */
    method HandleStorageEvent(eventKey: string, newValue: Option<string>)
      modifies this
      ensures root == old(root) && stored == old(stored)
      ensures !Subscribed() || eventKey != key || newValue.None? ==> current == old(current) && version == old(version)
      ensures Subscribed() && eventKey == key && newValue.Some? ==>
        version == old(version) + 1
        && current == (if Replacement(newValue.value).Some? then Replacement(newValue.value).value else old(current))
    {
      if !Subscribed() || eventKey != key || newValue.None? {
        return;
      }
      var deserialized := Deserialize(newValue.value);
      if deserialized.Some? && Truthy(deserialized.value) {
        current := deserialized.value;
      }
      version := version + 1;
    }

    /** The proxy's `get` along a path: it reads `root`. */
    function Read(path: seq<string>): Option<Json>
      reads this
    {
      GetAt(root, path)
    }

    /** The proxy's `set` on the object reached by `path`: `version` is
      * bumped, the property set and the whole of `root` written back (a
      * write that throws, `writable` false, is ignored). `ok` is false when
      * the path does not lead to an object, and nothing changes. */
    method Write(path: seq<string>, property: string, value: Json, writable: bool) returns (ok: bool)
      modifies this
      ensures current == old(current)
      ensures ok <==> SetAt(old(root), path, property, value).Some?
      ensures !ok ==> root == old(root) && version == old(version) && stored == old(stored)
      ensures ok ==> root == SetAt(old(root), path, property, value).value && version == old(version) + 1
      ensures ok ==> stored == if hasWindow && writable then Some(Serialize(root)) else old(stored)
    {
      var updated := SetAt(root, path, property, value);
      if updated.None? {
        return false;
      }
      version := version + 1;
      root := updated.value;
      if hasWindow && writable {
        stored := Some(Serialize(root));
      }
      return true;
    }
  }

  /** A truthy value written through the proxy is what a fresh object
    * created over the same storage starts from. */
  lemma WrittenIsReloaded(root: Json)
    requires Truthy(root)
    ensures Replacement(Serialize(root)) == Some(root)
  {
    ParseSerialize(root);
  }
}
