/** `src/lib/state/models.svelte.ts`: the remote models with their five
  * trending ones, and the custom models kept in local storage. Local
  * storage holds the last list written; its JSON text and the schema check
  * of a stored list are given as values. `edit` and `randomPick`
  * (`src/lib/utils/array.ts`, which is not part of this model) are taken to
  * replace one index of a copy and to pick some element. */
module ModelsState {
  import opened Wrappers

  /** The parts of a hub model the state reads. */
  datatype RemoteModel = RemoteModel(id: string, trendingScore: int)

  /** A custom, OpenAI-compatible model: its `_id` (a uuid), its `id` and
    * its endpoint. */
  datatype CustomModel = CustomModel(uid: string, id: string, endpointUrl: string)

  /** The model a conversation uses; `NoModel` is what `randomPick` gives
    * for an empty list. */
  datatype ModelRef = Remote(remote: RemoteModel) | Custom(custom: CustomModel) | NoModel

  /** Any of the models `all` lists. */
  datatype AnyModel = FromHub(hub: RemoteModel) | FromUser(user: CustomModel)

  const TrendingCount: nat := 5

  // ----- trending -----

  predicate SortedByScore(s: seq<RemoteModel>)
  {
    forall i, j :: 0 <= i < j < |s| ==> s[i].trendingScore >= s[j].trendingScore
  }

  /** `m` placed after the models that score at least as high. */
  function InsertByScore(m: RemoteModel, s: seq<RemoteModel>): (r: seq<RemoteModel>)
    ensures multiset(r) == multiset(s) + multiset{m}
  {
    if s == [] then [m]
    else if s[0].trendingScore >= m.trendingScore then
      assert s == [s[0]] + s[1..];
      [s[0]] + InsertByScore(m, s[1..])
    else [m] + s
  }

  /** Inserting into a sorted list keeps it sorted. */
  lemma {:induction false} InsertSorted(m: RemoteModel, s: seq<RemoteModel>)
    requires SortedByScore(s)
    ensures SortedByScore(InsertByScore(m, s))
  {
    if s != [] && s[0].trendingScore >= m.trendingScore {
      var rest := InsertByScore(m, s[1..]);
      assert InsertByScore(m, s) == [s[0]] + rest;
      InsertSorted(m, s[1..]);
      InsertBounded(m, s[1..], s[0].trendingScore);
      SortedCons(s[0], rest);
    } else {
      assert InsertByScore(m, s) == [m] + s;
      assert forall k :: 0 <= k < |s| ==> s[k].trendingScore <= s[0].trendingScore;
      SortedCons(m, s);
    }
  }

  lemma SortedCons(x: RemoteModel, rest: seq<RemoteModel>)
    requires SortedByScore(rest)
    requires forall k :: 0 <= k < |rest| ==> rest[k].trendingScore <= x.trendingScore
    ensures SortedByScore([x] + rest)
  {
    var r := [x] + rest;
    forall i, j | 0 <= i < j < |r|
      ensures r[i].trendingScore >= r[j].trendingScore
    {
      assert r[j] == rest[j - 1];
      if i > 0 {
        assert r[i] == rest[i - 1];
      }
    }
  }

  /** No score above a bound appears by insertion. */
  lemma {:induction false} InsertBounded(m: RemoteModel, s: seq<RemoteModel>, bound: int)
    requires m.trendingScore <= bound
    requires forall k :: 0 <= k < |s| ==> s[k].trendingScore <= bound
    ensures forall k :: 0 <= k < |InsertByScore(m, s)| ==> InsertByScore(m, s)[k].trendingScore <= bound
  {
    if s != [] && s[0].trendingScore >= m.trendingScore {
      InsertBounded(m, s[1..], bound);
      assert InsertByScore(m, s) == [s[0]] + InsertByScore(m, s[1..]);
    }
  }

  /** `toSorted((a, b) => b.trendingScore - a.trendingScore)`: a stable sort,
    * highest score first. */
  function SortByScore(s: seq<RemoteModel>): (r: seq<RemoteModel>)
    ensures SortedByScore(r)
    ensures multiset(r) == multiset(s)
  {
    if s == [] then []
    else
      assert s == AllButLastOf(s) + [s[|s| - 1]];
      var sorted := SortByScore(AllButLastOf(s));
      InsertSorted(s[|s| - 1], sorted);
      InsertByScore(s[|s| - 1], sorted)
  }

  function AllButLastOf(s: seq<RemoteModel>): seq<RemoteModel>
    requires s != []
  {
    s[..|s| - 1]
  }

  /** The models with score `v`, in the order of `s`. */
  function WithScore(s: seq<RemoteModel>, v: int): seq<RemoteModel>
  {
    if s == [] then [] else Keep(s[0], v) + WithScore(s[1..], v)
  }

  function Keep(m: RemoteModel, v: int): seq<RemoteModel>
  {
    if m.trendingScore == v then [m] else []
  }

  lemma WithScoreCons(x: RemoteModel, s: seq<RemoteModel>, v: int)
    ensures WithScore([x] + s, v) == Keep(x, v) + WithScore(s, v)
  {
    assert ([x] + s)[1..] == s;
  }

  lemma {:induction false} WithScoreAppend(a: seq<RemoteModel>, b: seq<RemoteModel>, v: int)
    ensures WithScore(a + b, v) == WithScore(a, v) + WithScore(b, v)
  {
    if a == [] {
      assert a + b == b;
    } else {
      var h, rest := Keep(a[0], v), a[1..];
      assert a + b == [a[0]] + (rest + b);
      assert a == [a[0]] + rest;
      WithScoreCons(a[0], rest + b, v);
      WithScoreCons(a[0], rest, v);
      WithScoreAppend(rest, b, v);
      Regroup(h, WithScore(rest, v), WithScore(b, v));
    }
  }

  lemma {:induction false} WithScoreNone(s: seq<RemoteModel>, v: int)
    requires forall k :: 0 <= k < |s| ==> s[k].trendingScore < v
    ensures WithScore(s, v) == []
  {
    if s != [] {
      WithScoreNone(s[1..], v);
    }
  }

  /** Insertion puts `m` after every model of its score already in `s`. */
  lemma {:induction false} InsertStable(m: RemoteModel, s: seq<RemoteModel>, v: int)
    requires SortedByScore(s)
    ensures WithScore(InsertByScore(m, s), v) == WithScore(s, v) + Keep(m, v)
  {
    if s == [] {
      assert InsertByScore(m, s) == [m] + s;
      WithScoreCons(m, s, v);
    } else if s[0].trendingScore >= m.trendingScore {
      var tail := s[1..];
      InsertStable(m, tail, v);
      InsertStableBehind(m, s, v);
    } else {
      InsertStableAhead(m, s, v);
    }
  }

  lemma InsertStableBehind(m: RemoteModel, s: seq<RemoteModel>, v: int)
    requires s != [] && s[0].trendingScore >= m.trendingScore
    requires WithScore(InsertByScore(m, s[1..]), v) == WithScore(s[1..], v) + Keep(m, v)
    ensures WithScore(InsertByScore(m, s), v) == WithScore(s, v) + Keep(m, v)
  {
    var tail, h := s[1..], Keep(s[0], v);
    var r := InsertByScore(m, s);
    assert r == [s[0]] + InsertByScore(m, tail);
    assert r[0] == s[0] && r[1..] == InsertByScore(m, tail);
    assert WithScore(r, v) == h + WithScore(r[1..], v);
    Regroup(h, WithScore(tail, v), Keep(m, v));
  }

  lemma Regroup(a: seq<RemoteModel>, b: seq<RemoteModel>, c: seq<RemoteModel>)
    ensures a + (b + c) == (a + b) + c
  {
  }

  lemma InsertStableAhead(m: RemoteModel, s: seq<RemoteModel>, v: int)
    requires SortedByScore(s) && s != [] && s[0].trendingScore < m.trendingScore
    ensures WithScore(InsertByScore(m, s), v) == WithScore(s, v) + Keep(m, v)
  {
    assert InsertByScore(m, s) == [m] + s;
    WithScoreCons(m, s, v);
    if m.trendingScore == v {
      BelowHead(s);
      WithScoreNone(s, v);
    }
  }

  lemma BelowHead(s: seq<RemoteModel>)
    requires SortedByScore(s) && s != []
    ensures forall k :: 0 <= k < |s| ==> s[k].trendingScore <= s[0].trendingScore
  {
  }

  /** `toSorted` is stable: models of equal score keep their order. */
  lemma {:induction false} SortByScoreStable(s: seq<RemoteModel>, v: int)
    ensures WithScore(SortByScore(s), v) == WithScore(s, v)
  {
    if s != [] {
      var init, last := AllButLastOf(s), s[|s| - 1];
      assert s == init + [last];
      assert [last][1..] == [];
      WithScoreAppend(init, [last], v);
      SortByScoreStable(init, v);
      InsertStable(last, SortByScore(init), v);
    }
  }

  /** `trending`: the first five of the sorted list. */
  function Trending(remote: seq<RemoteModel>): seq<RemoteModel>
  {
    var sorted := SortByScore(remote);
    if |sorted| <= TrendingCount then sorted else sorted[..TrendingCount]
  }

  /** `nonTrending`: the remote models that are not trending, in order. */
  function NonTrending(remote: seq<RemoteModel>): seq<RemoteModel>
  {
    Without(remote, Trending(remote))
  }

  function Without(s: seq<RemoteModel>, excluded: seq<RemoteModel>): (r: seq<RemoteModel>)
    ensures forall m :: m in r <==> m in s && m !in excluded
  {
    if s == [] then []
    else (if s[0] in excluded then [] else [s[0]]) + Without(s[1..], excluded)
  }

  /** `all`: the remote models followed by the custom ones. */
  function All(remote: seq<RemoteModel>, custom: seq<CustomModel>): (r: seq<AnyModel>)
    ensures |r| == |remote| + |custom|
    ensures forall k :: 0 <= k < |remote| ==> r[k] == FromHub(remote[k])
    ensures forall k :: 0 <= k < |custom| ==> r[|remote| + k] == FromUser(custom[k])
  {
    Hubs(remote) + Users(custom)
  }

  function Hubs(s: seq<RemoteModel>): (r: seq<AnyModel>)
    ensures |r| == |s| && forall k :: 0 <= k < |s| ==> r[k] == FromHub(s[k])
  {
    if s == [] then [] else [FromHub(s[0])] + Hubs(s[1..])
  }

  function Users(s: seq<CustomModel>): (r: seq<AnyModel>)
    ensures |r| == |s| && forall k :: 0 <= k < |s| ==> r[k] == FromUser(s[k])
  {
    if s == [] then [] else [FromUser(s[0])] + Users(s[1..])
  }

  /** Trending holds the five best-scored remote models (all of them when
    * there are fewer), best first. */
  lemma TrendingIsTop(remote: seq<RemoteModel>)
    ensures var t := Trending(remote);
      |t| == (if |remote| <= TrendingCount then |remote| else TrendingCount) && SortedByScore(t)
    ensures multiset(Trending(remote)) <= multiset(remote)
  {
    var sorted := SortByScore(remote);
    assert |sorted| == |remote| by {
      assert |multiset(sorted)| == |multiset(remote)|;
    }
    if |sorted| > TrendingCount {
      var t := Trending(remote);
      assert sorted == t + sorted[TrendingCount..];
      assert multiset(sorted) == multiset(t) + multiset(sorted[TrendingCount..]);
    }
  }

  /** Every remote model that is not trending scores no higher than any
    * trending one. */
  lemma TrendingBeatsRest(remote: seq<RemoteModel>, m: RemoteModel, x: RemoteModel)
    requires m in NonTrending(remote) && x in Trending(remote)
    ensures m.trendingScore <= x.trendingScore
  {
    var sorted := SortByScore(remote);
    var t := Trending(remote);
    assert m in multiset(sorted) by {
      assert m in multiset(remote);
    }
    var j :| 0 <= j < |sorted| && sorted[j] == m;
    var i :| 0 <= i < |t| && t[i] == x;
    assert sorted[i] == x;
    assert j >= TrendingCount;
  }

  /** Trending and non-trending models together are the remote ones. */
  lemma TrendingSplit(remote: seq<RemoteModel>, m: RemoteModel)
    requires m in remote
    ensures m in Trending(remote) <==> m !in NonTrending(remote)
  {
  }

  // ----- custom models -----

  /** The index of the first model with that `_id`, or -1. */
  function FindIndexByUid(s: seq<CustomModel>, uid: string): (r: int)
    ensures -1 <= r < |s|
    ensures r >= 0 ==> s[r].uid == uid && forall k :: 0 <= k < r ==> s[k].uid != uid
    ensures r == -1 <==> forall k :: 0 <= k < |s| ==> s[k].uid != uid
  {
    if s == [] then -1
    else if s[0].uid == uid then 0
    else
      var r := FindIndexByUid(s[1..], uid);
      if r == -1 then -1 else r + 1
  }

  predicate HasId(s: seq<CustomModel>, id: string)
  {
    exists k :: 0 <= k < |s| && s[k].id == id
  }

  /** The models whose `_id` differs, in order. */
  function WithoutUid(s: seq<CustomModel>, uid: string): (r: seq<CustomModel>)
    ensures forall m :: m in r <==> m in s && m.uid != uid
    ensures |r| <= |s|
  {
    if s == [] then []
    else (if s[0].uid == uid then [] else [s[0]]) + WithoutUid(s[1..], uid)
  }

  /** No two custom models share an `id`. */
  predicate UniqueIds(s: seq<CustomModel>)
  {
    forall i, j :: 0 <= i < j < |s| ==> s[i].id != s[j].id
  }

  /** The conversations after `removeCustom(uid)`: each one whose model has
    * that `_id` gets `picks[i]`'s trending model (none when there is no
    * trending model); the others are unchanged. */
  function Reassigned(conversations: seq<ModelRef>, uid: string, trending: seq<RemoteModel>, picks: seq<nat>): (r: seq<ModelRef>)
    requires |picks| == |conversations|
    ensures |r| == |conversations|
    ensures forall i :: 0 <= i < |r| ==> r[i] == if UsesUid(conversations[i], uid) then Picked(trending, picks[i]) else conversations[i]
  {
    if conversations == [] then []
    else
      [if UsesUid(conversations[0], uid) then Picked(trending, picks[0]) else conversations[0]]
        + Reassigned(conversations[1..], uid, trending, picks[1..])
  }

  /** Whether a conversation's model has that `_id`. */
  predicate UsesUid(c: ModelRef, uid: string)
  {
    c.Custom? && c.custom.uid == uid
  }

  /** `randomPick(models.trending)`, the choice given as an index. */
  function Picked(trending: seq<RemoteModel>, pick: nat): ModelRef
  {
    if trending == [] then NoModel else Remote(trending[pick % |trending|])
  }

  /** The `Models` state. `stored` is the list local storage holds under
    * `hf_inference_playground_custom_models`, `None` while there is none. */
  class Models {
    var remote: seq<RemoteModel>
    var custom: seq<CustomModel>
    var stored: Option<seq<CustomModel>>

    /** `savedData` is the stored text, `validated` the list it holds when
      * it parses and passes the `CustomModel[]` check. */
    constructor(remote: seq<RemoteModel>, savedData: Option<string>, validated: Option<seq<CustomModel>>)
      ensures this.remote == remote
      ensures savedData.None? || savedData.value == "" ==> custom == [] && stored == None
      ensures savedData.Some? && savedData.value != "" && validated.Some? ==>
        custom == validated.value && stored == validated
      ensures savedData.Some? && savedData.value != "" && validated.None? ==> custom == [] && stored == Some([])
    {
      this.remote := remote;
      custom := [];
      stored := None;
      if savedData.Some? && savedData.value != "" {
        if validated.Some? {
          custom := validated.value;
          stored := validated;
        } else {
          stored := Some([]);
        }
      }
    }

    /** The `custom` setter: the list is replaced and written to storage
      * unless the write fails (`saved` false), which is ignored. */
    method SetCustom(models: seq<CustomModel>, saved: bool)
      modifies this
      ensures custom == models && remote == old(remote)
      ensures stored == if saved then Some(models) else old(stored)
    {
      custom := models;
      if saved {
        stored := Some(models);
      }
    }

    /** `addCustom(model)`: `None` and no change when a model with the same
      * `id` exists, otherwise the model is appended and returned. */
    method AddCustom(model: CustomModel, saved: bool) returns (r: Option<CustomModel>)
      modifies this
      ensures remote == old(remote)
      ensures HasId(old(custom), model.id) ==> r == None && custom == old(custom) && stored == old(stored)
      ensures !HasId(old(custom), model.id) ==>
        r == Some(model) && custom == old(custom) + [model] && stored == (if saved then Some(custom) else old(stored))
    {
      var i := 0;
      while i < |custom|
        invariant 0 <= i <= |custom|
        invariant forall k :: 0 <= k < i ==> custom[k].id != model.id
      {
        if custom[i].id == model.id {
          return None;
        }
        i := i + 1;
      }
      SetCustom(custom + [model], saved);
      return Some(model);
    }

    /** `upsertCustom(model)`: the model with the same `_id` is replaced in
      * place; otherwise the model is added as by `addCustom`. */
    method UpsertCustom(model: CustomModel, saved: bool)
      modifies this
      ensures remote == old(remote)
      ensures var index := FindIndexByUid(old(custom), model.uid);
        index >= 0 ==> custom == old(custom)[index := model] && stored == (if saved then Some(custom) else old(stored))
      ensures FindIndexByUid(old(custom), model.uid) == -1 && HasId(old(custom), model.id) ==>
        custom == old(custom) && stored == old(stored)
      ensures FindIndexByUid(old(custom), model.uid) == -1 && !HasId(old(custom), model.id) ==>
        custom == old(custom) + [model] && stored == (if saved then Some(custom) else old(stored))
    {
      var index := FindIndexByUid(custom, model.uid);
      if index == -1 {
        var _ := AddCustom(model, saved);
      } else {
        SetCustom(custom[index := model], saved);
      }
    }

    /** `removeCustom(uid)`: every custom model with that `_id` is dropped,
      * and every conversation that used it gets a trending model. */
    method RemoveCustom(uid: string, saved: bool, conversations: seq<ModelRef>, picks: seq<nat>)
      returns (updated: seq<ModelRef>)
      requires |picks| == |conversations|
      modifies this
      ensures remote == old(remote)
      ensures custom == WithoutUid(old(custom), uid)
      ensures stored == if saved then Some(custom) else old(stored)
      ensures updated == Reassigned(conversations, uid, Trending(remote), picks)
    {
      SetCustom(WithoutUid(custom, uid), saved);
      var trending := Trending(remote);
      updated := conversations;
      for i := 0 to |conversations|
        invariant |updated| == |conversations|
        invariant forall k :: 0 <= k < i ==>
          updated[k] == if UsesUid(conversations[k], uid) then Picked(trending, picks[k]) else conversations[k]
        invariant forall k :: i <= k < |conversations| ==> updated[k] == conversations[k]
      {
        if UsesUid(updated[i], uid) {
          updated := updated[i := Picked(trending, picks[i])];
        }
      }
    }
  }

  /** Adding keeps `id`s unique, and an added model is found at the end. */
  lemma AddKeepsUniqueIds(custom: seq<CustomModel>, model: CustomModel)
    requires UniqueIds(custom) && !HasId(custom, model.id)
    ensures UniqueIds(custom + [model])
  {
  }

  /** An upsert that replaces keeps `id`s unique when the new `id` is the
    * replaced model's or is not used yet; replacing never changes the
    * length or the other entries. */
  lemma UpsertReplaceFacts(custom: seq<CustomModel>, model: CustomModel)
    requires FindIndexByUid(custom, model.uid) >= 0
    ensures var index := FindIndexByUid(custom, model.uid);
      var next := custom[index := model];
      |next| == |custom| && next[index].uid == custom[index].uid
      && (UniqueIds(custom) && (model.id == custom[index].id || !HasId(custom, model.id)) ==> UniqueIds(next))
  {
  }

  /** After a removal no model with that `_id` is left, every other model
    * stays in order, and removing again changes nothing. */
  lemma {:induction false} RemoveFacts(custom: seq<CustomModel>, uid: string)
    ensures forall k :: 0 <= k < |WithoutUid(custom, uid)| ==> WithoutUid(custom, uid)[k].uid != uid
    ensures WithoutUid(WithoutUid(custom, uid), uid) == WithoutUid(custom, uid)
    ensures (forall k :: 0 <= k < |custom| ==> custom[k].uid != uid) ==> WithoutUid(custom, uid) == custom
  {
    var r := WithoutUid(custom, uid);
    assert forall k :: 0 <= k < |r| ==> r[k] in r;
    WithoutUidOfFree(r, uid);
    if forall k :: 0 <= k < |custom| ==> custom[k].uid != uid {
      WithoutUidOfFree(custom, uid);
    }
  }

  lemma {:induction false} WithoutUidOfFree(s: seq<CustomModel>, uid: string)
    requires forall k :: 0 <= k < |s| ==> s[k].uid != uid
    ensures WithoutUid(s, uid) == s
  {
    if s != [] {
      WithoutUidOfFree(s[1..], uid);
      assert s == [s[0]] + s[1..];
    }
  }
}
