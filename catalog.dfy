/** The model records the model caches hold, and their ordering by
  * lower-cased id (`a.id.toLowerCase().localeCompare(b.id.toLowerCase())`).
  * Locale collation is replaced by code-point order on ids lower-cased in
  * the ASCII range, and the sort is an insertion sort. */
module Catalog {
  /** The fields of a hub model the core looks at: `inferenceProviderMapping`
    * is represented by its length. */
  datatype Model = Model(id: string, pipelineTag: string, providerCount: nat, trendingScore: int)

  function LowerChar(c: char): char
  {
    if 'A' <= c <= 'Z' then (c as int + 32) as char else c
  }

  function Lower(s: string): (r: string)
    ensures |r| == |s| && forall i :: 0 <= i < |s| ==> r[i] == LowerChar(s[i])
  {
    if s == [] then [] else [LowerChar(s[0])] + Lower(s[1..])
  }

  /** Code-point order on strings, a prefix first. */
  predicate LexLe(a: string, b: string)
  {
    a == [] || (b != [] && (a[0] < b[0] || (a[0] == b[0] && LexLe(a[1..], b[1..]))))
  }

  lemma {:induction false} LexLeTotal(a: string, b: string)
    ensures LexLe(a, b) || LexLe(b, a)
  {
    if a != [] && b != [] && a[0] == b[0] {
      LexLeTotal(a[1..], b[1..]);
    }
  }

  lemma {:induction false} LexLeTrans(a: string, b: string, c: string)
    requires LexLe(a, b) && LexLe(b, c)
    ensures LexLe(a, c)
  {
    if a != [] && b != [] && c != [] && a[0] == b[0] == c[0] {
      LexLeTrans(a[1..], b[1..], c[1..]);
    }
  }

  /** `a` sorts no later than `b`. */
  predicate IdLe(a: Model, b: Model)
  {
    LexLe(Lower(a.id), Lower(b.id))
  }

  predicate SortedById(s: seq<Model>)
  {
    forall i, j :: 0 <= i < j < |s| ==> IdLe(s[i], s[j])
  }

  function Insert(m: Model, s: seq<Model>): (r: seq<Model>)
    requires SortedById(s)
    ensures SortedById(r) && multiset(r) == multiset(s) + multiset{m}
  {
    if s == [] then [m]
    else if IdLe(m, s[0]) then
      InsertFront(m, s);
      [m] + s
    else
      var rest := Insert(m, s[1..]);
      InsertBehind(m, s, rest);
      assert s == [s[0]] + s[1..];
      [s[0]] + rest
  }

  lemma InsertFront(m: Model, s: seq<Model>)
    requires SortedById(s) && s != [] && IdLe(m, s[0])
    ensures SortedById([m] + s)
  {
    var r := [m] + s;
    forall i, j | 0 <= i < j < |r|
      ensures IdLe(r[i], r[j])
    {
      if i == 0 && j > 1 {
        LexLeTrans(Lower(m.id), Lower(s[0].id), Lower(s[j - 1].id));
      }
    }
  }

  lemma InsertBehind(m: Model, s: seq<Model>, rest: seq<Model>)
    requires SortedById(s) && s != [] && !IdLe(m, s[0])
    requires SortedById(rest) && multiset(rest) == multiset(s[1..]) + multiset{m}
    ensures SortedById([s[0]] + rest)
  {
    LexLeTotal(Lower(m.id), Lower(s[0].id));
    forall j | 0 <= j < |rest|
      ensures IdLe(s[0], rest[j])
    {
      assert rest[j] in multiset(rest);
      if rest[j] != m {
        assert rest[j] in multiset(s[1..]);
        var k :| 0 <= k < |s[1..]| && s[1..][k] == rest[j];
        assert s[k + 1] == rest[j];
      }
    }
  }

  /** `models.sort(byLowerCasedId)` */
  function SortById(s: seq<Model>): (r: seq<Model>)
    ensures SortedById(r) && multiset(r) == multiset(s)
  {
    if s == [] then []
    else
      var front := s[..|s| - 1];
      assert s == front + [s[|s| - 1]];
      Insert(s[|s| - 1], SortById(front))
  }
}
