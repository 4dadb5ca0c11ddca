/** The JavaScript string operations the core relies on, over `seq<char>`:
  * the `\s` / `trim()` whitespace set, `trim`, `trimEnd`, `startsWith`,
  * `endsWith`, `includes`, `indexOf`, `lastIndexOf`, `split` on one
  * character, `join` and `Array.prototype.slice`. */
module Text {
  import opened Wrappers

  /** The characters JavaScript's `\s` class and `String.prototype.trim`
    * treat as white space (WhiteSpace and LineTerminator). */
  predicate IsSpace(c: char)
  {
    c == ' ' || c == '\t' || c == '\n' || c == '\r' || c == '\U{000B}' || c == '\U{000C}'
    || c == '\U{00A0}' || c == '\U{1680}' || ('\U{2000}' <= c <= '\U{200A}')
    || c == '\U{2028}' || c == '\U{2029}' || c == '\U{202F}' || c == '\U{205F}'
    || c == '\U{3000}' || c == '\U{FEFF}'
  }

  predicate AllSpace(s: string)
  {
    forall i :: 0 <= i < |s| ==> IsSpace(s[i])
  }

  /** `s.trimEnd()`; its defining facts are `TrimEndFacts`. */
  function TrimEnd(s: string): (r: string)
    ensures r <= s
  {
    if |s| == 0 then s
    else if IsSpace(s[|s| - 1]) then TrimEnd(s[..|s| - 1])
    else s
  }

  lemma {:induction false} TrimEndFacts(s: string)
    ensures AllSpace(s[|TrimEnd(s)|..])
    ensures TrimEnd(s) == [] || !IsSpace(TrimEnd(s)[|TrimEnd(s)| - 1])
    decreases |s|
  {
    if |s| > 0 && IsSpace(s[|s| - 1]) {
      TrimEndFacts(s[..|s| - 1]);
      var r := TrimEnd(s);
      forall i | |r| <= i < |s| ensures IsSpace(s[i]) {
        if i < |s| - 1 {
          assert s[i] == s[..|s| - 1][|r|..][i - |r|];
        }
      }
    }
  }

  /** `s.trimStart()`; its defining facts are `TrimStartFacts`. */
  function TrimStart(s: string): (r: string)
    ensures |r| <= |s| && r == s[|s| - |r|..]
  {
    if |s| == 0 then s
    else if IsSpace(s[0]) then TrimStart(s[1..])
    else s
  }

  lemma {:induction false} TrimStartFacts(s: string)
    ensures AllSpace(s[..|s| - |TrimStart(s)|])
    ensures TrimStart(s) == [] || !IsSpace(TrimStart(s)[0])
    decreases |s|
  {
    if |s| > 0 && IsSpace(s[0]) {
      TrimStartFacts(s[1..]);
      var r := TrimStart(s);
      forall i | 0 <= i < |s| - |r| ensures IsSpace(s[i]) {
        if i > 0 {
          assert s[i] == s[1..][..|s| - 1 - |r|][i - 1];
        }
      }
    }
  }

  /** `s.trim()` */
  function Trim(s: string): (r: string)
  {
    TrimEnd(TrimStart(s))
  }

  lemma TrimEmptyIffAllSpace(s: string)
    ensures Trim(s) == [] <==> AllSpace(s)
  {
    var t := TrimStart(s);
    TrimStartFacts(s);
    TrimEndFacts(t);
    if Trim(s) == [] {
      assert t == t[|TrimEnd(t)|..];
      assert t == [];
      forall i | 0 <= i < |s| ensures IsSpace(s[i]) {
        assert s[i] == s[..|s| - |t|][i];
      }
    } else {
      var r := Trim(s);
      assert r <= t;
      assert t[0] == r[0] && !IsSpace(t[0]);
      assert s[|s| - |t|] == t[0];
    }
  }

  lemma TrimOfUnspaced(s: string)
    requires s == [] || (!IsSpace(s[0]) && !IsSpace(s[|s| - 1]))
    ensures Trim(s) == s
  {
  }

  /** Trailing white space does not survive `trimEnd`. */
  lemma {:induction false} TrimEndAppendSpaces(a: string, b: string)
    requires AllSpace(b)
    ensures TrimEnd(a + b) == TrimEnd(a)
    decreases |b|
  {
    if |b| > 0 {
      assert (a + b)[..|a + b| - 1] == a + b[..|b| - 1];
      TrimEndAppendSpaces(a, b[..|b| - 1]);
    } else {
      assert a + b == a;
    }
  }

  /** `trimEnd` only looks at the tail once that tail has visible content. */
  lemma {:induction false} TrimEndAppendVisible(a: string, b: string)
    requires TrimEnd(b) != []
    ensures TrimEnd(a + b) == a + TrimEnd(b)
    decreases |b|
  {
    if IsSpace(b[|b| - 1]) {
      assert (a + b)[..|a + b| - 1] == a + b[..|b| - 1];
      TrimEndAppendVisible(a, b[..|b| - 1]);
    }
  }

  /** A string with one visible character does not trim to nothing. */
  lemma VisibleNotBlank(s: string, i: nat)
    requires i < |s| && !IsSpace(s[i])
    ensures Trim(s) != []
  {
    TrimEmptyIffAllSpace(s);
  }

  predicate EndsWith(s: string, suffix: string)
  {
    |suffix| <= |s| && s[|s| - |suffix|..] == suffix
  }

  /** A concatenation has visible content if either part has. */
  lemma VisibleInConcat(a: string, b: string)
    requires Trim(a) != [] || Trim(b) != []
    ensures Trim(a + b) != []
  {
    TrimEmptyIffAllSpace(a);
    TrimEmptyIffAllSpace(b);
    if Trim(a) != [] {
      var i :| 0 <= i < |a| && !IsSpace(a[i]);
      VisibleNotBlank(a + b, i);
    } else {
      var i :| 0 <= i < |b| && !IsSpace(b[i]);
      VisibleNotBlank(a + b, |a| + i);
    }
  }

  lemma EndsWithAppend(a: string, b: string, suffix: string)
    requires |suffix| <= |b|
    ensures EndsWith(a + b, suffix) == EndsWith(b, suffix)
  {
    assert (a + b)[|a + b| - |suffix|..] == b[|b| - |suffix|..];
  }

  /** `s.startsWith(prefix)` */
  predicate StartsWith(s: string, prefix: string)
  {
    |prefix| <= |s| && s[..|prefix|] == prefix
  }

  /** The parts written one after another. */
  function Concat(parts: seq<string>): string
  {
    if parts == [] then "" else Concat(parts[..|parts| - 1]) + parts[|parts| - 1]
  }

  /** Concatenation regroups. */
  lemma AppendAssoc(a: string, b: string, c: string)
    ensures a + (b + c) == (a + b) + c
  {
  }

  lemma {:induction false} ConcatAppend(a: seq<string>, b: seq<string>)
    ensures Concat(a + b) == Concat(a) + Concat(b)
    decreases |b|
  {
    if b == [] {
      assert a + b == a;
    } else {
      var init, last := b[..|b| - 1], b[|b| - 1];
      assert (a + b)[..|a + b| - 1] == a + init;
      assert (a + b)[|a + b| - 1] == last;
      assert Concat(a + b) == Concat(a + init) + last;
      ConcatAppend(a, init);
      assert Concat(b) == Concat(init) + last;
      AppendAssoc(Concat(a), Concat(init), last);
    }
  }

  /** The text of a list of parts, cut at any part. */
  lemma ConcatSplitAt(parts: seq<string>, i: nat)
    requires i <= |parts|
    ensures Concat(parts) == Concat(parts[..i]) + Concat(parts[i..])
  {
    assert parts == parts[..i] + parts[i..];
    ConcatAppend(parts[..i], parts[i..]);
  }

  /** Whether `needle` occurs in `s` at position `i`. */
  predicate OccursAt(s: string, needle: string, i: nat)
  {
    i + |needle| <= |s| && s[i..i + |needle|] == needle
  }

  /** `s.indexOf(needle, from)`: the first occurrence at or after `from`. */
  function IndexOf(s: string, needle: string, from: nat): (r: Option<nat>)
    ensures r.Some? ==> from <= r.value && r.value + |needle| <= |s|
    decreases |s| - from
  {
    if from + |needle| > |s| then None
    else if OccursAt(s, needle, from) then Some(from)
    else IndexOf(s, needle, from + 1)
  }

  /** `IndexOf` finds the first occurrence at or after `from`, and reports
    * none only when there is none. */
  lemma {:induction false} IndexOfFacts(s: string, needle: string, from: nat)
    ensures var r := IndexOf(s, needle, from);
      r.Some? ==> OccursAt(s, needle, r.value)
    ensures var r := IndexOf(s, needle, from);
      r.Some? ==> forall j :: from <= j < r.value ==> !OccursAt(s, needle, j)
    ensures var r := IndexOf(s, needle, from);
      r.None? ==> forall j :: from <= j ==> !OccursAt(s, needle, j)
    decreases |s| - from
  {
    if from + |needle| <= |s| && !OccursAt(s, needle, from) {
      IndexOfFacts(s, needle, from + 1);
    }
  }

  /** `s.includes(needle)` */
  predicate Contains(s: string, needle: string)
  {
    IndexOf(s, needle, 0).Some?
  }

  lemma ContainsIff(s: string, needle: string)
    ensures Contains(s, needle) <==> exists i: nat :: OccursAt(s, needle, i)
  {
    IndexOfFacts(s, needle, 0);
  }

  /** A prefix keeps every occurrence, shifted by its length. */
  lemma ContainsAfterPrefix(prefix: string, s: string, needle: string)
    requires Contains(s, needle)
    ensures Contains(prefix + s, needle)
  {
    ContainsIff(s, needle);
    var i: nat :| OccursAt(s, needle, i);
    var r := prefix + s;
    assert r[|prefix| + i..|prefix| + i + |needle|] == s[i..i + |needle|];
    assert OccursAt(r, needle, |prefix| + i);
    ContainsIff(r, needle);
  }

  /** `s.indexOf(c)` for a single character. */
  function Find(s: string, c: char): (r: Option<nat>)
    ensures r.Some? ==> r.value < |s| && s[r.value] == c && c !in s[..r.value]
    ensures r.None? ==> c !in s
  {
    if |s| == 0 then None
    else if s[0] == c then Some(0)
    else match Find(s[1..], c)
      case None => None
      case Some(i) => (assert s[..i + 1] == [s[0]] + s[1..][..i]; Some(i + 1))
  }

  /** `s.split(c)` for a one-character separator: never empty, and no part
    * contains the separator. */
  function Split(s: string, c: char): (parts: seq<string>)
    ensures |parts| >= 1
    decreases |s|
  {
    match Find(s, c)
    case None => [s]
    case Some(i) => [s[..i]] + Split(s[i + 1..], c)
  }

  /** `parts.join(sep)` */
  function Join(parts: seq<string>, sep: string): (r: string)
  {
    if |parts| == 0 then ""
    else if |parts| == 1 then parts[0]
    else parts[0] + sep + Join(parts[1..], sep)
  }

  /** Joining a list of several parts: the first, the separator, the rest. */
  lemma JoinCons(first: string, rest: seq<string>, sep: string)
    requires rest != []
    ensures Join([first] + rest, sep) == first + sep + Join(rest, sep)
  {
    assert ([first] + rest)[1..] == rest;
  }

  /** Joining two non-empty lists of parts puts the separator between them. */
  lemma {:induction false} JoinAppend(a: seq<string>, b: seq<string>, sep: string)
    requires a != [] && b != []
    ensures Join(a + b, sep) == Join(a, sep) + sep + Join(b, sep)
    decreases |a|
  {
    assert a + b == [a[0]] + (a[1..] + b);
    JoinCons(a[0], a[1..] + b, sep);
    if |a| > 1 {
      JoinAppend(a[1..], b, sep);
      JoinCons(a[0], a[1..], sep);
      assert [a[0]] + a[1..] == a;
      var x, y := Join(a[1..], sep), Join(b, sep);
      calc {
        a[0] + sep + (x + sep + y);
        { AppendAssoc(a[0] + sep, x + sep, y); AppendAssoc(a[0] + sep, x, sep); }
        a[0] + sep + x + sep + y;
      }
    }
  }

  /** Splitting a join of separator-free parts gives the parts back. */
  lemma {:induction false} SplitJoin(parts: seq<string>, c: char)
    requires |parts| >= 1
    requires forall k :: 0 <= k < |parts| ==> c !in parts[k]
    ensures Split(Join(parts, [c]), c) == parts
    decreases |parts|
  {
    if |parts| == 1 {
      SplitNoSeparator(parts[0], c);
    } else {
      var rest := Join(parts[1..], [c]);
      JoinCons(parts[0], parts[1..], [c]);
      assert [parts[0]] + parts[1..] == parts;
      SplitJoin(parts[1..], c);
      SplitLine(parts[0], rest, c);
    }
  }

  function Last<T>(s: seq<T>): T
    requires |s| > 0
  {
    s[|s| - 1]
  }

  function AllButLast<T>(s: seq<T>): seq<T>
    requires |s| > 0
  {
    s[..|s| - 1]
  }

  /** Joining the parts of a split with the separator restores the string. */
  lemma {:induction false} JoinSplit(s: string, c: char)
    ensures Join(Split(s, c), [c]) == s
    decreases |s|
  {
    match Find(s, c)
    case None =>
      assert Split(s, c) == [s];
    case Some(i) =>
      var rest := s[i + 1..];
      assert Split(s, c) == [s[..i]] + Split(rest, c);
      JoinCons(s[..i], Split(rest, c), [c]);
      JoinSplit(rest, c);
      assert s == s[..i] + [c] + rest;
  }

  /** Splitting a concatenation: the complete parts of `a` come first, and the
    * unfinished last part of `a` continues into `b`. */
  lemma {:induction false} SplitAppend(a: string, b: string, c: char)
    ensures Split(a + b, c) == AllButLast(Split(a, c)) + Split(Last(Split(a, c)) + b, c)
    decreases |a|
  {
    match Find(a, c)
    case None =>
      assert Split(a, c) == [a];
      assert AllButLast([a]) == [];
    case Some(i) =>
      var a' := a[i + 1..];
      assert (a + b)[..i] == a[..i];
      FindFirst(a + b, c, i);
      assert (a + b)[i + 1..] == a' + b;
      var rest := Split(a', c);
      var head := [a[..i]];
      assert Split(a, c) == head + rest;
      assert Split(a + b, c) == head + Split(a' + b, c);
      SplitAppend(a', b, c);
      ConsLast(head, rest);
      var tail := Split(Last(rest) + b, c);
      assert head + (AllButLast(rest) + tail) == (head + AllButLast(rest)) + tail;
  }

  /** Membership in a non-empty sequence, split at its last element. */
  lemma InSnoc<T>(s: seq<T>, x: T)
    requires s != []
    ensures x in s <==> x in s[..|s| - 1] || x == s[|s| - 1]
  {
    assert s == s[..|s| - 1] + [s[|s| - 1]];
  }

  lemma ConsLast<T>(head: seq<T>, rest: seq<T>)
    requires rest != []
    ensures Last(head + rest) == Last(rest)
    ensures AllButLast(head + rest) == head + AllButLast(rest)
  {
    assert (head + rest)[..|head + rest| - 1] == head + rest[..|rest| - 1];
  }

  lemma FindFirst(s: string, c: char, i: nat)
    requires i < |s| && s[i] == c && c !in s[..i]
    ensures Find(s, c) == Some(i)
  {
  }

  /** A string without the separator splits into itself. */
  lemma SplitNoSeparator(s: string, c: char)
    requires c !in s
    ensures Split(s, c) == [s]
  {
  }

  /** No part of a split contains the separator. */
  lemma {:induction false} SplitPartsFree(s: string, c: char)
    ensures forall k :: 0 <= k < |Split(s, c)| ==> c !in Split(s, c)[k]
    decreases |s|
  {
    match Find(s, c)
    case None =>
    case Some(i) =>
      SplitPartsFree(s[i + 1..], c);
  }

  /** `s.split(c)` on a string that ends with a separator-terminated line. */
  lemma SplitLine(line: string, rest: string, c: char)
    requires c !in line
    ensures Split(line + [c] + rest, c) == [line] + Split(rest, c)
  {
    var s := line + [c] + rest;
    assert s[..|line|] == line;
    assert s[|line|] == c;
    FindFirst(s, c, |line|);
    assert s[|line| + 1..] == rest;
  }

  /** `Array.prototype.slice(start, end)`: a negative bound counts from the end,
    * and both bounds are clamped to the sequence. */
  function SliceIndex(len: nat, k: int): (r: nat)
    ensures r <= len
  {
    if k < 0 then (if len + k < 0 then 0 else len + k) else if k > len then len else k
  }

  function JsSlice<T>(s: seq<T>, start: int, end: int): (r: seq<T>)
    ensures |r| <= |s|
  {
    var a := SliceIndex(|s|, start);
    var b := SliceIndex(|s|, end);
    if a < b then s[a..b] else []
  }

  lemma JsSliceInRange<T>(s: seq<T>, start: int, end: int)
    requires 0 <= start && 0 <= end <= |s|
    ensures JsSlice(s, start, end) == if start < end then s[start..end] else []
  {
  }

  /** `s.slice(-k)`: the last `k` elements. */
  lemma JsSliceLast<T>(s: seq<T>, k: int)
    requires 0 < k <= |s|
    ensures JsSlice(s, -k, |s|) == s[|s| - k..]
  {
    assert SliceIndex(|s|, -k) == |s| - k;
    assert SliceIndex(|s|, |s|) == |s|;
  }
}
