/** `src/lib/utils/cache.ts`: `withCache` wraps a function with a memo
  * table keyed by the JSON text of the argument list. Each stored entry is
  * deleted by a timer `lifespan` milliseconds after it was stored. The
  * clock is the explicit `now`; timers firing is the explicit `Elapse`
  * event; `JSON.stringify` of the arguments is the `key` parameter; and a
  * call of the wrapped function is its outcome, `None` where it throws. */
module Memo {
  import opened Wrappers

  /** `lifespan = 1000 * 60 * 10` when no option is given. */
  const DefaultLifespan: int := 1000 * 60 * 10

  /** What one call of the wrapper does to the table: whether it calls the
    * wrapped function, what it returns (`None`: the call throws) and the
    * new table. */
  datatype Outcome<R> = Outcome(calls: bool, returned: Option<R>, table: map<string, R>)

  /** One call with serialised arguments `key`; `computed` is what the
    * wrapped function gives, consulted only on a miss. */
  function Step<R>(table: map<string, R>, key: string, computed: Option<R>): (o: Outcome<R>)
    ensures key in table ==> o == Outcome(false, Some(table[key]), table)
    ensures key !in table ==> o.calls && o.returned == computed
    ensures key !in table && computed.None? ==> o.table == table
    ensures key !in table && computed.Some? ==> o.table == table[key := computed.value]
  {
    if key in table then Outcome(false, Some(table[key]), table)
    else match computed
      case None => Outcome(true, None, table)
      case Some(v) => Outcome(true, Some(v), table[key := v])
  }

  /** The function returned by `withCache`, with its closure-held `Map` and
    * the deadlines of the pending timers. */
  class Memoised<R> {
    const lifespan: int
    var table: map<string, R>
    var deadlines: map<string, int>

    /** Every stored entry has a pending timer. */
    ghost predicate Valid()
      reads this
    {
      table.Keys == deadlines.Keys
    }

    constructor(lifespanOption: Option<int>)
      ensures Valid()
      ensures lifespan == lifespanOption.GetOr(DefaultLifespan)
      ensures table == map[] && deadlines == map[]
    {
      lifespan := lifespanOption.GetOr(DefaultLifespan);
      table := map[];
      deadlines := map[];
    }

    /** A call at time `now`: a hit returns the stored value; a miss calls
      * the function, and when it returns, stores the value and starts its
      * timer. */
    method Call(key: string, computed: Option<R>, now: int) returns (calls: bool, r: Option<R>)
      requires Valid()
      modifies this
      ensures Valid()
      ensures Step(old(table), key, computed) == Outcome(calls, r, table)
      ensures old(table) == table ==> deadlines == old(deadlines)
      ensures old(table) != table ==> deadlines == old(deadlines)[key := now + lifespan]
    {
      if key in table {
        return false, Some(table[key]);
      }
      calls := true;
      r := computed;
      if computed.Some? {
        table := table[key := computed.value];
        deadlines := deadlines[key := now + lifespan];
      }
    }

    /** The clock reaches `now`: every timer due by then has deleted its
      * entry. */
    method Elapse(now: int)
      requires Valid()
      modifies this
      ensures Valid()
      ensures table == Expired(old(table), old(deadlines), now)
      ensures deadlines == map k | k in old(deadlines) && old(deadlines)[k] > now :: old(deadlines)[k]
    {
      table := Expired(table, deadlines, now);
      deadlines := map k | k in deadlines && deadlines[k] > now :: deadlines[k];
    }
  }

  /** The entries whose timers have not fired by `now`. */
  function Expired<R>(table: map<string, R>, deadlines: map<string, int>, now: int): (r: map<string, R>)
    requires table.Keys == deadlines.Keys
    ensures forall k :: k in r <==> k in table && deadlines[k] > now
    ensures forall k :: k in r ==> r[k] == table[k]
  {
    map k | k in table && deadlines[k] > now :: table[k]
  }

  /** Two calls with the same serialised arguments: once the first has
    * returned a value, the second returns that same value without calling
    * the function again, whatever it would give. */
  lemma SecondCallHits<R>(table: map<string, R>, key: string, first: Option<R>, second: Option<R>)
    requires first.Some?
    ensures var o1 := Step(table, key, first);
      var o2 := Step(o1.table, key, second);
      !o2.calls && o2.returned == o1.returned && o2.table == o1.table
  {
  }

  /** A throwing call stores nothing, so the next call runs the function
    * again. */
  lemma ThrowStoresNothing<R>(table: map<string, R>, key: string, second: Option<R>)
    requires key !in table
    ensures var o1 := Step(table, key, None);
      o1.returned.None? && Step(o1.table, key, second).calls
  {
  }

  /** A value stored at `now` is gone once the clock reaches
    * `now + lifespan`, so the call after that recomputes it. */
  lemma ExpiryRecomputes<R>(table: map<string, R>, deadlines: map<string, int>, key: string,
                            v: R, now: int, lifespan: int, later: int, again: Option<R>)
    requires table.Keys == deadlines.Keys && key !in table
    requires later >= now + lifespan
    ensures var stored, due := table[key := v], deadlines[key := now + lifespan];
      Step(Expired(stored, due, later), key, again).calls
  {
    var stored, due := table[key := v], deadlines[key := now + lifespan];
    assert key !in Expired(stored, due, later);
  }

  /** Before its deadline a stored value survives the timers and keeps
    * being served. */
  lemma LiveEntryServed<R>(table: map<string, R>, deadlines: map<string, int>, key: string,
                           now: int, computed: Option<R>)
    requires table.Keys == deadlines.Keys && key in table && deadlines[key] > now
    ensures Step(Expired(table, deadlines, now), key, computed) == Outcome(false, Some(table[key]), Expired(table, deadlines, now))
  {
  }
}
