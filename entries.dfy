/**
 * A JavaScript object with string keys, as the ordered list of its own
 * entries (what `Object.entries` returns). Property assignment `o[k] = v`
 * replaces the value in place when the key exists and appends it otherwise,
 * which is how the objects of the library keep their key order.
 */
module Entries {
  import opened Options

  type Entries<V> = seq<(string, V)>

  function Keys<V>(es: Entries<V>): set<string>
  {
    set i | 0 <= i < |es| :: es[i].0
  }

  function KeyList<V>(es: Entries<V>): seq<string>
  {
    seq(|es|, i requires 0 <= i < |es| => es[i].0)
  }

  /** No key occurs twice, as in every JavaScript object. */
  predicate UniqueKeys<V>(es: Entries<V>)
  {
    forall i, j :: 0 <= i < j < |es| ==> es[i].0 != es[j].0
  }

  lemma KeysCons<V>(e: (string, V), es: Entries<V>)
    ensures Keys([e] + es) == {e.0} + Keys(es)
  {
    var s := [e] + es;
    assert s[0] == e;
    forall k | k in Keys(s) ensures k in {e.0} + Keys(es) {
      var i :| 0 <= i < |s| && s[i].0 == k;
      if i > 0 { assert s[i] == es[i - 1]; }
    }
    forall k | k in Keys(es) ensures k in Keys(s) {
      var i :| 0 <= i < |es| && es[i].0 == k;
      assert s[i + 1] == es[i];
    }
  }

  lemma HeadKeyNotInTail<V>(es: Entries<V>)
    requires UniqueKeys(es) && |es| > 0
    ensures es[0].0 !in Keys(es[1..])
  {
    forall i | 0 <= i < |es| - 1 ensures es[1..][i].0 != es[0].0 {
      assert es[1..][i] == es[i + 1];
    }
  }

  /** `o[k]`, undefined when absent. */
  function Get<V>(es: Entries<V>, k: string): (r: Option<V>)
    ensures r.None? <==> k !in Keys(es)
  {
    if |es| == 0 then None
    else if es[0].0 == k then Some(es[0].1)
    else
      KeysCons(es[0], es[1..]);
      Get(es[1..], k)
  }

  /** `o[k] = v` */
  function Set<V>(es: Entries<V>, k: string, v: V): (r: Entries<V>)
    ensures Keys(r) == Keys(es) + {k}
    ensures |r| == if k in Keys(es) then |es| else |es| + 1
  {
    if |es| == 0 then
      KeysCons((k, v), es);
      assert [(k, v)] + es == [(k, v)];
      [(k, v)]
    else
      KeysCons(es[0], es[1..]);
      if es[0].0 == k then
        KeysCons((k, v), es[1..]);
        [(k, v)] + es[1..]
      else
        var rest := Set(es[1..], k, v);
        KeysCons(es[0], rest);
        [es[0]] + rest
  }

  /** Assignment never creates a second entry for a key. */
  lemma {:induction false} SetUnique<V>(es: Entries<V>, k: string, v: V)
    requires UniqueKeys(es)
    ensures UniqueKeys(Set(es, k, v))
  {
    if |es| > 0 {
      HeadKeyNotInTail(es);
      var r := Set(es, k, v);
      if es[0].0 == k {
        assert r == [(k, v)] + es[1..];
        forall i, j | 0 <= i < j < |r| ensures r[i].0 != r[j].0 {
          assert r[j] == es[j];
          if i > 0 { assert r[i] == es[i]; }
        }
      } else {
        SetUnique(es[1..], k, v);
        var rest := Set(es[1..], k, v);
        assert r == [es[0]] + rest;
        assert es[0].0 !in Keys(rest);
        forall i, j | 0 <= i < j < |r| ensures r[i].0 != r[j].0 {
          assert r[j] == rest[j - 1];
          if i > 0 { assert r[i] == rest[i - 1]; } else { assert r[j].0 in Keys(rest); }
        }
      }
    }
  }

  /** Every entry after `o[k] = v` is the new one or was there before. */
  lemma {:induction false} SetMembers<V>(es: Entries<V>, k: string, v: V)
    ensures forall e :: e in Set(es, k, v) ==> e == (k, v) || e in es
    ensures (k, v) in Set(es, k, v)
  {
    if |es| > 0 && es[0].0 != k {
      SetMembers(es[1..], k, v);
      assert Set(es, k, v) == [es[0]] + Set(es[1..], k, v);
      forall e | e in es[1..] ensures e in es {
        var i :| 0 <= i < |es[1..]| && es[1..][i] == e;
        assert es[i + 1] == e;
      }
    }
  }

  /** Reading back after `o[k] = v`: the new value at `k`, the old value everywhere else. */
  /** In an object, looking up the key of one of its entries gives that entry's value. */
  lemma {:induction false} GetUnique<V>(es: Entries<V>, k: string, v: V)
    requires UniqueKeys(es) && (k, v) in es
    ensures Get(es, k) == Some(v)
  {
    if es[0] != (k, v) {
      var i :| 0 <= i < |es| && es[i] == (k, v);
      assert i > 0 && es[0].0 != k;
      assert es[1..][i - 1] == (k, v);
      GetUnique(es[1..], k, v);
    }
  }

  lemma {:induction false} GetSet<V>(es: Entries<V>, k: string, v: V, k': string)
    ensures Get(Set(es, k, v), k') == if k' == k then Some(v) else Get(es, k')
  {
    if |es| > 0 && es[0].0 != k {
      GetSet(es[1..], k, v, k');
    }
  }

  /** `Object.assign(target, source)` and the `{...target, ...source}` spread: every entry of the source, in order. */
  function Spread<V>(target: Entries<V>, source: Entries<V>): (r: Entries<V>)
    ensures Keys(r) == Keys(target) + Keys(source)
    decreases |source|
  {
    if |source| == 0 then target
    else
      KeysCons(source[0], source[1..]);
      Spread(Set(target, source[0].0, source[0].1), source[1..])
  }

  /** A spread keeps the keys of a well-formed target unique. */
  lemma {:induction false} SpreadUnique<V>(target: Entries<V>, source: Entries<V>)
    requires UniqueKeys(target)
    ensures UniqueKeys(Spread(target, source))
    decreases |source|
  {
    if |source| > 0 {
      SetUnique(target, source[0].0, source[0].1);
      SpreadUnique(Set(target, source[0].0, source[0].1), source[1..]);
    }
  }

  /** After a spread, the source wins on every key it has, the target keeps the rest. */
  lemma {:induction false} GetSpread<V>(target: Entries<V>, source: Entries<V>, k: string)
    requires UniqueKeys(source)
    ensures Get(Spread(target, source), k) == if k in Keys(source) then Get(source, k) else Get(target, k)
    decreases |source|
  {
    if |source| > 0 {
      KeysCons(source[0], source[1..]);
      GetSpread(Set(target, source[0].0, source[0].1), source[1..], k);
      GetSet(target, source[0].0, source[0].1, k);
      HeadKeyNotInTail(source);
    }
  }

  /** Keep the entries whose key passes `keep`, in order (`Object.fromEntries(Object.entries(o).filter(...))`). */
  function Filter<V>(es: Entries<V>, keep: string -> bool): Entries<V>
  {
    if |es| == 0 then []
    else if keep(es[0].0) then [es[0]] + Filter(es[1..], keep)
    else Filter(es[1..], keep)
  }

  /** Filtering keeps exactly the entries whose key passes, and never duplicates a key. */
  lemma FilterProperties<V>(es: Entries<V>, keep: string -> bool)
    ensures Keys(Filter(es, keep)) == set k | k in Keys(es) && keep(k)
    ensures |Filter(es, keep)| <= |es|
    ensures UniqueKeys(es) ==> UniqueKeys(Filter(es, keep))
    ensures forall i :: 0 <= i < |Filter(es, keep)| ==> Filter(es, keep)[i] in es && keep(Filter(es, keep)[i].0)
    ensures forall i :: 0 <= i < |es| && keep(es[i].0) ==> es[i] in Filter(es, keep)
    ensures forall i, j :: 0 <= i < j < |Filter(es, keep)| ==> Precedes(es, Filter(es, keep)[i], Filter(es, keep)[j])
  {
    FilterMembers(es, keep);
    FilterKeys(es, keep);
    FilterOrder(es, keep);
    if UniqueKeys(es) {
      FilterUnique(es, keep);
    }
  }

  lemma {:induction false} FilterMembers<V>(es: Entries<V>, keep: string -> bool)
    ensures |Filter(es, keep)| <= |es|
    ensures forall e :: e in Filter(es, keep) <==> e in es && keep(e.0)
    ensures forall i :: 0 <= i < |Filter(es, keep)| ==> Filter(es, keep)[i] in es
  {
    if |es| > 0 {
      FilterMembers(es[1..], keep);
      assert es == [es[0]] + es[1..];
    }
  }

  lemma {:induction false} FilterKeys<V>(es: Entries<V>, keep: string -> bool)
    ensures Keys(Filter(es, keep)) == set k | k in Keys(es) && keep(k)
  {
    if |es| > 0 {
      var head, tail := es[0], es[1..];
      assert es == [head] + tail;
      FilterKeys(tail, keep);
      KeysCons(head, tail);
      if keep(head.0) {
        KeysCons(head, Filter(tail, keep));
      }
    }
  }

  lemma {:induction false} FilterUnique<V>(es: Entries<V>, keep: string -> bool)
    requires UniqueKeys(es)
    ensures UniqueKeys(Filter(es, keep))
  {
    if |es| > 0 {
      var head, tail := es[0], es[1..];
      assert UniqueKeys(tail) by {
        forall i, j | 0 <= i < j < |tail| ensures tail[i].0 != tail[j].0 {
          assert tail[i] == es[i + 1] && tail[j] == es[j + 1];
        }
      }
      FilterUnique(tail, keep);
      if keep(head.0) {
        var rest := Filter(tail, keep);
        var r := [head] + rest;
        HeadKeyNotInTail(es);
        FilterKeys(tail, keep);
        assert head.0 !in Keys(rest);
        forall i, j | 0 <= i < j < |r|
          ensures r[i].0 != r[j].0
        {
          assert r[j] == rest[j - 1];
          if i > 0 {
            assert r[i] == rest[i - 1];
          } else {
            assert r[j].0 in Keys(rest);
          }
        }
      }
    }
  }

  /** `a` occurs in `s` at some position strictly before an occurrence of `b`. */
  ghost predicate Precedes<T>(s: seq<T>, a: T, b: T)
  {
    exists p, q :: 0 <= p < q < |s| && s[p] == a && s[q] == b
  }

  lemma PrecedesInTail<T>(s: seq<T>, a: T, b: T)
    requires |s| > 0 && Precedes(s[1..], a, b)
    ensures Precedes(s, a, b)
  {
    var p, q :| 0 <= p < q < |s[1..]| && s[1..][p] == a && s[1..][q] == b;
    assert s[p + 1] == a && s[q + 1] == b;
  }

  /** Filtering keeps the surviving entries in their original relative order. */
  lemma {:induction false} FilterOrder<V>(es: Entries<V>, keep: string -> bool)
    ensures forall i, j :: 0 <= i < j < |Filter(es, keep)| ==> Precedes(es, Filter(es, keep)[i], Filter(es, keep)[j])
  {
    if |es| > 0 {
      var tail := es[1..];
      var rest := Filter(tail, keep);
      FilterOrder(tail, keep);
      FilterMembers(tail, keep);
      var r := Filter(es, keep);
      forall i, j | 0 <= i < j < |r|
        ensures Precedes(es, r[i], r[j])
      {
        if keep(es[0].0) {
          assert r[j] == rest[j - 1];
          if i > 0 {
            assert r[i] == rest[i - 1];
            PrecedesInTail(es, r[i], r[j]);
          } else {
            assert r[j] in tail;
            var q :| 0 <= q < |tail| && tail[q] == r[j];
            assert es[0] == r[i] && es[q + 1] == r[j];
          }
        } else {
          PrecedesInTail(es, r[i], r[j]);
        }
      }
    }
  }
}
