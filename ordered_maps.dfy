/**
 * JavaScript plain objects used as dictionaries: string keys kept in the
 * order in which they were first assigned, each mapped to one value.
 */
module OrderedMaps {

  datatype OMap<V> = OMap(keys: seq<string>, at: map<string, V>) {

    /** Each key is listed once, and the listed keys are exactly the stored ones. */
    ghost predicate Valid() {
      && (forall i, j :: 0 <= i < j < |keys| ==> keys[i] != keys[j])
      && (forall k :: k in at <==> k in keys)
    }

    /**
     * `obj[k] = v`: an existing key keeps its place in the order, a new key
     * is appended at the end.
     */
    function Put(k: string, v: V): (m: OMap<V>)
      ensures m.at == at[k := v]
      ensures k in at ==> m.keys == keys
      ensures k !in at ==> m.keys == keys + [k]
      ensures Valid() ==> m.Valid()
    {
      if k in at then OMap(keys, at[k := v]) else OMap(keys + [k], at[k := v])
    }

    /** `Object.entries(obj)`: the key/value pairs in key order. */
    function Entries(): (es: seq<(string, V)>)
      requires Valid()
      ensures |es| == |keys|
      ensures forall i :: 0 <= i < |es| ==> es[i].0 == keys[i] && es[i].1 == at[keys[i]]
    {
      seq(|keys|, i requires 0 <= i < |keys| => (keys[i], at[keys[i]]))
    }
  }

  /** The values stored under `keys`, measured by `value` and added up (a key without a value counts 0). */
  function SumOver<V>(keys: seq<string>, at: map<string, V>, value: V -> real): real
  {
    if keys == [] then 0.0
    else
      var k := keys[|keys| - 1];
      SumOver(keys[..|keys| - 1], at, value) + (if k in at then value(at[k]) else 0.0)
  }

  /** Storing under a key that is not listed does not change the sum. */
  lemma {:induction false} SumOverOther<V>(keys: seq<string>, at: map<string, V>, value: V -> real, k: string, v: V)
    requires k !in keys
    ensures SumOver(keys, at[k := v], value) == SumOver(keys, at, value)
  {
    if keys != [] {
      SumOverOther(keys[..|keys| - 1], at, value, k, v);
    }
  }

  /** Storing under a listed key replaces that key's share of the sum. */
  lemma {:induction false} SumOverUpdate<V>(keys: seq<string>, at: map<string, V>, value: V -> real, k: string, v: V)
    requires forall i, j :: 0 <= i < j < |keys| ==> keys[i] != keys[j]
    requires k in keys && k in at
    ensures SumOver(keys, at[k := v], value) == SumOver(keys, at, value) - value(at[k]) + value(v)
  {
    var pre := keys[..|keys| - 1];
    if keys[|keys| - 1] == k {
      assert k !in pre;
      SumOverOther(pre, at, value, k, v);
    } else {
      assert k in pre;
      SumOverUpdate(pre, at, value, k, v);
    }
  }

  /** Each stored value measured by `value`, added up in key order. */
  function Total<V>(m: OMap<V>, value: V -> real): real
  {
    SumOver(m.keys, m.at, value)
  }

  /** `obj[k] = v` replaces `k`'s share of the total (none for a new key) by `v`'s. */
  lemma PutTotal<V>(m: OMap<V>, k: string, v: V, value: V -> real)
    requires m.Valid()
    ensures Total(m.Put(k, v), value) == Total(m, value) - (if k in m.at then value(m.at[k]) else 0.0) + value(v)
  {
    if k in m.at {
      SumOverUpdate(m.keys, m.at, value, k, v);
    } else {
      SumOverOther(m.keys, m.at, value, k, v);
      assert (m.keys + [k])[..|m.keys|] == m.keys;
    }
  }

  /**
   * The key order after assigning the keys `ys`, in order, to an object whose
   * keys are `ks`: each key not yet present is appended.
   */
  function Extend(ks: seq<string>, ys: seq<string>): seq<string>
  {
    if ys == [] then ks
    else
      var prev := Extend(ks, ys[..|ys| - 1]);
      if ys[|ys| - 1] in prev then prev else prev + [ys[|ys| - 1]]
  }

  /** `obj[k] = v` orders the keys as assigning `k` alone does. */
  lemma PutKeys<V>(m: OMap<V>, k: string, v: V)
    requires m.Valid()
    ensures m.Put(k, v).keys == Extend(m.keys, [k])
  {
    assert [k][..0] == [];
  }

  /** Assigning `xs` and then `ys` orders the keys as assigning `xs + ys` does. */
  lemma {:induction false} ExtendAppend(ks: seq<string>, xs: seq<string>, ys: seq<string>)
    ensures Extend(ks, xs + ys) == Extend(Extend(ks, xs), ys)
  {
    if ys == [] {
      assert xs + ys == xs;
    } else {
      ExtendAppend(ks, xs, ys[..|ys| - 1]);
      assert (xs + ys)[..|xs + ys| - 1] == xs + ys[..|ys| - 1];
    }
  }

  /** The keys after assigning `ys` are the old keys and the keys of `ys`. */
  lemma {:induction false} ExtendElements(ks: seq<string>, ys: seq<string>)
    ensures forall x :: x in Extend(ks, ys) <==> x in ks || x in ys
  {
    if ys != [] {
      var pre := ys[..|ys| - 1];
      ExtendElements(ks, pre);
      assert ys == pre + [ys[|ys| - 1]];
    }
  }

  /** No key is listed twice. */
  ghost predicate Unique(ks: seq<string>)
  {
    forall i, j :: 0 <= i < j < |ks| ==> ks[i] != ks[j]
  }

  /** Assigning keys to an object lists no key twice. */
  lemma {:induction false} ExtendDistinct(ks: seq<string>, ys: seq<string>)
    requires Unique(ks)
    ensures Unique(Extend(ks, ys))
  {
    if ys != [] {
      var prev := Extend(ks, ys[..|ys| - 1]);
      var y := ys[|ys| - 1];
      ExtendDistinct(ks, ys[..|ys| - 1]);
      if y !in prev {
        var e := prev + [y];
        forall i, j | 0 <= i < j < |e|
          ensures e[i] != e[j]
        {
          if j == |prev| {
            assert e[i] in prev;
          } else {
            assert e[i] == prev[i] && e[j] == prev[j];
          }
        }
      }
    }
  }

  /**
   * Starting from `{}`, a key listed before another was first assigned
   * before it: every assignment of the later key is preceded by one of the
   * earlier key.
   */
  lemma {:induction false} ExtendOrder(xs: seq<string>, i: nat, j: nat, q: nat)
    requires i < j < |Extend([], xs)|
    requires q < |xs| && xs[q] == Extend([], xs)[j]
    ensures Extend([], xs)[i] in xs[..q]
  {
    var n := |xs| - 1;
    var pre := xs[..n];
    var p := Extend([], pre);
    ExtendElements([], pre);
    assert i < |p|;
    if q < n {
      assert xs[q] == pre[q];
      assert xs[q] in p;
      assert j < |p|;
      assert xs[..q] == pre[..q];
      ExtendOrder(pre, i, j, q);
    } else {
      assert xs[..q] == pre;
      assert p[i] in p;
    }
  }

  /** A fresh `{}`. */
  function Empty<V>(): (m: OMap<V>)
    ensures m.Valid() && m.at == map[]
  {
    OMap([], map[])
  }
}
