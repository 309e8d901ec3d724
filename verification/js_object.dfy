/**
 * Plain JavaScript objects used as records: an ordered list of properties, in
 * insertion order, which is the order `Object.entries` reports them in.
 * `Set` is a property assignment (`{ ...obj, [key]: v }`), `Spread` the object
 * spread `{ ...a, ...b }` and `FromEntries` is `Object.fromEntries`.
 */
module JsObject {
  import opened Wrappers

  datatype Prop<V> = Prop(key: string, value: V)

  function Keys<V>(obj: seq<Prop<V>>): seq<string> {
    seq(|obj|, i requires 0 <= i < |obj| => obj[i].key)
  }

  ghost predicate DistinctKeys<V>(obj: seq<Prop<V>>) {
    forall i, j :: 0 <= i < j < |obj| ==> obj[i].key != obj[j].key
  }

  /** `obj[key]`: the property's value, or `undefined` when there is none. */
  function Get<V>(obj: seq<Prop<V>>, key: string): (r: Option<V>)
    ensures r.None? <==> key !in Keys(obj)
    ensures r.Some? ==> Prop(key, r.value) in obj
  {
    if |obj| == 0 then None
    else if obj[0].key == key then
      assert Keys(obj)[0] == key;
      Some(obj[0].value)
    else
      assert Keys(obj) == [obj[0].key] + Keys(obj[1..]);
      Get(obj[1..], key)
  }

  /** In an object with distinct keys, reading the key at position `i` gives the value there. */
  lemma {:induction false} GetAt<V>(obj: seq<Prop<V>>, i: nat)
    requires DistinctKeys(obj) && i < |obj|
    ensures Get(obj, obj[i].key) == Some(obj[i].value)
  {
    if i > 0 {
      GetAt(obj[1..], i - 1);
    }
  }

  /** Assigning `obj[key] = v`: an existing property keeps its place, a new one goes last. */
  function Set<V>(obj: seq<Prop<V>>, key: string, v: V): seq<Prop<V>> {
    if |obj| == 0 then [Prop(key, v)]
    else if obj[0].key == key then [Prop(key, v)] + obj[1..]
    else [obj[0]] + Set(obj[1..], key, v)
  }

  /** `{ ...a, ...b }`: the properties of `b`, in order, assigned onto a copy of `a`. */
  function Spread<V>(a: seq<Prop<V>>, b: seq<Prop<V>>): seq<Prop<V>>
    decreases |b|
  {
    if |b| == 0 then a else Spread(Set(a, b[0].key, b[0].value), b[1..])
  }

  /** `Object.fromEntries(entries)`. */
  function FromEntries<V>(entries: seq<Prop<V>>): seq<Prop<V>> {
    Spread([], entries)
  }

  /** After an assignment, reading the assigned key gives the new value and every other key is unchanged. */
  lemma {:induction false} GetSet<V>(obj: seq<Prop<V>>, key: string, v: V, k: string)
    ensures Get(Set(obj, key, v), k) == if k == key then Some(v) else Get(obj, k)
  {
    if |obj| > 0 && obj[0].key != key {
      GetSet(obj[1..], key, v, k);
    }
  }

  /** An assignment keeps the key order; a new key is appended; keys stay distinct. */
  lemma {:induction false} KeysSet<V>(obj: seq<Prop<V>>, key: string, v: V)
    ensures key in Keys(obj) ==> Keys(Set(obj, key, v)) == Keys(obj)
    ensures key !in Keys(obj) ==> Set(obj, key, v) == obj + [Prop(key, v)]
    ensures DistinctKeys(obj) ==> DistinctKeys(Set(obj, key, v))
  {
    if |obj| > 0 {
      assert Keys(obj) == [obj[0].key] + Keys(obj[1..]);
      if obj[0].key != key {
        KeysSet(obj[1..], key, v);
        var rest := Set(obj[1..], key, v);
        assert Keys([obj[0]] + rest) == [obj[0].key] + Keys(rest);
        if DistinctKeys(obj) {
          assert obj[0].key !in Keys(obj[1..]);
          assert obj[0].key !in Keys(rest) by {
            if key in Keys(obj[1..]) {
            } else {
              assert Keys(rest) == Keys(obj[1..]) + [key];
            }
          }
          forall i, j | 0 <= i < j < |[obj[0]] + rest|
            ensures ([obj[0]] + rest)[i].key != ([obj[0]] + rest)[j].key
          {
            if i == 0 {
              assert rest[j - 1].key == Keys(rest)[j - 1];
            }
          }
        }
      } else {
        assert Keys(Set(obj, key, v)) == [key] + Keys(obj[1..]);
      }
    }
  }

  /** Reading a spread: a key of `b` gives `b`'s value, any other key `a`'s. */
  lemma {:induction false} GetSpread<V>(a: seq<Prop<V>>, b: seq<Prop<V>>, k: string)
    requires DistinctKeys(b)
    ensures Get(Spread(a, b), k) == if Get(b, k).Some? then Get(b, k) else Get(a, k)
    decreases |b|
  {
    if |b| > 0 {
      var a' := Set(a, b[0].key, b[0].value);
      assert DistinctKeys(b[1..]);
      GetSpread(a', b[1..], k);
      GetSet(a, b[0].key, b[0].value, k);
      if k == b[0].key {
        assert k !in Keys(b[1..]);
      }
    }
  }

  /** Spreading only keys `a` already has keeps `a`'s keys and their order. */
  lemma {:induction false} KeysSpread<V>(a: seq<Prop<V>>, b: seq<Prop<V>>)
    requires forall i :: 0 <= i < |b| ==> b[i].key in Keys(a)
    ensures Keys(Spread(a, b)) == Keys(a)
    decreases |b|
  {
    if |b| > 0 {
      KeysSet(a, b[0].key, b[0].value);
      KeysSpread(Set(a, b[0].key, b[0].value), b[1..]);
    }
  }

  /** Spreading properties whose keys are new and distinct appends them in order. */
  lemma {:induction false} SpreadFresh<V>(a: seq<Prop<V>>, b: seq<Prop<V>>)
    requires DistinctKeys(a + b)
    ensures Spread(a, b) == a + b
    decreases |b|
  {
    if |b| > 0 {
      assert b[0].key !in Keys(a) by {
        assert forall i :: 0 <= i < |a| ==> Keys(a)[i] == (a + b)[i].key != (a + b)[|a|].key;
      }
      KeysSet(a, b[0].key, b[0].value);
      assert a + b == (a + [b[0]]) + b[1..];
      SpreadFresh(a + [b[0]], b[1..]);
    }
  }

  /** `Object.fromEntries` of entries with distinct keys is those entries, in order. */
  lemma FromDistinctEntries<V>(entries: seq<Prop<V>>)
    requires DistinctKeys(entries)
    ensures FromEntries(entries) == entries
  {
    assert [] + entries == entries;
    SpreadFresh([], entries);
  }
}
