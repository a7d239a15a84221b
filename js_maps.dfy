/**
 * A JavaScript `Map` keyed by strings: lookups by key plus the insertion order in which
 * `values()` enumerates the entries. Re-setting an existing key keeps its original position.
 */
module JsMaps {
  import opened Wrappers

  datatype JsMap<V> = JsMap(keys: seq<string>, entries: map<string, V>) {

    /** Keys are listed once each, and exactly the keys that have an entry are listed. */
    ghost predicate Valid() {
      && (forall i, j :: 0 <= i < j < |keys| ==> keys[i] != keys[j])
      && (forall k :: k in entries <==> k in keys)
    }

    /** `map.get(k)`, with `undefined` as `None`. */
    function Get(k: string): (r: Option<V>)
      ensures r.Some? <==> k in entries
      ensures r.Some? ==> r.value == entries[k]
    {
      if k in entries then Some(entries[k]) else None
    }

    /** `map.set(k, v)`: a new key goes to the end of the order, an old key keeps its place. */
    function Set(k: string, v: V): (m: JsMap<V>)
      requires Valid()
      ensures m.Valid()
      ensures m.Get(k) == Some(v)
      ensures forall k' :: k' != k ==> m.Get(k') == Get(k')
      ensures keys <= m.keys
      ensures |m.keys| == if k in entries then |keys| else |keys| + 1
    {
      JsMap(if k in entries then keys else keys + [k], entries[k := v])
    }

    /** `[...map.values()]`: the entries' values in key order. */
    function Values(): (r: seq<V>)
      requires Valid()
      ensures |r| == |keys|
      ensures forall i :: 0 <= i < |keys| ==> keys[i] in entries && r[i] == entries[keys[i]]
    {
      seq(|keys|, i requires 0 <= i < |keys| => entries[keys[i]])
    }
  }

  function Empty<V>(): (m: JsMap<V>)
    ensures m.Valid() && m.keys == [] && m.entries == map[]
  {
    JsMap([], map[])
  }

  /** Every value of the map is listed by `Values()`, and nothing else is. */
  lemma ValuesExactly<V>(m: JsMap<V>, v: V)
    requires m.Valid()
    ensures v in m.Values() <==> exists k :: k in m.entries && m.entries[k] == v
  {
    var vs := m.Values();
    if v in vs {
      var i :| 0 <= i < |vs| && vs[i] == v;
      assert m.keys[i] in m.entries && m.entries[m.keys[i]] == v;
    }
    if k :| k in m.entries && m.entries[k] == v {
      var i :| 0 <= i < |m.keys| && m.keys[i] == k;
      assert vs[i] == v;
    }
  }

  /** `for (const x of s) map.set(key(x), x)`, as a function of the map before the loop. */
  function SetAll<V>(m: JsMap<V>, s: seq<V>, key: V -> string): (r: JsMap<V>)
    requires m.Valid()
    ensures r.Valid()
    decreases |s|
  {
    if |s| == 0 then m
    else SetAll(m, s[..|s| - 1], key).Set(key(s[|s| - 1]), s[|s| - 1])
  }

  /** One more loop iteration: setting the next element. */
  lemma SetAllStep<V>(m: JsMap<V>, s: seq<V>, key: V -> string, i: nat)
    requires m.Valid() && i < |s|
    ensures SetAll(m, s[..i + 1], key) == SetAll(m, s[..i], key).Set(key(s[i]), s[i])
  {
    assert s[..i + 1][..i] == s[..i];
  }

  /** The loop `for (const x of s) map.set(key(x), x)` itself. */
  method SetEach<V>(m: JsMap<V>, s: seq<V>, key: V -> string) returns (r: JsMap<V>)
    requires m.Valid()
    ensures r.Valid()
    ensures r == SetAll(m, s, key)
  {
    r := m;
    for i := 0 to |s|
      invariant r.Valid()
      invariant r == SetAll(m, s[..i], key)
    {
      SetAllStep(m, s, key, i);
      r := r.Set(key(s[i]), s[i]);
    }
    assert s[..|s|] == s;
  }

  /** With duplicated keys in the input, the entry stored is the last one with that key. */
  lemma {:induction false} SetAllLastWins<V>(m: JsMap<V>, s: seq<V>, key: V -> string, i: nat)
    requires m.Valid()
    requires i < |s|
    requires forall j :: i < j < |s| ==> key(s[j]) != key(s[i])
    ensures SetAll(m, s, key).Get(key(s[i])) == Some(s[i])
  {
    if i < |s| - 1 {
      SetAllLastWins(m, s[..|s| - 1], key, i);
    }
  }

  /** A key that no element of the input carries keeps whatever the map held before. */
  lemma {:induction false} SetAllKeepsOthers<V>(m: JsMap<V>, s: seq<V>, key: V -> string, k: string)
    requires m.Valid()
    requires forall j :: 0 <= j < |s| ==> key(s[j]) != k
    ensures SetAll(m, s, key).Get(k) == m.Get(k)
  {
    if |s| > 0 {
      SetAllKeepsOthers(m, s[..|s| - 1], key, k);
    }
  }
}
