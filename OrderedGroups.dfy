/** Python's insertion-ordered dictionary of lists, filled by
    `d.setdefault(key, []).append(value)` (or the equivalent
    `if key not in d: d[key] = []` followed by `d[key].append(value)`). */
module OrderedGroups {

  /** One appended value and the key it goes under */
  datatype Entry<V> = Entry(key: string, value: V)

  /** The dictionary: its keys in insertion order, and the lists */
  datatype Groups<V> = Groups(keys: seq<string>, values: map<string, seq<V>>)

  function Empty<V>(): Groups<V>
  {
    Groups([], map[])
  }

  /** Append one value under its key; a new key goes to the end of the key order. */
  function Add<V>(g: Groups<V>, e: Entry<V>): Groups<V>
  {
    if e.key in g.values then Groups(g.keys, g.values[e.key := g.values[e.key] + [e.value]])
    else Groups(g.keys + [e.key], g.values[e.key := [e.value]])
  }

  /** The dictionary built by appending the entries in order */
  function Collect<V>(es: seq<Entry<V>>): Groups<V>
    decreases |es|
  {
    if |es| == 0 then Empty() else Add(Collect(es[..|es| - 1]), es[|es| - 1])
  }

  function KeysOf<V>(es: seq<Entry<V>>): (r: seq<string>)
    ensures |r| == |es|
    ensures forall i :: 0 <= i < |es| ==> r[i] == es[i].key
  {
    seq(|es|, i requires 0 <= i < |es| => es[i].key)
  }

  /** The distinct elements of `s`, in order of first appearance */
  function Distinct(s: seq<string>): seq<string>
    decreases |s|
  {
    if |s| == 0 then []
    else
      var n := |s| - 1;
      Distinct(s[..n]) + (if s[n] in s[..n] then [] else [s[n]])
  }

  predicate NoDuplicates(s: seq<string>)
  {
    forall i, j :: 0 <= i < j < |s| ==> s[i] != s[j]
  }

  /** The values listed under `k`, in order */
  function ValuesFor<V>(es: seq<Entry<V>>, k: string): seq<V>
    decreases |es|
  {
    if |es| == 0 then []
    else
      var n := |es| - 1;
      ValuesFor(es[..n], k) + (if es[n].key == k then [es[n].value] else [])
  }

  /** `Distinct` keeps each element once and loses none. */
  lemma {:induction false} DistinctSpec(s: seq<string>)
    decreases |s|
    ensures NoDuplicates(Distinct(s))
    ensures forall x :: x in Distinct(s) <==> x in s
  {
    if |s| > 0 {
      var n := |s| - 1;
      DistinctSpec(s[..n]);
      assert s == s[..n] + [s[n]];
    }
  }

  /** The dictionary holds exactly the keys of the entries, in order of first
      appearance, and under each key the values appended with it, in order. */
  lemma CollectSpec<V>(es: seq<Entry<V>>)
    ensures Collect(es).keys == Distinct(KeysOf(es))
    ensures forall k :: k in Collect(es).values <==> k in KeysOf(es)
    ensures forall k :: k in Collect(es).values ==> Collect(es).values[k] == ValuesFor(es, k)
  {
    CollectOrder(es);
    CollectValues(es);
  }

  /** The keys of the entries one more entry extends */
  lemma KeysOfSnoc<V>(es: seq<Entry<V>>)
    requires |es| > 0
    ensures KeysOf(es)[..|es| - 1] == KeysOf(es[..|es| - 1])
    ensures KeysOf(es) == KeysOf(es[..|es| - 1]) + [es[|es| - 1].key]
  {
  }

  /** The keys, in order of first appearance, and which keys have a list */
  lemma {:induction false} CollectOrder<V>(es: seq<Entry<V>>)
    decreases |es|
    ensures Collect(es).keys == Distinct(KeysOf(es))
    ensures forall k :: k in Collect(es).values <==> k in KeysOf(es)
  {
    if |es| > 0 {
      var n := |es| - 1;
      CollectOrder(es[..n]);
      KeysOfSnoc(es);
    }
  }

  /** The list under each key */
  lemma {:induction false} CollectValues<V>(es: seq<Entry<V>>)
    decreases |es|
    ensures forall k :: k in Collect(es).values ==> Collect(es).values[k] == ValuesFor(es, k)
  {
    if |es| > 0 {
      var n := |es| - 1;
      var g := Collect(es[..n]);
      CollectValues(es[..n]);
      CollectOrder(es[..n]);
      forall k | k in Collect(es).values
        ensures Collect(es).values[k] == ValuesFor(es, k)
      {
        assert ValuesFor(es, k) == ValuesFor(es[..n], k) + (if es[n].key == k then [es[n].value] else []);
        if k != es[n].key {
          assert Collect(es).values[k] == g.values[k];
        } else if k in g.values {
          assert Collect(es).values[k] == g.values[k] + [es[n].value];
        } else {
          ValuesForNone(es[..n], k);
        }
      }
    }
  }

  lemma {:induction false} ValuesForNone<V>(es: seq<Entry<V>>, k: string)
    requires k !in KeysOf(es)
    decreases |es|
    ensures ValuesFor(es, k) == []
  {
    if |es| > 0 {
      var n := |es| - 1;
      assert KeysOf(es[..n]) == KeysOf(es)[..n];
      ValuesForNone(es[..n], k);
    }
  }

  /** Every key of the dictionary has a list. */
  lemma CollectKeys<V>(es: seq<Entry<V>>)
    ensures NoDuplicates(Collect(es).keys)
    ensures forall k :: k in Collect(es).keys <==> k in Collect(es).values
  {
    CollectSpec(es);
    DistinctSpec(KeysOf(es));
  }

  /** A value is listed under `k` exactly when some entry carries both. */
  lemma {:induction false} ValuesForMember<V>(es: seq<Entry<V>>, k: string, v: V)
    decreases |es|
    ensures v in ValuesFor(es, k) <==> Entry(k, v) in es
  {
    if |es| > 0 {
      var n := |es| - 1;
      ValuesForMember(es[..n], k, v);
      assert es == es[..n] + [es[n]];
    }
  }

  lemma {:induction false} ValuesForAppend<V>(a: seq<Entry<V>>, b: seq<Entry<V>>, k: string)
    decreases |b|
    ensures ValuesFor(a + b, k) == ValuesFor(a, k) + ValuesFor(b, k)
  {
    if |b| > 0 {
      var n := |b| - 1;
      ValuesForAppend(a, b[..n], k);
      assert (a + b)[..|a + b| - 1] == a + b[..n];
    } else {
      assert a + b == a;
    }
  }

  /** Collecting one more entry is one more `Add`. */
  lemma CollectSnoc<V>(es: seq<Entry<V>>, e: Entry<V>)
    ensures Collect(es + [e]) == Add(Collect(es), e)
  {
    assert (es + [e])[..|es|] == es;
  }

  /** The number of values listed under the given keys */
  function SizeOver<V>(keys: seq<string>, values: map<string, seq<V>>): nat
    decreases |keys|
  {
    if |keys| == 0 then 0
    else
      var n := |keys| - 1;
      SizeOver(keys[..n], values) + (if keys[n] in values then |values[keys[n]]| else 0)
  }

  lemma {:induction false} SizeOverOther<V>(keys: seq<string>, values: map<string, seq<V>>, k: string, v: seq<V>)
    requires k !in keys
    decreases |keys|
    ensures SizeOver(keys, values[k := v]) == SizeOver(keys, values)
  {
    if |keys| > 0 {
      SizeOverOther(keys[..|keys| - 1], values, k, v);
    }
  }

  lemma {:induction false} SizeOverGrow<V>(keys: seq<string>, values: map<string, seq<V>>, k: string, v: seq<V>)
    requires NoDuplicates(keys) && k in keys && k in values && |v| == |values[k]| + 1
    decreases |keys|
    ensures SizeOver(keys, values[k := v]) == SizeOver(keys, values) + 1
  {
    var n := |keys| - 1;
    if keys[n] == k {
      assert k !in keys[..n];
      SizeOverOther(keys[..n], values, k, v);
    } else {
      SizeOverGrow(keys[..n], values, k, v);
    }
  }

  /** Every entry is in exactly one list: the list sizes add up to the
      number of entries. */
  lemma {:induction false} CollectTotal<V>(es: seq<Entry<V>>)
    decreases |es|
    ensures SizeOver(Collect(es).keys, Collect(es).values) == |es|
  {
    if |es| > 0 {
      var n := |es| - 1;
      var g := Collect(es[..n]);
      CollectTotal(es[..n]);
      assert SizeOver(Add(g, es[n]).keys, Add(g, es[n]).values) == SizeOver(g.keys, g.values) + 1 by {
        CollectKeys(es[..n]);
        AddSize(g, es[n]);
      }
      assert Collect(es) == Add(g, es[n]);
    }
  }

  /** One more value makes one more listed value. */
  lemma AddSize<V>(g: Groups<V>, e: Entry<V>)
    requires NoDuplicates(g.keys)
    requires forall k :: k in g.keys <==> k in g.values
    ensures SizeOver(Add(g, e).keys, Add(g, e).values) == SizeOver(g.keys, g.values) + 1
  {
    if e.key in g.values {
      SizeOverGrow(g.keys, g.values, e.key, g.values[e.key] + [e.value]);
    } else {
      SizeOverOther(g.keys, g.values, e.key, [e.value]);
      assert (g.keys + [e.key])[..|g.keys|] == g.keys;
    }
  }
}
