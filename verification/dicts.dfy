/**
 * Python dictionaries keyed by names. Iteration follows insertion order;
 * assigning to an existing key keeps its position, a new key goes last and
 * `pop` removes the key (raising `KeyError` when it is absent).
 */
module Dicts {
  import opened Wrappers

  datatype Dict<V> = Dict(items: seq<(string, V)>)

  function Empty<V>(): Dict<V> { Dict([]) }

  function KeysOf<V>(items: seq<(string, V)>): (r: seq<string>)
    ensures |r| == |items|
    ensures forall i :: 0 <= i < |items| ==> r[i] == items[i].0
  {
    if items == [] then [] else [items[0].0] + KeysOf(items[1..])
  }

  function ValuesOf<V>(items: seq<(string, V)>): (r: seq<V>)
    ensures |r| == |items|
    ensures forall i :: 0 <= i < |items| ==> r[i] == items[i].1
  {
    if items == [] then [] else [items[0].1] + ValuesOf(items[1..])
  }

  /** `d.keys()`, in iteration order */
  function Keys<V>(d: Dict<V>): seq<string> { KeysOf(d.items) }

  /** `d.values()`, in iteration order */
  function Values<V>(d: Dict<V>): seq<V> { ValuesOf(d.items) }

  predicate HasKey<V>(d: Dict<V>, k: string) { k in Keys(d) }

  predicate NoDuplicates(s: seq<string>)
  {
    forall i, j :: 0 <= i < j < |s| ==> s[i] != s[j]
  }

  /** The keys of `items` are distinct: the items come from one dictionary. */
  predicate DistinctKeys<V>(items: seq<(string, V)>)
  {
    forall i, j :: 0 <= i < j < |items| ==> items[i].0 != items[j].0
  }

  /** The entries after the first have distinct keys, none of them the first's. */
  lemma DistinctKeysTail<V>(items: seq<(string, V)>)
    requires items != [] && DistinctKeys(items)
    ensures DistinctKeys(items[1..])
    ensures forall l :: 0 <= l < |items[1..]| ==> items[1..][l].0 != items[0].0
  {
    forall i, j | 0 <= i < j < |items[1..]| ensures items[1..][i].0 != items[1..][j].0 {
      assert items[1..][i] == items[i + 1] && items[1..][j] == items[j + 1];
    }
  }

  /** Every dictionary psymple builds has distinct keys. */
  predicate Valid<V>(d: Dict<V>) { NoDuplicates(Keys(d)) }

  function GetIn<V>(items: seq<(string, V)>, k: string): (r: Option<V>)
    ensures r.Some? <==> k in KeysOf(items)
  {
    if items == [] then None
    else if items[0].0 == k then Some(items[0].1)
    else GetIn(items[1..], k)
  }

  /** `d.get(k)`: `None` when `k` is absent */
  function Get<V>(d: Dict<V>, k: string): Option<V> { GetIn(d.items, k) }

  function PutIn<V>(items: seq<(string, V)>, k: string, v: V): (r: seq<(string, V)>)
    ensures GetIn(r, k) == Some(v)
    ensures forall k' :: k' != k ==> GetIn(r, k') == GetIn(items, k')
    ensures KeysOf(r) == if k in KeysOf(items) then KeysOf(items) else KeysOf(items) + [k]
  {
    if items == [] then [(k, v)]
    else if items[0].0 == k then
      PutInHead(items, v);
      [(k, v)] + items[1..]
    else
      var rest := PutIn(items[1..], k, v);
      PutInCons(items, k, v, rest);
      [items[0]] + rest
  }

  /** Replacing the value of the first key. */
  lemma PutInHead<V>(items: seq<(string, V)>, v: V)
    requires items != []
    ensures var k := items[0].0; var r := [(k, v)] + items[1..];
            GetIn(r, k) == Some(v)
            && (forall k' :: k' != k ==> GetIn(r, k') == GetIn(items, k'))
            && KeysOf(r) == KeysOf(items)
  {
    var r := [(items[0].0, v)] + items[1..];
    assert r[1..] == items[1..];
  }

  /** Keeping the first entry in front of the rest's update. */
  lemma PutInCons<V>(items: seq<(string, V)>, k: string, v: V, rest: seq<(string, V)>)
    requires items != [] && items[0].0 != k
    requires GetIn(rest, k) == Some(v)
    requires forall k' :: k' != k ==> GetIn(rest, k') == GetIn(items[1..], k')
    requires KeysOf(rest) == if k in KeysOf(items[1..]) then KeysOf(items[1..]) else KeysOf(items[1..]) + [k]
    ensures var r := [items[0]] + rest;
            GetIn(r, k) == Some(v)
            && (forall k' :: k' != k ==> GetIn(r, k') == GetIn(items, k'))
            && KeysOf(r) == if k in KeysOf(items) then KeysOf(items) else KeysOf(items) + [k]
  {
    var r := [items[0]] + rest;
    assert r[1..] == rest;
    assert KeysOf(r) == [items[0].0] + KeysOf(rest);
    assert KeysOf(items) == [items[0].0] + KeysOf(items[1..]);
    assert k in KeysOf(items) <==> k in KeysOf(items[1..]);
    if k !in KeysOf(items) {
      assert [items[0].0] + (KeysOf(items[1..]) + [k]) == KeysOf(items) + [k];
    }
  }

  /** `d[k] = v` */
  function Put<V>(d: Dict<V>, k: string, v: V): Dict<V> { Dict(PutIn(d.items, k, v)) }

  function RemoveIn<V>(items: seq<(string, V)>, k: string): (r: seq<(string, V)>)
    ensures k !in KeysOf(r)
    ensures forall k' :: k' != k ==> GetIn(r, k') == GetIn(items, k')
    ensures forall k' :: k' in KeysOf(r) ==> k' in KeysOf(items)
    ensures |r| <= |items|
  {
    if items == [] then []
    else
      var rest := RemoveIn(items[1..], k);
      if items[0].0 == k then rest
      else
        assert KeysOf([items[0]] + rest) == [items[0].0] + KeysOf(rest);
        [items[0]] + rest
  }

  /** `d.pop(k)`: the value at `k` and the dictionary without `k`; `KeyError` when absent */
  function Pop<V>(d: Dict<V>, k: string): Result<(V, Dict<V>)>
  {
    match Get(d, k)
    case None => Err(KeyError)
    case Some(v) => Ok((v, Dict(RemoveIn(d.items, k))))
  }

  /** After `pop(k)`, the keys left are the other keys the dictionary had. */
  lemma PopKeys<V>(d: Dict<V>, k: string)
    requires Pop(d, k).Ok?
    ensures HasKey(d, k)
    ensures forall k' :: HasKey(Pop(d, k).value.1, k') ==> HasKey(d, k') && k' != k
  {
  }

  /** `d.update(e)` for a sequence of entries, assigned one after another */
  function UpdateAll<V>(d: Dict<V>, entries: seq<(string, V)>): Dict<V>
    decreases |entries|
  {
    if entries == [] then d else UpdateAll(Put(d, entries[0].0, entries[0].1), entries[1..])
  }

  /** A dictionary with the same keys, each value transformed by `f` */
  function MapValues<V>(d: Dict<V>, f: V -> V): (r: Dict<V>)
    ensures Keys(r) == Keys(d)
    ensures |r.items| == |d.items|
    ensures forall i :: 0 <= i < |d.items| ==> r.items[i] == (d.items[i].0, f(d.items[i].1))
    decreases |d.items|
  {
    if d.items == [] then d
    else
      var rest := MapValues(Dict(d.items[1..]), f);
      Dict([(d.items[0].0, f(d.items[0].1))] + rest.items)
  }

  /** `dict(items)` built by assigning the entries one after another */
  function FromItems<V>(entries: seq<(string, V)>): Dict<V>
  {
    UpdateAll(Empty(), entries)
  }

  /** Assigning a key keeps the keys distinct. */
  lemma {:induction false} PutValid<V>(d: Dict<V>, k: string, v: V)
    requires Valid(d)
    ensures Valid(Put(d, k, v))
  {
    var ks := Keys(d);
    if k !in ks {
      assert Keys(Put(d, k, v)) == ks + [k];
      forall i, j | 0 <= i < j < |ks + [k]| ensures (ks + [k])[i] != (ks + [k])[j] {
        if j == |ks| {
          assert (ks + [k])[i] == ks[i];
        }
      }
    }
  }

  /** Updating keeps the keys distinct. */
  lemma {:induction false} UpdateAllValid<V>(d: Dict<V>, entries: seq<(string, V)>)
    requires Valid(d)
    ensures Valid(UpdateAll(d, entries))
    decreases |entries|
  {
    if entries != [] {
      PutValid(d, entries[0].0, entries[0].1);
      UpdateAllValid(Put(d, entries[0].0, entries[0].1), entries[1..]);
    }
  }

  /** The value at a key after `MapValues` is the transformed value at that key. */
  lemma {:induction false} GetMapValues<V>(d: Dict<V>, f: V -> V, k: string)
    ensures Get(MapValues(d, f), k) == if Get(d, k).Some? then Some(f(Get(d, k).value)) else None
    decreases |d.items|
  {
    if d.items != [] {
      var rest := MapValues(Dict(d.items[1..]), f);
      var r := MapValues(d, f);
      assert r.items[1..] == rest.items;
      GetMapValues(Dict(d.items[1..]), f, k);
    }
  }

  /** A property of every key and its value survives assigning entries that have it. */
  lemma {:induction false} UpdateAllKeeps<V>(d: Dict<V>, entries: seq<(string, V)>, p: (string, V) -> bool)
    requires forall k :: HasKey(d, k) ==> p(k, Get(d, k).value)
    requires forall i :: 0 <= i < |entries| ==> p(entries[i].0, entries[i].1)
    ensures forall k :: HasKey(UpdateAll(d, entries), k) ==> p(k, Get(UpdateAll(d, entries), k).value)
    decreases |entries|
  {
    if entries != [] {
      var d' := Put(d, entries[0].0, entries[0].1);
      forall k | HasKey(d', k) ensures p(k, Get(d', k).value) {
        if k != entries[0].0 {
          assert HasKey(d, k);
        }
      }
      assert forall i :: 0 <= i < |entries[1..]| ==> entries[1..][i] == entries[i + 1];
      UpdateAllKeeps(d', entries[1..], p);
    }
  }

  /** The value found at a key is one of the stored values. */
  lemma {:induction false} GetInWitness<V>(items: seq<(string, V)>, k: string) returns (i: nat)
    requires k in KeysOf(items)
    ensures i < |items| && items[i].0 == k && GetIn(items, k) == Some(items[i].1)
    decreases |items|
  {
    if items[0].0 == k {
      i := 0;
    } else {
      assert KeysOf(items) == [items[0].0] + KeysOf(items[1..]);
      var j := GetInWitness(items[1..], k);
      i := j + 1;
    }
  }

  /** `d[k] = v` keeps every key and adds `k`. */
  lemma PutHasKeys<V>(d: Dict<V>, k: string, v: V)
    ensures HasKey(Put(d, k, v), k)
    ensures forall k' :: HasKey(d, k') ==> HasKey(Put(d, k, v), k')
  {
  }

  /** `d[k] = v` seen from one key `k'`. */
  lemma PutAt<V>(d: Dict<V>, k: string, v: V, k': string)
    ensures HasKey(Put(d, k, v), k') <==> HasKey(d, k') || k' == k
    ensures Get(Put(d, k, v), k') == if k' == k then Some(v) else Get(d, k')
  {
  }

  /** Assigning entries keeps every key and adds each entry's key. */
  lemma {:induction false} UpdateAllHasKeys<V>(d: Dict<V>, entries: seq<(string, V)>)
    ensures forall k :: HasKey(d, k) ==> HasKey(UpdateAll(d, entries), k)
    ensures forall i :: 0 <= i < |entries| ==> HasKey(UpdateAll(d, entries), entries[i].0)
    decreases |entries|
  {
    if entries != [] {
      var d' := Put(d, entries[0].0, entries[0].1);
      PutHasKeys(d, entries[0].0, entries[0].1);
      UpdateAllHasKeys(d', entries[1..]);
      var r := UpdateAll(d, entries);
      assert r == UpdateAll(d', entries[1..]);
      forall i | 0 <= i < |entries| ensures HasKey(r, entries[i].0) {
        if i > 0 {
          assert entries[i] == entries[1..][i - 1];
        }
      }
    }
  }

  /** Every entry after `d[k] = v` is the new one or an old one. */
  lemma {:induction false} PutInItems<V>(items: seq<(string, V)>, k: string, v: V)
    ensures forall x :: x in PutIn(items, k, v) ==> x == (k, v) || x in items
    decreases |items|
  {
    if items != [] && items[0].0 != k {
      PutInItems(items[1..], k, v);
      assert PutIn(items, k, v) == [items[0]] + PutIn(items[1..], k, v);
    }
  }

  /** Removing a key keeps only old entries. */
  lemma {:induction false} RemoveInItems<V>(items: seq<(string, V)>, k: string)
    ensures forall x :: x in RemoveIn(items, k) ==> x in items
    decreases |items|
  {
    if items != [] {
      RemoveInItems(items[1..], k);
    }
  }

  /** Every entry after assigning entries is an old one or one of the entries. */
  lemma {:induction false} UpdateAllItems<V>(d: Dict<V>, entries: seq<(string, V)>)
    ensures forall x :: x in UpdateAll(d, entries).items ==> x in d.items || x in entries
    decreases |entries|
  {
    if entries != [] {
      PutInItems(d.items, entries[0].0, entries[0].1);
      UpdateAllItems(Put(d, entries[0].0, entries[0].1), entries[1..]);
    }
  }

  /** Distinct keys, stated on the keys or on the items, are the same thing. */
  lemma DistinctKeysOf<V>(items: seq<(string, V)>)
    ensures NoDuplicates(KeysOf(items)) <==> DistinctKeys(items)
  {
    var keys := KeysOf(items);
    assert forall i :: 0 <= i < |items| ==> keys[i] == items[i].0;
  }
}
