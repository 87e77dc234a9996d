/**
 * The JSON-shaped data the pipeline passes around: records decoded from the
 * generation service or from the saved artifacts, and Python dictionaries,
 * which keep their keys in insertion order.
 */
module JsonData {
  import opened Wrappers

  /** One element of a company or brand list: a JSON object with text fields,
      or any other JSON value (which the flattener skips). */
  datatype Entry = Obj(fields: map<string, string>) | NonObj

  /** Python's `record.get(key, "")`. */
  function Field(fields: map<string, string>, key: string): string {
    if key in fields then fields[key] else ""
  }

  datatype Pair<V> = Pair(key: string, value: V)

  /** A Python `dict` keyed by strings, as its items in insertion order. */
  type Dict<V> = seq<Pair<V>>

  function Keys<V>(d: Dict<V>): seq<string> {
    seq(|d|, i requires 0 <= i < |d| => d[i].key)
  }

  lemma KeysCons<V>(d: Dict<V>)
    requires d != []
    ensures Keys(d) == [d[0].key] + Keys(d[1..])
  {
  }

  lemma KeysSnoc<V>(d: Dict<V>, p: Pair<V>)
    ensures Keys(d + [p]) == Keys(d) + [p.key]
  {
  }

  predicate Distinct(ks: seq<string>) {
    forall i, j :: 0 <= i < j < |ks| ==> ks[i] != ks[j]
  }

  /** Every key of a Python dict is present once. */
  predicate UniqueKeys<V>(d: Dict<V>) {
    Distinct(Keys(d))
  }

  /** Python's `d.get(k)`. */
  function Get<V>(d: Dict<V>, k: string): (r: Option<V>)
    ensures r.None? <==> k !in Keys(d)
    ensures r.Some? ==> Pair(k, r.value) in d
  {
    if d == [] then None
    else
      KeysCons(d);
      if d[0].key == k then Some(d[0].value)
      else Get(d[1..], k)
  }

  /** The value stored under the key at position `i` of a dict with unique keys. */
  lemma {:induction false} GetAt<V>(d: Dict<V>, i: nat)
    requires UniqueKeys(d) && i < |d|
    ensures Get(d, d[i].key) == Some(d[i].value)
  {
    if i > 0 {
      assert Keys(d)[0] != Keys(d)[i];
      KeysCons(d);
      assert Keys(d[1..]) == Keys(d)[1..];
      assert UniqueKeys(d[1..]);
      GetAt(d[1..], i - 1);
    }
  }

  /** Python's `d[k] = v`: an existing key keeps its position and takes the new
      value; a new key is appended at the end. */
  function Put<V>(d: Dict<V>, k: string, v: V): (r: Dict<V>)
    ensures Keys(r) == if k in Keys(d) then Keys(d) else Keys(d) + [k]
  {
    if d == [] then [Pair(k, v)]
    else
      KeysCons(d);
      if d[0].key == k then
        var r := [Pair(k, v)] + d[1..];
        assert r[1..] == d[1..];
        KeysCons(r);
        r
      else
        var rest := Put(d[1..], k, v);
        var r := [d[0]] + rest;
        assert r[1..] == rest;
        KeysCons(r);
        r
  }

  /** After `d[k] = v`, `k` holds `v` and every other key holds what it held before. */
  lemma {:induction false} GetPut<V>(d: Dict<V>, k: string, v: V, k': string)
    ensures Get(Put(d, k, v), k') == if k' == k then Some(v) else Get(d, k')
  {
    if d != [] && d[0].key != k {
      GetPut(d[1..], k, v, k');
      assert Put(d, k, v)[1..] == Put(d[1..], k, v);
    } else if d != [] {
      assert Put(d, k, v)[1..] == d[1..];
    }
  }

  /** Python's `d = {}; for k, v in pairs: d[k] = v`. */
  function FromPairs<V>(pairs: seq<Pair<V>>): Dict<V> {
    if pairs == [] then []
    else Put(FromPairs(pairs[..|pairs| - 1]), pairs[|pairs| - 1].key, pairs[|pairs| - 1].value)
  }

  /** One more assignment after the others. */
  lemma FromPairsSnoc<V>(pairs: seq<Pair<V>>, p: Pair<V>)
    ensures FromPairs(pairs + [p]) == Put(FromPairs(pairs), p.key, p.value)
  {
    assert (pairs + [p])[..|pairs|] == pairs;
  }

  /** The assignments up to position `i` are those before it followed by the `i`-th. */
  lemma FromPairsPrefix<V>(pairs: seq<Pair<V>>, i: nat)
    requires i < |pairs|
    ensures FromPairs(pairs[..i + 1]) == Put(FromPairs(pairs[..i]), pairs[i].key, pairs[i].value)
  {
    assert pairs[..i + 1][..i] == pairs[..i];
  }

  /** Assigning into a dict keeps its keys unique. */
  lemma PutUnique<V>(d: Dict<V>, k: string, v: V)
    requires UniqueKeys(d)
    ensures UniqueKeys(Put(d, k, v))
  {
  }

  /** Building a dict from pairs: its keys are unique and are exactly the keys of the
      pairs, and each key holds the value of its last pair. */
  lemma {:induction false} FromPairsProperties<V>(pairs: seq<Pair<V>>)
    ensures UniqueKeys(FromPairs(pairs))
    ensures forall k :: k in Keys(FromPairs(pairs)) <==> k in Keys(pairs)
    ensures forall i :: 0 <= i < |pairs| && (forall j :: i < j < |pairs| ==> pairs[j].key != pairs[i].key) ==>
              Get(FromPairs(pairs), pairs[i].key) == Some(pairs[i].value)
  {
    if pairs != [] {
      var n := |pairs| - 1;
      var init := pairs[..n];
      var last := pairs[n];
      FromPairsProperties(init);
      var d := FromPairs(init);
      assert FromPairs(pairs) == Put(d, last.key, last.value);
      PutUnique(d, last.key, last.value);
      assert pairs == init + [last];
      KeysSnoc(init, last);
      forall i | 0 <= i < |pairs| && (forall j :: i < j < |pairs| ==> pairs[j].key != pairs[i].key)
        ensures Get(FromPairs(pairs), pairs[i].key) == Some(pairs[i].value)
      {
        GetPut(d, last.key, last.value, pairs[i].key);
        if i < n {
          assert init[i] == pairs[i];
          assert forall j :: i < j < |init| ==> init[j].key != init[i].key;
        }
      }
    }
  }

  /** Assigning a key the dict does not hold appends it. */
  lemma {:induction false} AppendNewKey<V>(d: Dict<V>, k: string, v: V)
    requires k !in Keys(d)
    ensures Put(d, k, v) == d + [Pair(k, v)]
  {
    if d != [] {
      KeysCons(d);
      AppendNewKey(d[1..], k, v);
      assert [d[0]] + (d[1..] + [Pair(k, v)]) == d + [Pair(k, v)];
    }
  }

  /** Pairs with distinct keys build the dict that lists exactly those pairs, in order. */
  lemma {:induction false} FromDistinctPairs<V>(pairs: seq<Pair<V>>)
    requires Distinct(Keys(pairs))
    ensures FromPairs(pairs) == pairs
  {
    if pairs != [] {
      var n := |pairs| - 1;
      var init := pairs[..n];
      assert pairs == init + [pairs[n]];
      KeysSnoc(init, pairs[n]);
      assert Keys(init) == Keys(pairs)[..n];
      assert pairs[n].key == Keys(pairs)[n];
      FromDistinctPairs(init);
      AppendNewKey(init, pairs[n].key, pairs[n].value);
    }
  }
}
