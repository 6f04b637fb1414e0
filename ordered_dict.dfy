/**
 * A Python `dict` as the script uses it: a finite map from strings whose
 * iteration order (`.items()`) is the order in which each key was first
 * inserted. Assigning to a key that is already present changes its value
 * and keeps its place.
 */
module OrderedDict {

  datatype Dict<V> = Dict(keys: seq<string>, entries: map<string, V>)

  ghost predicate Distinct(s: seq<string>)
  {
    forall i, j :: 0 <= i < j < |s| ==> s[i] != s[j]
  }

  /** The order lists every key of the map exactly once. */
  ghost predicate Valid<V>(d: Dict<V>)
  {
    && Distinct(d.keys)
    && (forall k :: k in d.entries <==> k in d.keys)
  }

  /** `{}` */
  function Empty<V>(): (d: Dict<V>)
    ensures Valid(d) && d.keys == [] && d.entries == map[]
  {
    Dict([], map[])
  }

  /** `d[k] = v` */
  function Put<V>(d: Dict<V>, k: string, v: V): (r: Dict<V>)
    ensures Valid(d) ==> Valid(r)
    ensures r.entries == d.entries[k := v]
    ensures k in d.entries ==> r.keys == d.keys
    ensures k !in d.entries ==> r.keys == d.keys + [k]
  {
    if k in d.entries then Dict(d.keys, d.entries[k := v])
    else Dict(d.keys + [k], d.entries[k := v])
  }

  /** Assigning to the same key twice leaves only the second value, in the first one's place. */
  lemma PutTwice<V>(d: Dict<V>, k: string, a: V, b: V)
    ensures Put(Put(d, k, a), k, b) == Put(d, k, b)
  {
  }

  /**
   * The concatenation, in iteration order, of `f` applied to every entry:
   * what nested `for key, value in d.items()` loops visit.
   */
  function FlatMap<V, T>(keys: seq<string>, entries: map<string, V>, f: (string, V) -> seq<T>): seq<T>
  {
    if keys == [] then []
    else
      var k := keys[|keys| - 1];
      FlatMap(keys[..|keys| - 1], entries, f) + (if k in entries then f(k, entries[k]) else [])
  }

  /** Everything FlatMap yields comes from an entry whose key is listed. */
  lemma {:induction false} FlatMapMember<V, T>(keys: seq<string>, entries: map<string, V>, f: (string, V) -> seq<T>, x: T)
    requires x in FlatMap(keys, entries, f)
    ensures exists k :: k in keys && k in entries && x in f(k, entries[k])
  {
    var k := keys[|keys| - 1];
    if x !in FlatMap(keys[..|keys| - 1], entries, f) {
      assert k in keys && k in entries && x in f(k, entries[k]);
    } else {
      FlatMapMember(keys[..|keys| - 1], entries, f, x);
      var k' :| k' in keys[..|keys| - 1] && k' in entries && x in f(k', entries[k']);
      assert k' in keys;
    }
  }

  /** Two maps that agree on the listed keys yield the same concatenation. */
  lemma {:induction false} FlatMapAgree<V, T>(keys: seq<string>, e1: map<string, V>, e2: map<string, V>, f: (string, V) -> seq<T>)
    requires forall k :: k in keys ==> (k in e1 <==> k in e2) && (k in e1 ==> e1[k] == e2[k])
    ensures FlatMap(keys, e1, f) == FlatMap(keys, e2, f)
  {
    if keys != [] {
      var pre := keys[..|keys| - 1];
      assert forall k :: k in pre ==> k in keys;
      FlatMapAgree(pre, e1, e2, f);
    }
  }

  /**
   * Changing the value of one listed key changes the concatenation, as a
   * multiset, by exactly what that key's own contribution gains.
   */
  lemma {:induction false} FlatMapUpdate<V, T>(keys: seq<string>, e1: map<string, V>, e2: map<string, V>,
                                               f: (string, V) -> seq<T>, k0: string, extra: multiset<T>)
    requires Distinct(keys) && k0 in keys && k0 in e1 && k0 in e2
    requires forall k :: k in keys && k != k0 ==> (k in e1 <==> k in e2) && (k in e1 ==> e1[k] == e2[k])
    requires multiset(f(k0, e2[k0])) == multiset(f(k0, e1[k0])) + extra
    ensures multiset(FlatMap(keys, e2, f)) == multiset(FlatMap(keys, e1, f)) + extra
  {
    var pre := keys[..|keys| - 1];
    var k := keys[|keys| - 1];
    assert forall j :: 0 <= j < |pre| ==> pre[j] == keys[j];
    if k == k0 {
      assert k0 !in pre;
      FlatMapAgree(pre, e1, e2, f);
    } else {
      assert k0 in pre;
      FlatMapUpdate(pre, e1, e2, f, k0, extra);
    }
  }

  /**
   * `d[k] = v` changes the concatenation, as a multiset, by what the new
   * value contributes beyond the old one (or all of it, for a new key).
   */
  lemma FlatMapPut<V, T>(d: Dict<V>, k: string, v: V, f: (string, V) -> seq<T>, extra: multiset<T>)
    requires Valid(d)
    requires k in d.entries ==> multiset(f(k, v)) == multiset(f(k, d.entries[k])) + extra
    requires k !in d.entries ==> multiset(f(k, v)) == extra
    ensures multiset(FlatMap(Put(d, k, v).keys, Put(d, k, v).entries, f)) == multiset(FlatMap(d.keys, d.entries, f)) + extra
  {
    var r := Put(d, k, v);
    if k in d.entries {
      FlatMapUpdate(d.keys, d.entries, r.entries, f, k, extra);
    } else {
      assert r.keys[..|r.keys| - 1] == d.keys;
      FlatMapAgree(d.keys, d.entries, r.entries, f);
    }
  }

  /** One more key of the order adds that key's contribution at the end. */
  lemma FlatMapStep<V, T>(keys: seq<string>, i: nat, entries: map<string, V>, f: (string, V) -> seq<T>)
    requires i < |keys| && keys[i] in entries
    ensures FlatMap(keys[..i + 1], entries, f) == FlatMap(keys[..i], entries, f) + f(keys[i], entries[keys[i]])
  {
    assert keys[..i + 1][..i] == keys[..i];
  }
}
