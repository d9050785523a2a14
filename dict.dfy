/**
 * A Python dict as a sequence of entries in insertion order: iteration order,
 * key lookup and `d[k] = v`.  The dicts in this model never hold a key twice.
 */
module OrderedDict {
  import opened Wrappers

  /** The keys, in insertion order. */
  function Keys<V>(fields: seq<(string, V)>): (ks: seq<string>)
    ensures |ks| == |fields| && forall i :: 0 <= i < |fields| ==> ks[i] == fields[i].0
  {
    seq(|fields|, i requires 0 <= i < |fields| => fields[i].0)
  }

  /** `d.get(k)`: the value stored under `k`. */
  function Lookup<V>(fields: seq<(string, V)>, k: string): (r: Option<V>)
    ensures r.None? <==> k !in Keys(fields)
  {
    if fields == [] then None
    else if fields[0].0 == k then Some(fields[0].1)
    else Lookup(fields[1..], k)
  }

  /** A key that is found has its value stored under it. */
  lemma {:induction false} LookupStored<V>(fields: seq<(string, V)>, k: string)
    requires Lookup(fields, k).Some?
    ensures exists i :: 0 <= i < |fields| && fields[i] == (k, Lookup(fields, k).value)
  {
    if fields[0].0 != k {
      LookupStored(fields[1..], k);
      var i :| 0 <= i < |fields[1..]| && fields[1..][i] == (k, Lookup(fields, k).value);
      assert fields[i + 1] == fields[1..][i];
    }
  }

  /** The value under `k` is the one at its first occurrence. */
  lemma {:induction false} LookupAt<V>(fields: seq<(string, V)>, i: nat, k: string)
    requires i < |fields| && fields[i].0 == k
    requires forall j :: 0 <= j < i ==> fields[j].0 != k
    ensures Lookup(fields, k) == Some(fields[i].1)
    decreases i
  {
    if i > 0 {
      LookupAt(fields[1..], i - 1, k);
    }
  }

  /** `d[k] = v`: an existing key keeps its place, a new key goes last. */
  function Put<V>(fields: seq<(string, V)>, k: string, v: V): seq<(string, V)>
  {
    if fields == [] then [(k, v)]
    else if fields[0].0 == k then [(k, v)] + fields[1..]
    else [fields[0]] + Put(fields[1..], k, v)
  }

  /** Reading a key back after `d[k] = v` gives `v`; every other key reads as before. */
  lemma {:induction false} LookupPut<V>(fields: seq<(string, V)>, k: string, v: V, k': string)
    ensures Lookup(Put(fields, k, v), k') == if k' == k then Some(v) else Lookup(fields, k')
  {
    if fields != [] && fields[0].0 != k {
      LookupPut(fields[1..], k, v, k');
    }
  }

  /** `LookupPut` for every key at once. */
  lemma LookupPutAll<V>(fields: seq<(string, V)>, k: string, v: V)
    ensures Keys(Put(fields, k, v)) == if k in Keys(fields) then Keys(fields) else Keys(fields) + [k]
    ensures forall k' :: Lookup(Put(fields, k, v), k') == if k' == k then Some(v) else Lookup(fields, k')
  {
    KeysPut(fields, k, v);
    forall k' {
      LookupPut(fields, k, v, k');
    }
  }

  /** `d[k] = v` twice in a row is `d[k] = v` once. */
  lemma {:induction false} PutTwice<V>(fields: seq<(string, V)>, k: string, v: V)
    ensures Put(Put(fields, k, v), k, v) == Put(fields, k, v)
  {
    if fields != [] && fields[0].0 != k {
      PutTwice(fields[1..], k, v);
    }
  }

  /** Adding a new key appends it. */
  lemma {:induction false} PutNew<V>(fields: seq<(string, V)>, k: string, v: V)
    requires k !in Keys(fields)
    ensures Put(fields, k, v) == fields + [(k, v)]
    decreases |fields|
  {
    if fields != [] {
      assert fields[0].0 == Keys(fields)[0];
      assert Keys(fields[1..]) == Keys(fields)[1..];
      PutNew(fields[1..], k, v);
      assert [fields[0]] + (fields[1..] + [(k, v)]) == fields + [(k, v)];
    }
  }

  lemma KeysCons<V>(p: (string, V), fields: seq<(string, V)>)
    ensures Keys([p] + fields) == [p.0] + Keys(fields)
  {
  }

  /** `d[k] = v` never reorders keys: it appends `k` only when it was missing. */
  lemma {:induction false} KeysPut<V>(fields: seq<(string, V)>, k: string, v: V)
    ensures Keys(Put(fields, k, v)) == if k in Keys(fields) then Keys(fields) else Keys(fields) + [k]
  {
    if fields == [] {
      assert Keys([(k, v)]) == [k];
    } else {
      var rest := fields[1..];
      assert fields == [fields[0]] + rest;
      KeysCons(fields[0], rest);
      if fields[0].0 == k {
        KeysCons((k, v), rest);
      } else {
        KeysPut(rest, k, v);
        KeysCons(fields[0], Put(rest, k, v));
      }
    }
  }

  /** No key occurs twice. */
  predicate DistinctKeys<V>(m: seq<(string, V)>) {
    forall i, j :: 0 <= i < j < |m| ==> m[i].0 != m[j].0
  }

  /** In a dict without repeated keys every entry reads back its own value. */
  lemma LookupDistinct<V>(m: seq<(string, V)>, i: nat)
    requires DistinctKeys(m) && i < |m|
    ensures Lookup(m, m[i].0) == Some(m[i].1)
  {
    LookupAt(m, i, m[i].0);
  }

  /** Every entry after `d[k] = v` is `(k, v)` or was there before. */
  lemma {:induction false} PutEntries<V>(m: seq<(string, V)>, k: string, v: V)
    ensures forall e :: e in Put(m, k, v) ==> e == (k, v) || e in m
  {
    if m != [] && m[0].0 != k {
      PutEntries(m[1..], k, v);
    }
  }

  /** `d[k] = v` keeps keys distinct. */
  lemma {:induction false} PutDistinct<V>(m: seq<(string, V)>, k: string, v: V)
    requires DistinctKeys(m)
    ensures DistinctKeys(Put(m, k, v))
  {
    KeysPut(m, k, v);
    var r := Put(m, k, v);
    forall i, j | 0 <= i < j < |r|
      ensures r[i].0 != r[j].0
    {
      assert Keys(r)[i] == r[i].0 && Keys(r)[j] == r[j].0;
      if k !in Keys(m) {
        assert Keys(r) == Keys(m) + [k];
      }
    }
  }
}
