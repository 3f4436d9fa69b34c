/**
  A Python `dict` as the exporter uses it: a finite map together with the order
  in which its keys were first inserted. Assigning to an existing key replaces
  its value and keeps its position; assigning to a new key appends it. Iterating
  `d.keys()` visits `keys` in order.
 */
module PyDict {

  datatype Dict<K, V> = Dict(keys: seq<K>, entries: map<K, V>)

  /** Every key is listed exactly once, and the listed keys are the map's keys. */
  ghost predicate Valid<K, V>(d: Dict<K, V>) {
    && (forall i, j :: 0 <= i < j < |d.keys| ==> d.keys[i] != d.keys[j])
    && d.entries.Keys == set k | k in d.keys
  }

  function Empty<K, V>(): (d: Dict<K, V>)
    ensures Valid(d) && d.entries == map[]
  {
    Dict([], map[])
  }

  /** `d[k] = v` */
  function Set<K, V>(d: Dict<K, V>, k: K, v: V): (r: Dict<K, V>)
    ensures Valid(d) ==> Valid(r)
    ensures k in r.entries && r.entries[k] == v
    ensures r.entries.Keys == d.entries.Keys + {k}
    ensures forall k' :: k' != k && k' in d.entries ==> r.entries[k'] == d.entries[k']
    ensures |d.keys| <= |r.keys| && r.keys[..|d.keys|] == d.keys
  {
    if k in d.entries then Dict(d.keys, d.entries[k := v])
    else Dict(d.keys + [k], d.entries[k := v])
  }

  /** The dict built by `d = {}` followed by `d[k] = v` for each pair `(k, v)` in order. */
  function FromPairs<K, V>(ps: seq<(K, V)>): Dict<K, V> {
    if ps == [] then Empty()
    else Set(FromPairs(ps[..|ps| - 1]), ps[|ps| - 1].0, ps[|ps| - 1].1)
  }

  lemma {:induction false} FromPairsValid<K, V>(ps: seq<(K, V)>)
    ensures Valid(FromPairs(ps))
  {
    if ps != [] {
      FromPairsValid(ps[..|ps| - 1]);
    }
  }

  /** One key per distinct first component of the pairs. */
  lemma {:induction false} FromPairsKeys<K, V>(ps: seq<(K, V)>, k: K)
    ensures k in FromPairs(ps).entries <==> exists i :: 0 <= i < |ps| && ps[i].0 == k
  {
    if ps != [] {
      var n := |ps| - 1;
      FromPairsKeys(ps[..n], k);
      if k in FromPairs(ps[..n]).entries {
        var i :| 0 <= i < n && ps[..n][i].0 == k;
        assert ps[i].0 == k;
      }
      if exists i :: 0 <= i < |ps| && ps[i].0 == k {
        var i :| 0 <= i < |ps| && ps[i].0 == k;
        if i < n {
          assert ps[..n][i].0 == k;
        }
      }
    }
  }

  /** Every stored value was assigned to its key by some pair. */
  lemma {:induction false} FromPairsValueFrom<K, V>(ps: seq<(K, V)>, k: K)
    requires k in FromPairs(ps).entries
    ensures exists i :: 0 <= i < |ps| && ps[i].0 == k && ps[i].1 == FromPairs(ps).entries[k]
  {
    var n := |ps| - 1;
    var pre := FromPairs(ps[..n]);
    assert FromPairs(ps) == Set(pre, ps[n].0, ps[n].1);
    if ps[n].0 != k {
      assert k in pre.entries && FromPairs(ps).entries[k] == pre.entries[k];
      FromPairsValueFrom(ps[..n], k);
      var i :| 0 <= i < n && ps[..n][i].0 == k && ps[..n][i].1 == pre.entries[k];
      assert ps[i] == ps[..n][i];
    }
  }

  /** A later assignment to the same key overwrites an earlier one: the value is the last pair's. */
  lemma {:induction false} FromPairsLastWins<K, V>(ps: seq<(K, V)>, i: nat)
    requires i < |ps|
    requires forall j :: i < j < |ps| ==> ps[j].0 != ps[i].0
    ensures ps[i].0 in FromPairs(ps).entries
    ensures FromPairs(ps).entries[ps[i].0] == ps[i].1
  {
    var n := |ps| - 1;
    if i < n {
      forall j | i < j < n
        ensures ps[..n][j].0 != ps[..n][i].0
      {
        assert ps[j].0 != ps[i].0;
      }
      FromPairsLastWins(ps[..n], i);
    }
  }

  /**
    Keys are iterated in the order of their first assignment: every occurrence
    of a later-listed key is preceded by an occurrence of an earlier-listed one.
   */
  lemma {:induction false} FromPairsOrder<K, V>(ps: seq<(K, V)>, a: nat, b: nat, j: nat)
    requires a < b < |FromPairs(ps).keys|
    requires j < |ps| && ps[j].0 == FromPairs(ps).keys[b]
    ensures exists m :: 0 <= m < j && ps[m].0 == FromPairs(ps).keys[a]
    decreases |ps|, 0
  {
    var n := |ps| - 1;
    var pre, last := ps[..n], ps[n];
    var r := Set(FromPairs(pre), last.0, last.1);
    assert FromPairs(ps) == r;
    var m := FromPairsOrderStep(pre, last, a, b, j);
    assert pre[m] == ps[m];
    assert ps[m].0 == r.keys[a];
  }

  /** The step of FromPairsOrder: the pairs are `pre + [last]`. */
  lemma {:induction false} FromPairsOrderStep<K, V>(pre: seq<(K, V)>, last: (K, V), a: nat, b: nat, j: nat)
    returns (m: nat)
    requires a < b < |Set(FromPairs(pre), last.0, last.1).keys|
    requires j <= |pre|
    requires j < |pre| ==> pre[j].0 == Set(FromPairs(pre), last.0, last.1).keys[b]
    requires j == |pre| ==> last.0 == Set(FromPairs(pre), last.0, last.1).keys[b]
    ensures m < j && m < |pre| && pre[m].0 == Set(FromPairs(pre), last.0, last.1).keys[a]
    decreases |pre|, 1
  {
    var d := FromPairs(pre);
    FromPairsValid(pre);
    var k := last.0;
    var r := Set(d, k, last.1);
    if k in d.entries {
      assert r.keys == d.keys;
      var j' := j;
      if j == |pre| {
        FromPairsKeys(pre, k);
        j' :| 0 <= j' < |pre| && pre[j'].0 == k;
      }
      FromPairsOrder(pre, a, b, j');
      m :| 0 <= m < j' && pre[m].0 == d.keys[a];
    } else {
      assert r.keys == d.keys + [k];
      assert r.keys[a] == d.keys[a];
      if b < |d.keys| {
        assert r.keys[b] == d.keys[b] && d.keys[b] in d.entries;
        FromPairsOrder(pre, a, b, j);
        m :| 0 <= m < j && pre[m].0 == d.keys[a];
      } else {
        assert d.keys[a] in d.entries;
        FromPairsKeys(pre, d.keys[a]);
        m :| 0 <= m < |pre| && pre[m].0 == d.keys[a];
        if j < |pre| {
          FromPairsKeys(pre, k);
          assert false;
        }
      }
    }
  }
}
