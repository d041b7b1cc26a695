/**
 * A JavaScript `Map` seen as its entries in iteration order. `set` on a key
 * that is already present replaces the value and keeps the entry where it
 * was; a new key is appended. Iteration (`values()`) follows this order.
 */
module JsMap {
  import opened Wrappers

  predicate HasKey<K(==), V>(m: seq<(K, V)>, k: K) {
    exists i | 0 <= i < |m| :: m[i].0 == k
  }

  function Keys<K, V>(m: seq<(K, V)>): (ks: seq<K>)
    ensures |ks| == |m| && forall i | 0 <= i < |m| :: ks[i] == m[i].0
  {
    seq(|m|, i requires 0 <= i < |m| => m[i].0)
  }

  /** No key occurs twice: what every `Map` satisfies. */
  ghost predicate UniqueKeys<K, V>(m: seq<(K, V)>) {
    forall i, j | 0 <= i < j < |m| :: m[i].0 != m[j].0
  }

  /** `m.get(k)`: the value of the entry with key k, or undefined. */
  function Get<K(==), V>(m: seq<(K, V)>, k: K): (r: Option<V>)
    ensures r.Some? <==> HasKey(m, k)
    ensures r.Some? ==> exists i | 0 <= i < |m| :: m[i] == (k, r.value)
  {
    if m == [] then None
    else if m[0].0 == k then Some(m[0].1)
    else
      var r := Get(m[1..], k);
      assert HasKey(m, k) ==> HasKey(m[1..], k) by {
        if HasKey(m, k) {
          var i :| 0 <= i < |m| && m[i].0 == k;
          assert i > 0 && m[1..][i - 1].0 == k;
        }
      }
      assert r.Some? ==> exists i | 0 <= i < |m| :: m[i] == (k, r.value) by {
        if r.Some? {
          var i :| 0 <= i < |m[1..]| && m[1..][i] == (k, r.value);
          assert m[i + 1] == (k, r.value);
        }
      }
      r
  }

  /** With unique keys, `get` finds the entry holding the key. */
  lemma {:induction false} GetEntry<K, V>(m: seq<(K, V)>, i: nat)
    requires UniqueKeys(m) && i < |m|
    ensures Get(m, m[i].0) == Some(m[i].1)
  {
    if i > 0 {
      assert m[0].0 != m[i].0;
      assert m[1..][i - 1] == m[i];
      GetEntry(m[1..], i - 1);
    }
  }

  /** `m.set(k, v)` */
  function Set<K(==), V>(m: seq<(K, V)>, k: K, v: V): (r: seq<(K, V)>)
    ensures |r| == if HasKey(m, k) then |m| else |m| + 1
  {
    if m == [] then [(k, v)]
    else if m[0].0 == k then [(k, v)] + m[1..]
    else
      assert HasKey(m, k) <==> HasKey(m[1..], k) by { HasKeyTail(m, k); }
      [m[0]] + Set(m[1..], k, v)
  }

  lemma HasKeyTail<K, V>(m: seq<(K, V)>, k: K)
    requires m != [] && m[0].0 != k
    ensures HasKey(m, k) <==> HasKey(m[1..], k)
  {
    if HasKey(m, k) {
      var i :| 0 <= i < |m| && m[i].0 == k;
      assert m[1..][i - 1].0 == k;
    }
    if HasKey(m[1..], k) {
      var i :| 0 <= i < |m[1..]| && m[1..][i].0 == k;
      assert m[i + 1].0 == k;
    }
  }

  /** set keeps the key order, appending a key it has not seen. */
  lemma {:induction false} SetKeys<K, V>(m: seq<(K, V)>, k: K, v: V)
    ensures Keys(Set(m, k, v)) == if HasKey(m, k) then Keys(m) else Keys(m) + [k]
  {
    if m == [] {
    } else if m[0].0 == k {
      assert HasKey(m, k);
      assert Keys(Set(m, k, v)) == Keys(m);
    } else {
      HasKeyTail(m, k);
      SetKeys(m[1..], k, v);
      var rest := Set(m[1..], k, v);
      assert Set(m, k, v) == [m[0]] + rest;
      assert Keys([m[0]] + rest) == [m[0].0] + Keys(rest);
      assert Keys(m) == [m[0].0] + Keys(m[1..]);
    }
  }

  /** After set, get of the same key gives the new value and other keys are untouched. */
  lemma {:induction false} SetGet<K, V>(m: seq<(K, V)>, k: K, v: V, k': K)
    ensures Get(Set(m, k, v), k') == if k' == k then Some(v) else Get(m, k')
  {
    if m != [] && m[0].0 != k {
      var rest := Set(m[1..], k, v);
      assert Set(m, k, v) == [m[0]] + rest;
      assert ([m[0]] + rest)[1..] == rest;
      SetGet(m[1..], k, v, k');
    }
  }

  /** set never introduces a duplicate key. */
  lemma {:induction false} SetUnique<K, V>(m: seq<(K, V)>, k: K, v: V)
    requires UniqueKeys(m)
    ensures UniqueKeys(Set(m, k, v))
  {
    if m == [] {
    } else if m[0].0 == k {
      var r := Set(m, k, v);
      assert forall i | 0 <= i < |r| :: r[i].0 == m[i].0;
    } else {
      var rest := Set(m[1..], k, v);
      assert UniqueKeys(m[1..]);
      SetUnique(m[1..], k, v);
      SetKeys(m[1..], k, v);
      var r := [m[0]] + rest;
      assert Set(m, k, v) == r;
      forall j | 0 <= j < |rest| ensures rest[j].0 != m[0].0 {
        assert Keys(rest)[j] == rest[j].0;
        if j < |m[1..]| {
          assert Keys(m[1..])[j] == m[j + 1].0;
        } else {
          assert Keys(rest)[j] == k;
        }
      }
    }
  }

  /** The value last given for k, or undefined: the value a `Map` built by set-calls holds. */
  function LastValue<K(==), V>(ps: seq<(K, V)>, k: K): Option<V> {
    if ps == [] then None
    else if ps[|ps| - 1].0 == k then Some(ps[|ps| - 1].1)
    else LastValue(ps[..|ps| - 1], k)
  }

  /** The keys in order of their first occurrence. */
  function Distinct<K(==)>(ks: seq<K>): seq<K> {
    if ks == [] then []
    else
      var init := ks[..|ks| - 1];
      if ks[|ks| - 1] in init then Distinct(init) else Distinct(init) + [ks[|ks| - 1]]
  }

  /**
   * A `Map` filled by `set(k, v)` for each pair in turn (the loops of
   * readChannels and readUsers).
   */
  function FromPairs<K(==), V>(ps: seq<(K, V)>): seq<(K, V)> {
    if ps == [] then []
    else Set(FromPairs(ps[..|ps| - 1]), ps[|ps| - 1].0, ps[|ps| - 1].1)
  }

  /** A filled `Map` never holds a key twice. */
  lemma {:induction false} FromPairsUnique<K, V>(ps: seq<(K, V)>)
    ensures UniqueKeys(FromPairs(ps))
  {
    if ps != [] {
      FromPairsUnique(ps[..|ps| - 1]);
      SetUnique(FromPairs(ps[..|ps| - 1]), ps[|ps| - 1].0, ps[|ps| - 1].1);
    }
  }

  /** Each key holds the value of the LAST pair that has it. */
  lemma {:induction false} FromPairsGet<K, V>(ps: seq<(K, V)>, k: K)
    ensures Get(FromPairs(ps), k) == LastValue(ps, k)
  {
    if ps != [] {
      FromPairsGet(ps[..|ps| - 1], k);
      SetGet(FromPairs(ps[..|ps| - 1]), ps[|ps| - 1].0, ps[|ps| - 1].1, k);
    }
  }

  /** Iteration order is the order in which keys first occur among the pairs. */
  lemma {:induction false} FromPairsKeys<K, V>(ps: seq<(K, V)>)
    ensures Keys(FromPairs(ps)) == Distinct(Keys(ps))
  {
    if ps != [] {
      var init := ps[..|ps| - 1];
      var last := ps[|ps| - 1];
      var m := FromPairs(init);
      FromPairsKeys(init);
      SetKeys(m, last.0, last.1);
      assert Keys(ps)[..|ps| - 1] == Keys(init);
      assert HasKey(m, last.0) <==> last.0 in Keys(init) by {
        FromPairsGet(init, last.0);
        if last.0 in Keys(init) {
          var i :| 0 <= i < |Keys(init)| && Keys(init)[i] == last.0;
          LastValueSome(init, i);
        } else {
          LastValueNone(init, last.0);
        }
      }
    }
  }

  lemma {:induction false} LastValueSome<K, V>(ps: seq<(K, V)>, i: nat)
    requires i < |ps|
    ensures LastValue(ps, ps[i].0).Some?
  {
    if ps[|ps| - 1].0 != ps[i].0 {
      assert i < |ps| - 1 && ps[..|ps| - 1][i] == ps[i];
      LastValueSome(ps[..|ps| - 1], i);
    }
  }

  /** Keys of a filled `Map` are exactly the keys that occur among the pairs. */
  lemma FromPairsHasKey<K, V>(ps: seq<(K, V)>, k: K)
    ensures HasKey(FromPairs(ps), k) <==> exists i | 0 <= i < |ps| :: ps[i].0 == k
  {
    FromPairsGet(ps, k);
    if exists i | 0 <= i < |ps| :: ps[i].0 == k {
      var i :| 0 <= i < |ps| && ps[i].0 == k;
      LastValueSome(ps, i);
    } else {
      LastValueNone(ps, k);
    }
  }

  lemma {:induction false} LastValueNone<K, V>(ps: seq<(K, V)>, k: K)
    requires forall i | 0 <= i < |ps| :: ps[i].0 != k
    ensures LastValue(ps, k) == None
  {
    if ps != [] {
      LastValueNone(ps[..|ps| - 1], k);
    }
  }

  /**
   * For a duplicated key the later pair wins: if pair i has key k and no
   * later pair has, the map holds pair i's value.
   */
  lemma {:induction false} LaterPairWins<K, V>(ps: seq<(K, V)>, i: nat)
    requires i < |ps|
    requires forall j | i < j < |ps| :: ps[j].0 != ps[i].0
    ensures Get(FromPairs(ps), ps[i].0) == Some(ps[i].1)
  {
    LastWins(ps, i);
    FromPairsGet(ps, ps[i].0);
  }

  lemma {:induction false} LastWins<K, V>(ps: seq<(K, V)>, i: nat)
    requires i < |ps|
    requires forall j | i < j < |ps| :: ps[j].0 != ps[i].0
    ensures LastValue(ps, ps[i].0) == Some(ps[i].1)
  {
    if i < |ps| - 1 {
      var init := ps[..|ps| - 1];
      assert init[i] == ps[i];
      LastWins(init, i);
    }
  }
}
