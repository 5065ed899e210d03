/**
 The shape every hydration loop shares: a sequence of (key, value) pairs
 written one after another into a dictionary or an object's attributes,
 where a later write under the same key replaces an earlier one.
 */
module Assoc {
  import opened Wrappers
  import opened Errors

  /** The pairs a loop wrote before it stopped, and the error that stopped it, if any. */
  datatype Scan<K, V> = Scan(pairs: seq<(K, V)>, err: Option<Error>)

  /** Writing `ps` into `m` in order, as a loop of `m[k] = v` does. */
  function Assign<K, V>(m: map<K, V>, ps: seq<(K, V)>): map<K, V>
    decreases |ps|
  {
    if ps == [] then m else Assign(m, ps[..|ps| - 1])[ps[|ps| - 1].0 := ps[|ps| - 1].1]
  }

  /** The keys that `ps` writes. */
  function Keys<K, V>(ps: seq<(K, V)>): set<K>
    decreases |ps|
  {
    if ps == [] then {} else Keys(ps[..|ps| - 1]) + {ps[|ps| - 1].0}
  }

  lemma {:induction false} KeysAt<K, V>(ps: seq<(K, V)>, k: K)
    ensures k in Keys(ps) <==> exists i :: 0 <= i < |ps| && ps[i].0 == k
    decreases |ps|
  {
    if ps != [] {
      var init := ps[..|ps| - 1];
      KeysAt(init, k);
      if k in Keys(init) {
        var i :| 0 <= i < |init| && init[i].0 == k;
        assert ps[i] == init[i];
      }
      if exists i :: 0 <= i < |ps| && ps[i].0 == k {
        var i :| 0 <= i < |ps| && ps[i].0 == k;
        if i < |init| {
          assert init[i] == ps[i];
        }
      }
    }
  }

  /** After the writes, the keys are the old ones plus the written ones. */
  lemma {:induction false} AssignKeys<K, V>(m: map<K, V>, ps: seq<(K, V)>)
    ensures Assign(m, ps).Keys == m.Keys + Keys(ps)
    decreases |ps|
  {
    if ps != [] {
      AssignKeys(m, ps[..|ps| - 1]);
    }
  }

  /** The value under a written key is the one written last. */
  lemma {:induction false} LastWins<K, V>(m: map<K, V>, ps: seq<(K, V)>, j: nat)
    requires j < |ps|
    requires forall i :: j < i < |ps| ==> ps[i].0 != ps[j].0
    ensures ps[j].0 in Assign(m, ps) && Assign(m, ps)[ps[j].0] == ps[j].1
    decreases |ps|
  {
    if j < |ps| - 1 {
      var init := ps[..|ps| - 1];
      assert init[j] == ps[j];
      forall i | j < i < |init| ensures init[i].0 != init[j].0 {
        assert init[i] == ps[i];
      }
      LastWins(m, init, j);
    }
  }

  /** A key that is never written keeps its old value, or stays absent. */
  lemma {:induction false} Untouched<K, V>(m: map<K, V>, ps: seq<(K, V)>, k: K)
    requires k !in Keys(ps)
    ensures k in Assign(m, ps) <==> k in m
    ensures k in m ==> Assign(m, ps)[k] == m[k]
    decreases |ps|
  {
    if ps != [] {
      Untouched(m, ps[..|ps| - 1], k);
    }
  }

  /** Writing one more pair is one more map update. */
  lemma AssignSnoc<K, V>(m: map<K, V>, ps: seq<(K, V)>, p: (K, V))
    ensures Assign(m, ps + [p]) == Assign(m, ps)[p.0 := p.1]
    ensures Keys(ps + [p]) == Keys(ps) + {p.0}
  {
    assert (ps + [p])[..|ps|] == ps;
  }

  /** Writing `ps + qs` is writing `ps`, then `qs`. */
  lemma {:induction false} AssignAppend<K, V>(m: map<K, V>, ps: seq<(K, V)>, qs: seq<(K, V)>)
    ensures Assign(m, ps + qs) == Assign(Assign(m, ps), qs)
    decreases |qs|
  {
    if qs != [] {
      var qi := qs[..|qs| - 1];
      assert (ps + qs)[..|ps + qs| - 1] == ps + qi;
      AssignAppend(m, ps, qi);
    } else {
      assert ps + qs == ps;
    }
  }
}
