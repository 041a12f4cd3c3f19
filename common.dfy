/** Shared vocabulary of the workflow model: optional values, results with an
    error, the process identifier, the opaque form payload, and the
    insertion-ordered map (Java's LinkedHashMap) that both the step
    configuration and the process summary are built from. */
module Common {

  datatype Option<+T> = None | Some(value: T)

  datatype Result<+T, +E> = Ok(value: T) | Err(error: E)

  /** Process instances are identified by the string business key that
      startProcess generates. The service, the form-data log and the task
      engine share it; the form-data repository's Java signatures declare a
      Long instead. The Process record written by saveProcessAction keeps its
      Long id (an int in StateMachineConfig). */
  type ProcessId = string

  /** The submitted form, a JSON document stored and returned verbatim and
      never interpreted by the workflow. */
  type Payload(==, !new)

  // ---------------------------------------------------------------------------
  // Insertion-ordered maps, as association lists.
  // ---------------------------------------------------------------------------

  /** The keys of an association list. */
  function Keys<K(==,!new), V(==,!new)>(m: seq<(K, V)>): set<K> {
    set p | p in m :: p.0
  }

  /** No key occurs twice: what a LinkedHashMap guarantees of its entry order. */
  predicate DistinctKeys<K(==,!new), V(==,!new)>(m: seq<(K, V)>) {
    forall i, j :: 0 <= i < j < |m| ==> m[i].0 != m[j].0
  }

  /** `get`: the value stored under `k`, if any. */
  function Get<K(==,!new), V(==,!new)>(m: seq<(K, V)>, k: K): (r: Option<V>)
    ensures r.Some? <==> k in Keys(m)
    ensures r.Some? ==> (k, r.value) in m
    ensures DistinctKeys(m) ==> forall v :: (k, v) in m ==> r == Some(v)
  {
    if m == [] then None
    else if m[0].0 == k then Some(m[0].1)
    else
      var rest := Get(m[1..], k);
      assert forall p :: p in m[1..] ==> p in m;
      assert forall p :: p in m && p != m[0] ==> p in m[1..];
      assert DistinctKeys(m) ==> DistinctKeys(m[1..]) by {
        if DistinctKeys(m) {
          forall i, j | 0 <= i < j < |m[1..]| ensures m[1..][i].0 != m[1..][j].0 {
            assert m[1..][i] == m[i + 1] && m[1..][j] == m[j + 1];
          }
        }
      }
      rest
  }

  lemma KeysCons<K(!new), V(!new)>(p: (K, V), m: seq<(K, V)>)
    ensures Keys([p] + m) == {p.0} + Keys(m)
  {
    assert forall q :: q in [p] + m <==> q == p || q in m;
  }

  /** A list with a head is duplicate-free when its tail is and the head's
      key is not among the tail's. */
  lemma {:induction false} DistinctCons<K(!new), V(!new)>(p: (K, V), m: seq<(K, V)>)
    ensures DistinctKeys([p] + m) <==> DistinctKeys(m) && p.0 !in Keys(m)
  {
    var r := [p] + m;
    if DistinctKeys(r) {
      forall i, j | 0 <= i < j < |m| ensures m[i].0 != m[j].0 {
        assert m[i] == r[i + 1] && m[j] == r[j + 1];
      }
      forall q | q in m ensures q.0 != p.0 {
        var i :| 0 <= i < |m| && m[i] == q;
        assert r[0] == p && r[i + 1] == q;
      }
    }
    if DistinctKeys(m) && p.0 !in Keys(m) {
      forall i, j | 0 <= i < j < |r| ensures r[i].0 != r[j].0 {
        if i == 0 {
          assert r[j] in m;
        } else {
          assert r[i] == m[i - 1] && r[j] == m[j - 1];
        }
      }
    }
  }

  /** `put` on a LinkedHashMap: a new key goes to the end; an existing key
      keeps its position and only its value is replaced. */
  function Put<K(==,!new), V(==,!new)>(m: seq<(K, V)>, k: K, v: V): (r: seq<(K, V)>)
    ensures k !in Keys(m) ==> r == m + [(k, v)]
    ensures k in Keys(m) ==> |r| == |m|
  {
    if m == [] then [(k, v)]
    else
      KeysCons(m[0], m[1..]);
      assert m == [m[0]] + m[1..];
      if m[0].0 == k then [(k, v)] + m[1..]
      else [m[0]] + Put(m[1..], k, v)
  }

  /** `put` adds its key to the key set and no other. */
  lemma {:induction false} PutKeys<K(!new), V(!new)>(m: seq<(K, V)>, k: K, v: V)
    ensures Keys(Put(m, k, v)) == Keys(m) + {k}
  {
    if m != [] {
      assert m == [m[0]] + m[1..];
      KeysCons(m[0], m[1..]);
      if m[0].0 == k {
        KeysCons((k, v), m[1..]);
      } else {
        PutKeys(m[1..], k, v);
        KeysCons(m[0], Put(m[1..], k, v));
      }
    }
  }

  /** Putting an existing key changes no entry's key, so the order of the
      keys is kept. */
  lemma {:induction false} PutKeepsPositions<K(!new), V(!new)>(m: seq<(K, V)>, k: K, v: V)
    requires k in Keys(m)
    ensures forall i :: 0 <= i < |m| ==> Put(m, k, v)[i].0 == m[i].0
  {
    KeysCons(m[0], m[1..]);
    assert m == [m[0]] + m[1..];
    if m[0].0 != k {
      PutKeepsPositions(m[1..], k, v);
      var r := Put(m, k, v);
      forall i | 0 < i < |m| ensures r[i].0 == m[i].0 {
        assert r[i] == Put(m[1..], k, v)[i - 1];
      }
    }
  }

  /** `put` keeps the keys duplicate-free. */
  lemma {:induction false} PutDistinct<K(!new), V(!new)>(m: seq<(K, V)>, k: K, v: V)
    requires DistinctKeys(m)
    ensures DistinctKeys(Put(m, k, v))
  {
    if m != [] {
      assert m == [m[0]] + m[1..];
      DistinctCons(m[0], m[1..]);
      if m[0].0 == k {
        DistinctCons((k, v), m[1..]);
      } else {
        PutDistinct(m[1..], k, v);
        PutKeys(m[1..], k, v);
        DistinctCons(m[0], Put(m[1..], k, v));
      }
    }
  }

  /** After `put(k, v)`, `get(k)` is `v` and every other key reads as before. */
  lemma {:induction false} PutGet<K(!new), V(!new)>(m: seq<(K, V)>, k: K, v: V, j: K)
    ensures Get(Put(m, k, v), j) == if j == k then Some(v) else Get(m, j)
  {
    if m != [] && m[0].0 != k {
      PutGet(m[1..], k, v, j);
    }
  }
}
