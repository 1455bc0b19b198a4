/**
 * Failure-compatible result types and the library's two error kinds.
 */
module Wrappers {

  datatype Option<+T> = None | Some(value: T)

  /** The two ways a conversion or a conjugation can fail. */
  datatype Error =
    | NotAVerb         // the word does not end in a u-vowel syllable
    | UnexpectedEnding // a stem table has no entry for the word's last syllable

  /** The library's result type: a value or one of the two errors. */
  datatype Result<+T> = Ok(value: T) | Err(error: Error) {

    predicate IsFailure() {
      Err?
    }

    function PropagateFailure<U>(): Result<U>
      requires Err?
    {
      Err(error)
    }

    function Extract(): T
      requires Ok?
    {
      value
    }
  }
}

/**
 * First-match lookup in an association list, the search every table of the
 * library (the alphabet, the stem tables) is read with.
 */
module Tables {
  import opened Wrappers

  /** The index `i` holds the first occurrence of key `k` in `m`. */
  predicate FirstKeyAt<K(==), V>(m: seq<(K, V)>, k: K, i: int) {
    && 0 <= i < |m|
    && m[i].0 == k
    && forall j :: 0 <= j < i ==> m[j].0 != k
  }

  /** The value paired with the first occurrence of `k`, if there is one. */
  function Lookup<K(==), V>(m: seq<(K, V)>, k: K): (r: Option<V>)
    ensures r.Some? ==> (k, r.value) in m
    ensures r.None? <==> forall i :: 0 <= i < |m| ==> m[i].0 != k
  {
    if m == [] then None
    else if m[0].0 == k then Some(m[0].1)
    else Lookup(m[1..], k)
  }

  /** Lookup returns the value of the first entry with the key, never a later one. */
  lemma {:induction false} LookupFirst<K, V>(m: seq<(K, V)>, k: K, i: int)
    requires FirstKeyAt(m, k, i)
    ensures Lookup(m, k) == Some(m[i].1)
  {
    if i > 0 {
      assert m[0].0 != k;
      assert FirstKeyAt(m[1..], k, i - 1) by {
        forall j | 0 <= j < i - 1 ensures m[1..][j].0 != k {
          assert m[1..][j] == m[j + 1];
        }
      }
      LookupFirst(m[1..], k, i - 1);
    }
  }
}
