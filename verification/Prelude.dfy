/** Failure-compatible result types and the bounded integers of the runtime. */
module Prelude {

  datatype Option<+T> = None | Some(value: T) {
    function OkOr<E>(error: E): Result<T, E> {
      match this
      case Some(v) => Success(v)
      case None => Failure(error)
    }
  }

  datatype Result<+T, +E> = Success(value: T) | Failure(error: E) {
    predicate IsFailure() {
      Failure?
    }

    function PropagateFailure<U>(): Result<U, E>
      requires Failure?
    {
      Failure(error)
    }

    function Extract(): T
      requires Success?
    {
      value
    }
  }

  /** The runtime's `ensure!`: the given error unless the condition holds. */
  function Ensure<E>(condition: bool, error: E): Result<(), E> {
    if condition then Success(()) else Failure(error)
  }

  const TWO_16: nat := 0x1_0000
  const TWO_64: nat := 0x1_0000_0000_0000_0000
  const TWO_112: nat := 0x1_0000_0000_0000_0000_0000_0000_0000
  const TWO_128: nat := 0x1_0000_0000_0000_0000_0000_0000_0000_0000
  const TWO_256: nat := TWO_128 * TWO_128

  type u8 = x: int | 0 <= x < 0x100
  type u32 = x: int | 0 <= x < 0x1_0000_0000
  type u64 = x: int | 0 <= x < 0x1_0000_0000_0000_0000
  type u128 = x: int | 0 <= x < 0x1_0000_0000_0000_0000_0000_0000_0000_0000
  type u256 = x: int | 0 <= x < TWO_256

  type Bytes = seq<u8>
  type Bytes20 = b: Bytes | |b| == 20 witness seq(20, i => 0)
  type Bytes32 = b: Bytes | |b| == 32 witness seq(32, i => 0)

  function Min(a: int, b: int): int {
    if a <= b then a else b
  }

  /** The value of the first pair whose key is `k`. */
  function FirstMatch<K(==), V>(pairs: seq<(K, V)>, k: K): Option<V> {
    if pairs == [] then None
    else if pairs[0].0 == k then Some(pairs[0].1)
    else FirstMatch(pairs[1..], k)
  }

  ghost predicate HasEntry<K(!new), V(!new)>(pairs: seq<(K, V)>, k: K) {
    exists i :: 0 <= i < |pairs| && pairs[i].0 == k
  }

  /** The table's first entry for `k` has the value `v`. */
  ghost predicate FirstEntry<K(!new), V(!new)>(pairs: seq<(K, V)>, k: K, v: V) {
    exists i :: 0 <= i < |pairs| && pairs[i] == (k, v) && forall j :: 0 <= j < i ==> pairs[j].0 != k
  }

  /** The look-up finds the first entry if there is any, and nothing otherwise. */
  lemma {:induction false} FirstMatchFindsTheFirst<K(!new), V(!new)>(pairs: seq<(K, V)>, k: K)
    ensures FirstMatch(pairs, k).None? <==> !HasEntry(pairs, k)
    ensures forall v :: FirstMatch(pairs, k) == Some(v) <==> FirstEntry(pairs, k, v)
  {
    if pairs != [] {
      var rest := pairs[1..];
      FirstMatchFindsTheFirst(rest, k);
      assert forall i :: 0 <= i < |rest| ==> rest[i] == pairs[i + 1];
      if pairs[0].0 == k {
        assert pairs[0] == (k, pairs[0].1);
      } else {
        if HasEntry(pairs, k) {
          var i :| 0 <= i < |pairs| && pairs[i].0 == k;
          assert rest[i - 1].0 == k;
        }
        forall v
          ensures FirstEntry(pairs, k, v) <==> FirstEntry(rest, k, v)
        {
          if FirstEntry(pairs, k, v) {
            var i :| 0 <= i < |pairs| && pairs[i] == (k, v) && forall j :: 0 <= j < i ==> pairs[j].0 != k;
            assert rest[i - 1] == (k, v);
          }
          if FirstEntry(rest, k, v) {
            var i :| 0 <= i < |rest| && rest[i] == (k, v) && forall j :: 0 <= j < i ==> rest[j].0 != k;
            assert pairs[i + 1] == (k, v);
            assert forall j :: 0 <= j < i + 1 ==> pairs[j].0 != k by {
              forall j | 0 <= j < i + 1
                ensures pairs[j].0 != k
              {
                if j > 0 { assert rest[j - 1] == pairs[j]; }
              }
            }
          }
        }
      }
    }
  }

  lemma FirstEntryIsFound<K(!new), V(!new)>(pairs: seq<(K, V)>, k: K, v: V)
    requires FirstEntry(pairs, k, v)
    ensures FirstMatch(pairs, k) == Some(v)
  {
    FirstMatchFindsTheFirst(pairs, k);
  }

  lemma EntryIsFound<K(!new), V(!new)>(pairs: seq<(K, V)>, k: K)
    ensures FirstMatch(pairs, k).Some? <==> HasEntry(pairs, k)
  {
    FirstMatchFindsTheFirst(pairs, k);
  }
}
