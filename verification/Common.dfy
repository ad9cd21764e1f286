/** Vocabulary shared by every module: optional values, results, and concatenation of chunks. */
module Common {
  datatype Option<+T> = None | Some(value: T)

  datatype Result<+T, +E> = Ok(value: T) | Err(error: E)

  function Ceiling(x: real): int {
    -((-x).Floor)
  }

  /** n times x as a sum, so that proofs need no products of reals. */
  function Multiple(n: nat, x: real): real {
    if n == 0 then 0.0 else Multiple(n - 1, x) + x
  }

  lemma {:induction false} MultipleIsProduct(n: nat, x: real)
    ensures Multiple(n, x) == x * n as real
  {
    if n > 0 {
      MultipleIsProduct(n - 1, x);
      assert x * n as real == x * (n - 1) as real + x;
    }
  }

  /** Concatenates the chunks of a list in order. */
  function Flatten<T>(chunks: seq<seq<T>>): seq<T> {
    if |chunks| == 0 then [] else Flatten(chunks[..|chunks| - 1]) + chunks[|chunks| - 1]
  }

  lemma FlattenSnoc<T>(chunks: seq<seq<T>>, chunk: seq<T>)
    ensures Flatten(chunks + [chunk]) == Flatten(chunks) + chunk
  {
    assert (chunks + [chunk])[..|chunks|] == chunks;
  }

  lemma {:induction false} FlattenConcat<T>(left: seq<seq<T>>, right: seq<seq<T>>)
    ensures Flatten(left + right) == Flatten(left) + Flatten(right)
  {
    if |right| == 0 {
      assert left + right == left;
    } else {
      var n := |right| - 1;
      assert left + right == (left + right[..n]) + [right[n]];
      FlattenSnoc(left + right[..n], right[n]);
      FlattenConcat(left, right[..n]);
    }
  }

  lemma FlattenFirst<T>(chunks: seq<seq<T>>)
    requires |chunks| > 0
    ensures Flatten(chunks) == chunks[0] + Flatten(chunks[1..])
  {
    FlattenConcat([chunks[0]], chunks[1..]);
    FlattenOne(chunks[0]);
    hide Flatten;
    assert chunks == [chunks[0]] + chunks[1..];
  }

  lemma FlattenOne<T>(chunk: seq<T>)
    ensures Flatten([chunk]) == chunk
  {
    assert [chunk][..0] == [];
    assert Flatten([chunk][..0]) + chunk == chunk;
  }

  predicate OccursAt(part: string, whole: string, i: int) {
    0 <= i <= |whole| - |part| && whole[i..i + |part|] == part
  }

  /** `part` occurs literally inside `whole`. */
  predicate Occurs(part: string, whole: string) {
    exists i :: 0 <= i <= |whole| && OccursAt(part, whole, i)
  }
}
