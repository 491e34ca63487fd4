/** Datatypes shared by the models. */
module Common {

  datatype Option<+T> = None | Some(value: T)

  datatype Result<+T, +E> = Ok(value: T) | Err(error: E)

  /** `str.isspace`. */
  predicate IsSpace(c: char) {
    var n := c as int;
    9 <= n <= 13 || 28 <= n <= 32 || n == 0x85 || n == 0xa0 || n == 0x1680 || 0x2000 <= n <= 0x200a
    || n == 0x2028 || n == 0x2029 || n == 0x202f || n == 0x205f || n == 0x3000
  }

  /** Positions in ascending order. */
  ghost predicate Increasing(at: seq<nat>) {
    forall a, b :: 0 <= a < b < |at| ==> at[a] < at[b]
  }

  /** The same positions after one more element in front. */
  function Later(at: seq<nat>): (r: seq<nat>)
    ensures |r| == |at| && forall a :: 0 <= a < |at| ==> r[a] == at[a] + 1
    ensures forall i: nat :: i in r <==> i > 0 && i - 1 in at
  {
    if at == [] then [] else [at[0] + 1] + Later(at[1..])
  }

  lemma {:induction false} LaterIncreasing(at: seq<nat>)
    requires Increasing(at)
    ensures Increasing(Later(at)) && Increasing([0] + Later(at))
  {
  }
}
