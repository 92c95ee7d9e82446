/** Failure-compatible results and small sequence facts shared by the other modules. */
module Common {

  datatype Option<+T> = None | Some(value: T)

  datatype Result<+T, +E> = Ok(value: T) | Err(error: E)

  function Min(a: int, b: int): int {
    if a <= b then a else b
  }

  function Max(a: int, b: int): int {
    if a <= b then b else a
  }

  function Abs(a: int): nat {
    if a < 0 then -a else a
  }

  function AbsReal(x: real): real {
    if x < 0.0 then -x else x
  }

  /** Concatenation is associative. */
  lemma Regroup<T>(a: seq<T>, b: seq<T>, c: seq<T>)
    ensures a + (b + c) == (a + b) + c
  {
  }

  lemma FrontOfJoin<T>(a: seq<T>, b: seq<T>)
    requires b != []
    ensures var all := a + b; all[..|all| - 1] == a + b[..|b| - 1] && all[|all| - 1] == b[|b| - 1]
  {
  }

  /** `a / 2` as Go and C++ compute it: towards zero. */
  function Halve(a: int): int {
    if a < 0 then -((-a) / 2) else a / 2
  }

  /** The value an integer cast keeps of a real number: its part before the point. */
  function Truncate(x: real): int {
    if x < 0.0 then -((-x).Floor) else x.Floor
  }

  lemma TruncateIs(x: real)
    ensures x >= 0.0 ==> Truncate(x) as real <= x < Truncate(x) as real + 1.0
    ensures x <= 0.0 ==> Truncate(x) as real - 1.0 < x <= Truncate(x) as real
  {
  }

  /** The last `n` elements, or everything when there are fewer. */
  function LastN<T>(n: nat, s: seq<T>): seq<T> {
    if |s| <= n then s else s[|s| - n..]
  }

  /** Appending one element and dropping the oldest is how a bounded window slides. */
  lemma LastNSlides<T>(n: nat, s: seq<T>, x: T)
    ensures LastN(n, s + [x]) == if |LastN(n, s) + [x]| > n then (LastN(n, s) + [x])[1..] else LastN(n, s) + [x]
  {
    if n == 0 {
      assert LastN(n, s) == [] && LastN(n, s + [x]) == [];
    } else if |s| >= n {
      assert (s + [x])[|s| + 1 - n..] == s[|s| + 1 - n..] + [x];
    }
  }

  /** Two distances below 128 from one base address different slots of a 128-slot ring. */
  lemma SlotsDiffer(base: nat, i: nat, j: nat)
    requires i < j < i + 128
    ensures (base + i) % 128 != (base + j) % 128
  {
  }
}
