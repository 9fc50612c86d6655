/** Small notions the modules share. */
module Basics {

  datatype Option<T> = None | Some(value: T)

  type Byte = x: int | 0 <= x < 256

  function Abs(x: real): real {
    if x < 0.0 then -x else x
  }

  function Max(a: real, b: real): real {
    if a < b then b else a
  }

  function MaxNat(a: nat, b: nat): nat {
    if a < b then b else a
  }

  function Clamp(x: real, lo: real, hi: real): real {
    if x < lo then lo else if x > hi then hi else x
  }

  function Part(whole: real, share: real): real {
    whole * share
  }

  lemma PartWithin(whole: real, share: real)
    requires 0.0 <= share <= 1.0
    ensures whole >= 0.0 ==> 0.0 <= Part(whole, share) <= whole
    ensures whole <= 0.0 ==> whole <= Part(whole, share) <= 0.0
  {
  }

  function Square(x: real): (s: real)
    ensures s >= 0.0
  {
    x * x
  }

  lemma SquareEven(x: real)
    ensures Square(-x) == Square(x)
  {
  }

  lemma ExactQuotient(a: real, b: real, q: real)
    requires b > 0.0 && q * b == a
    ensures a / b == q
  {
  }

  ghost predicate Increasing(s: seq<int>) {
    forall i, j | 0 <= i < j < |s| :: s[i] < s[j]
  }
}
