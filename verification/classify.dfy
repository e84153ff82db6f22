/**
 The classifier: the secondary attributes of a wheel number, its parity and its
 colour. Both are total over every integer; neither has a case for zero.
 */
module Classify {

  datatype OddEven = Odd | Even

  datatype RedBlack = Red | Black

  /** The remainder of Rust's `number % 2` on a signed integer: the quotient
      truncates toward zero, so the remainder takes the sign of the dividend
      (unlike Dafny's `%`, which is never negative). */
  function TruncRemTwo(a: int): (r: int)
    ensures -2 < r < 2
    ensures a >= 0 ==> r >= 0
    ensures a <= 0 ==> r <= 0
    ensures (a - r) % 2 == 0
  {
    if a >= 0 then a % 2 else -((-a) % 2)
  }

  /** Even exactly when the truncating remainder by two is zero. */
  function NumberOddOrEven(number: int): (p: OddEven)
    ensures p == Even <==> number % 2 == 0
    ensures p == Odd <==> number % 2 == 1
  {
    if TruncRemTwo(number) == 0 then Even else Odd
  }

  /** The other parity. */
  function Flip(p: OddEven): (q: OddEven)
    ensures q != p
  {
    if p == Even then Odd else Even
  }

  /** The expected parity the Rust program's `odd_even` tests walk along:
      Even at 0, and one flip per step after that. */
  function AlternatingFlag(count: nat): OddEven
  {
    if count == 0 then Even else Flip(AlternatingFlag(count - 1))
  }

  /** The 18 red numbers of the table, in the order the source lists them. */
  const RedNumbers: seq<int> :=
    [1, 3, 5, 7, 9, 12, 14, 16, 18, 19, 21, 23, 25, 27, 30, 32, 34, 36]

  /** The standard roulette colouring, independent of the table above: on
      1..10 and 19..28 the odd numbers are red, on 11..18 and 29..36 the even
      ones. Zero and every number off the board are not red. */
  predicate StandardRed(n: int)
  {
    && 1 <= n <= 36
    && if n <= 10 || 19 <= n <= 28 then n % 2 == 1 else n % 2 == 0
  }

  /** Red exactly for the listed numbers; Black for every other integer,
      zero and off-board numbers included. */
  function NumberRedOrBlack(number: int): (c: RedBlack)
    ensures c == Red <==> StandardRed(number)
    ensures number == 0 ==> c == Black
  {
    RedTableIsStandard(number);
    if number in RedNumbers then Red else Black
  }

  /** The listed table agrees with the standard colouring on every integer. */
  lemma RedTableIsStandard(n: int)
    ensures n in RedNumbers <==> StandardRed(n)
  {
    if StandardRed(n) {
      assert 1 <= n <= 36;
      if n <= 10 {
        assert n in {1, 3, 5, 7, 9};
      } else if n <= 18 {
        assert n in {12, 14, 16, 18};
      } else if n <= 28 {
        assert n in {19, 21, 23, 25, 27};
      } else {
        assert n in {30, 32, 34, 36};
      }
    }
  }
}
