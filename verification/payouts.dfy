/**
 The payout resolver: the bet categories, one handler per category, and the
 dispatcher that resolves a bet against the winning number. A winning bet
 returns the stake times the category's net odds plus the stake itself; a
 losing bet returns nothing (the stake is taken by the caller).
 */
module Payouts {
  import opened Failures
  import opened Classify
  import opened Board

  /** The bet categories and the numbers each one names. */
  datatype BetType =
    | Single(number: int)
    | Split(first: int, second: int)
    | Trio(first: int, second: int, third: int)
    | Basket
    | LowPass
    | HighPass
    | RedOrBlack(colour: RedBlack)
    | OddOrEven(parity: OddEven)
    | DozenBet(dozen: int)
    | ColumnBet(column: int)

  /** A category and a stake (the Rust code's `f32`, taken as an exact real). */
  datatype Bet = Bet(betType: BetType, amount: real)

  /** The amount a winning bet returns: the net winnings plus the stake. */
  function Win(stake: real, odds: real): real
  {
    stake * odds + stake
  }

  /** Net odds per category, as the handlers apply them. */
  function NetOdds(t: BetType): real
  {
    match t
    case Single(_) => 36.0
    case Split(_, _) => 17.0
    case Trio(_, _, _) => 17.0
    case Basket => 8.0
    case LowPass | HighPass | RedOrBlack(_) | OddOrEven(_) => 1.0
    case DozenBet(_) | ColumnBet(_) => 2.0
  }

  /** The categories the source cannot resolve without panicking: a split
      naming a number off the layout, a dozen or column index outside 1..3. */
  predicate Panics(t: BetType)
  {
    match t
    case Split(a, b) => !OnBoard(a) || !OnBoard(b)
    case DozenBet(d) => !(1 <= d <= 3)
    case ColumnBet(c) => !(1 <= c <= 3)
    case _ => false
  }

  /** The winning numbers of each category, stated arithmetically and
      independently of the handlers' tables. */
  predicate Wins(spin: int, t: BetType)
  {
    match t
    case Single(v) => spin == v
    case Split(a, b) => FlatAdjacent(a, b) && (spin == a || spin == b)
    case Trio(a, b, c) =>
      && (ArrangementOf([a, b, c], 0, 1, 2) || ArrangementOf([a, b, c], 0, 2, 3))
      && (spin == a || spin == b || spin == c)
    case Basket => 0 <= spin <= 3
    case LowPass => 0 <= spin <= 18
    case HighPass => 19 <= spin <= 36
    case RedOrBlack(colour) => (colour == Red) == StandardRed(spin)
    case OddOrEven(parity) => (parity == Even) == (spin % 2 == 0)
    case DozenBet(d) => 12 * (d - 1) < spin <= 12 * d
    case ColumnBet(c) => OnBoard(spin) && spin % 3 == c % 3
  }

  /** A straight-up bet: 37 times the stake when the number comes up. */
  function SingleHandler(spin: int, stake: real, betNumber: int): (r: real)
    ensures r == if spin == betNumber then 37.0 * stake else 0.0
  {
    if spin == betNumber then Win(stake, 36.0) else 0.0
  }

  /** A split: 18 times the stake when the pair passes the split check and
      the spin is one of the two; an unlisted number panics in the check. */
  function SplitHandler(spin: int, stake: real, first: int, second: int): (r: Result<real>)
    ensures r.Panic? <==> !OnBoard(first) || !OnBoard(second)
    ensures r.Panic? ==> r.cause == UnwrapOnNone
    ensures r.Ok? ==> r.value == if Wins(spin, Split(first, second)) then 18.0 * stake else 0.0
  {
    match ValidSplit(first, second)
    case Panic(cause) => Panic(cause)
    case Ok(valid) =>
      Ok(if valid && (spin == first || spin == second) then Win(stake, 17.0) else 0.0)
  }

  /** A trio: 18 times the stake when the sorted triple is a listed trio and
      the spin is in it. */
  function TrioHandler(spin: int, stake: real, first: int, second: int, third: int): (r: real)
    ensures r == if Wins(spin, Trio(first, second, third)) then 18.0 * stake else 0.0
  {
    var trio := Sort3(first, second, third);
    TrioMembers(first, second, third, spin);
    if ValidTrio(first, second, third) && spin in trio then Win(stake, 17.0) else 0.0
  }

  const BasketNumbers: seq<int> := [0, 1, 2, 3]

  /** The basket: 9 times the stake on 0, 1, 2 or 3. */
  function BasketHandler(spin: int, stake: real): (r: real)
    ensures r == if Wins(spin, Basket) then 9.0 * stake else 0.0
  {
    if spin in BasketNumbers then Win(stake, 8.0) else 0.0
  }

  const LowPassNumbers: seq<int> :=
    [0, 1, 2, 3, 4, 5, 6, 7, 8, 9, 10, 11, 12, 13, 14, 15, 16, 17, 18]

  /** Low: twice the stake on 0..18 (zero included). */
  function LowPassHandler(spin: int, stake: real): (r: real)
    ensures r == if Wins(spin, LowPass) then 2.0 * stake else 0.0
  {
    if spin in LowPassNumbers then Win(stake, 1.0) else 0.0
  }

  const HighPassNumbers: seq<int> :=
    [19, 20, 21, 22, 23, 24, 25, 26, 27, 28, 29, 30, 31, 32, 33, 34, 35, 36]

  /** High: twice the stake on 19..36. */
  function HighPassHandler(spin: int, stake: real): (r: real)
    ensures r == if Wins(spin, HighPass) then 2.0 * stake else 0.0
  {
    if spin in HighPassNumbers then Win(stake, 1.0) else 0.0
  }

  /** Colour: twice the stake when the spin's colour is the one bet on. */
  function RedOrBlackHandler(spin: int, stake: real, colour: RedBlack): (r: real)
    ensures r == if Wins(spin, RedOrBlack(colour)) then 2.0 * stake else 0.0
  {
    if NumberRedOrBlack(spin) == colour then Win(stake, 1.0) else 0.0
  }

  /** Parity: twice the stake when the spin's parity is the one bet on. */
  function OddOrEvenHandler(spin: int, stake: real, parity: OddEven): (r: real)
    ensures r == if Wins(spin, OddOrEven(parity)) then 2.0 * stake else 0.0
  {
    if NumberOddOrEven(spin) == parity then Win(stake, 1.0) else 0.0
  }

  const Dozens: seq<seq<int>> :=
    [[ 1,  2,  3,  4,  5,  6,  7,  8,  9, 10, 11, 12],
     [13, 14, 15, 16, 17, 18, 19, 20, 21, 22, 23, 24],
     [25, 26, 27, 28, 29, 30, 31, 32, 33, 34, 35, 36]]

  /** A dozen: three times the stake when the spin is in the chosen dozen;
      an index outside 1..3 panics on the table lookup. */
  function DozenHandler(spin: int, stake: real, dozen: int): (r: Result<real>)
    ensures r.Panic? <==> !(1 <= dozen <= 3)
    ensures r.Panic? ==> r.cause == IndexOutOfBounds
    ensures r.Ok? ==> r.value == if Wins(spin, DozenBet(dozen)) then 3.0 * stake else 0.0
  {
    var index := dozen - 1;
    if !(0 <= index < |Dozens|) then Panic(IndexOutOfBounds)
    else
      DozenTable(index, spin);
      Ok(if spin in Dozens[index] then Win(stake, 2.0) else 0.0)
  }

  /** Row `index` of the dozen table is the run 12*index+1 .. 12*index+12. */
  lemma DozenTable(index: int, spin: int)
    requires 0 <= index < 3
    ensures spin in Dozens[index] <==> 12 * index < spin <= 12 * index + 12
  {
    if 12 * index < spin <= 12 * index + 12 {
      assert Dozens[index][spin - 12 * index - 1] == spin;
    }
  }

  const Columns: seq<seq<int>> :=
    [[1, 4, 7, 10, 13, 16, 19, 22, 25, 28, 31, 34],
     [2, 5, 8, 11, 14, 17, 20, 23, 26, 29, 32, 35],
     [3, 6, 9, 12, 15, 18, 21, 24, 27, 30, 33, 36]]

  /** A column: three times the stake when the spin is in the chosen column;
      an index outside 1..3 panics on the table lookup. */
  function ColumnHandler(spin: int, stake: real, column: int): (r: Result<real>)
    ensures r.Panic? <==> !(1 <= column <= 3)
    ensures r.Panic? ==> r.cause == IndexOutOfBounds
    ensures r.Ok? ==> r.value == if Wins(spin, ColumnBet(column)) then 3.0 * stake else 0.0
  {
    var index := column - 1;
    if !(0 <= index < |Columns|) then Panic(IndexOutOfBounds)
    else
      ColumnTable(index, spin);
      Ok(if spin in Columns[index] then Win(stake, 2.0) else 0.0)
  }

  /** Row `index` of the column table holds the board numbers congruent to
      index+1 modulo 3. */
  lemma ColumnTable(index: int, spin: int)
    requires 0 <= index < 3
    ensures spin in Columns[index] <==> OnBoard(spin) && spin % 3 == (index + 1) % 3
  {
    if OnBoard(spin) && spin % 3 == (index + 1) % 3 {
      assert Columns[index][(spin - 1) / 3] == spin;
    }
  }

  /** Resolve one bet against the winning number: panics exactly for the
      unresolvable categories, and otherwise pays the stake times the net odds
      plus the stake on a win and nothing on a loss. */
  function ResultsHandler(spin: int, bet: Bet): (r: Result<real>)
    ensures r.Panic? <==> Panics(bet.betType)
    ensures r.Panic? ==> r.cause == if bet.betType.Split? then UnwrapOnNone else IndexOutOfBounds
    ensures r.Ok? ==>
      r.value == if Wins(spin, bet.betType) then (NetOdds(bet.betType) + 1.0) * bet.amount else 0.0
  {
    var stake := bet.amount;
    match bet.betType
    case Single(value) => Ok(SingleHandler(spin, stake, value))
    case Split(first, second) => SplitHandler(spin, stake, first, second)
    case Trio(first, second, third) => Ok(TrioHandler(spin, stake, first, second, third))
    case Basket => Ok(BasketHandler(spin, stake))
    case LowPass => Ok(LowPassHandler(spin, stake))
    case HighPass => Ok(HighPassHandler(spin, stake))
    case RedOrBlack(colour) => Ok(RedOrBlackHandler(spin, stake, colour))
    case OddOrEven(parity) => Ok(OddOrEvenHandler(spin, stake, parity))
    case DozenBet(dozen) => DozenHandler(spin, stake, dozen)
    case ColumnBet(column) => ColumnHandler(spin, stake, column)
  }
}
