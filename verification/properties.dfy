/**
 Properties of the resolver that relate several calls: the parity walk the
 Rust program's `odd_even` tests check, the symmetry and order-independence
 of the shape checks, the way complementary bets split the wheel, and the
 shape of every payout.
 */
module Properties {
  import opened Failures
  import opened Classify
  import opened Board
  import opened Payouts

  /** Walking 0, 1, 2, ... the parity alternates Even, Odd, Even, ...
      starting from Even at zero. */
  lemma {:induction false} ParityAlternates(count: nat)
    ensures NumberOddOrEven(count) == AlternatingFlag(count)
  {
    if count > 0 {
      ParityAlternates(count - 1);
      assert (count - 1) % 2 == 0 <==> count % 2 == 1;
    }
  }

  /** Zero is Black and Even, so a Black bet and an Even bet both pay on
      zero while Red and Odd lose. */
  lemma ZeroPaysBlackAndEven(stake: real)
    ensures ResultsHandler(0, Bet(RedOrBlack(Black), stake)) == Ok(2.0 * stake)
    ensures ResultsHandler(0, Bet(OddOrEven(Even), stake)) == Ok(2.0 * stake)
    ensures ResultsHandler(0, Bet(RedOrBlack(Red), stake)) == Ok(0.0)
    ensures ResultsHandler(0, Bet(OddOrEven(Odd), stake)) == Ok(0.0)
  {
  }

  /** On every integer exactly one of the two colour bets pays, and exactly
      one of the two parity bets. */
  lemma ColourAndParityComplement(spin: int, stake: real)
    ensures ResultsHandler(spin, Bet(RedOrBlack(Red), stake)).value
          + ResultsHandler(spin, Bet(RedOrBlack(Black), stake)).value == 2.0 * stake
    ensures ResultsHandler(spin, Bet(OddOrEven(Even), stake)).value
          + ResultsHandler(spin, Bet(OddOrEven(Odd), stake)).value == 2.0 * stake
  {
  }

  /** The split check does not depend on the order of the pair. */
  lemma ValidSplitSymmetric(a: int, b: int)
    ensures ValidSplit(a, b) == ValidSplit(b, a)
  {
  }

  /** The split check as written: same-row and same-column neighbours pass,
      a row-end pair such as (9, 10) passes too, equal numbers fail, and zero
      panics. */
  lemma ValidSplitCases()
    ensures ValidSplit(8, 9) == Ok(true)
    ensures ValidSplit(8, 11) == Ok(true)
    ensures ValidSplit(9, 10) == Ok(true)
    ensures ValidSplit(8, 8) == Ok(false)
    ensures ValidSplit(1, 5) == Ok(false)
    ensures ValidSplit(0, 1) == Panic(UnwrapOnNone)
  {
  }

  /** A valid split pays on its two numbers only; an invalid one pays on no
      spin at all. */
  lemma SplitPaysOnItsPair(spin: int, stake: real, a: int, b: int)
    requires OnBoard(a) && OnBoard(b)
    ensures ValidSplit(a, b) == Ok(false) ==> ResultsHandler(spin, Bet(Split(a, b), stake)) == Ok(0.0)
    ensures ValidSplit(a, b) == Ok(true) ==>
      ResultsHandler(spin, Bet(Split(a, b), stake))
        == Ok(if spin == a || spin == b then 18.0 * stake else 0.0)
  {
  }

  /** The trio payout does not depend on the order in which the three
      numbers are named. */
  lemma TrioOrderIrrelevant(spin: int, stake: real, a: int, b: int, c: int)
    ensures TrioHandler(spin, stake, a, b, c) == TrioHandler(spin, stake, b, a, c)
    ensures TrioHandler(spin, stake, a, b, c) == TrioHandler(spin, stake, a, c, b)
    ensures TrioHandler(spin, stake, a, b, c) == TrioHandler(spin, stake, c, b, a)
  {
  }

  /** The trio check accepts the two zero trios in any order and nothing
      else. */
  lemma ValidTrioCases()
    ensures ValidTrio(0, 1, 2) && ValidTrio(0, 2, 1) && ValidTrio(3, 2, 0)
    ensures !ValidTrio(1, 2, 3) && !ValidTrio(0, 1, 3) && !ValidTrio(0, 0, 1)
  {
  }

  /** Every resolved bet pays nothing or its stake times the net odds plus
      one; for a non-negative stake the payout is non-negative. */
  lemma PayoutIsZeroOrFullOdds(spin: int, bet: Bet)
    requires !Panics(bet.betType)
    ensures ResultsHandler(spin, bet).Ok?
    ensures ResultsHandler(spin, bet).value == 0.0
         || ResultsHandler(spin, bet).value == (NetOdds(bet.betType) + 1.0) * bet.amount
    ensures bet.amount >= 0.0 ==> ResultsHandler(spin, bet).value >= 0.0
  {
  }

  /** The payout is linear in the stake: resolving a bet equals resolving
      the same category at unit stake, scaled. */
  lemma PayoutLinearInStake(spin: int, t: BetType, stake: real)
    requires !Panics(t)
    ensures ResultsHandler(spin, Bet(t, stake)).value
         == stake * ResultsHandler(spin, Bet(t, 1.0)).value
  {
  }

  /** Whether a bet panics depends only on its category, never on the spin
      or the stake. */
  lemma PanicIndependentOfSpin(spin1: int, spin2: int, t: BetType, stake1: real, stake2: real)
    ensures ResultsHandler(spin1, Bet(t, stake1)).Panic? == ResultsHandler(spin2, Bet(t, stake2)).Panic?
  {
  }

  /** The straight-up round trip through the dispatcher: at unit stake a
      Single bet returns 37 (the stake plus 36, not the standard 35) on its
      own number and nothing on any other. */
  lemma SingleUnitStake(spin: int, number: int)
    ensures ResultsHandler(spin, Bet(Single(number), 1.0))
         == Ok(if spin == number then 37.0 else 0.0)
  {
  }

  /** Low and high split the wheel: on 0..36 exactly one of them pays. */
  lemma LowHighPartition(spin: int, stake: real)
    requires 0 <= spin <= 36
    ensures ResultsHandler(spin, Bet(LowPass, stake)).value
          + ResultsHandler(spin, Bet(HighPass, stake)).value == 2.0 * stake
    ensures spin == 0 ==> ResultsHandler(spin, Bet(LowPass, stake)) == Ok(2.0 * stake)
  {
  }

  /** The dozen a board number falls in. */
  function DozenOf(n: int): int
  {
    (n - 1) / 12 + 1
  }

  /** The column a board number falls in. */
  function ColumnOf(n: int): int
  {
    (n - 1) % 3 + 1
  }

  /** A dozen bet pays exactly when the spin is on the board and in that
      dozen: each board number is in one dozen, and zero is in none. */
  lemma DozenPaysOnItsDozenOnly(spin: int, dozen: int, stake: real)
    requires 1 <= dozen <= 3
    ensures ResultsHandler(spin, Bet(DozenBet(dozen), stake))
         == Ok(if OnBoard(spin) && DozenOf(spin) == dozen then 3.0 * stake else 0.0)
  {
  }

  /** A column bet pays exactly when the spin is on the board and in that
      column: each board number is in one column, and zero is in none. */
  lemma ColumnPaysOnItsColumnOnly(spin: int, column: int, stake: real)
    requires 1 <= column <= 3
    ensures ResultsHandler(spin, Bet(ColumnBet(column), stake))
         == Ok(if OnBoard(spin) && ColumnOf(spin) == column then 3.0 * stake else 0.0)
  {
  }

  /** On a board number exactly one dozen and exactly one column pay; on
      zero none does. */
  lemma DozensAndColumnsPartition(spin: int, stake: real)
    requires 0 <= spin <= 36
    ensures ResultsHandler(spin, Bet(DozenBet(1), stake)).value
          + ResultsHandler(spin, Bet(DozenBet(2), stake)).value
          + ResultsHandler(spin, Bet(DozenBet(3), stake)).value
         == if spin == 0 then 0.0 else 3.0 * stake
    ensures ResultsHandler(spin, Bet(ColumnBet(1), stake)).value
          + ResultsHandler(spin, Bet(ColumnBet(2), stake)).value
          + ResultsHandler(spin, Bet(ColumnBet(3), stake)).value
         == if spin == 0 then 0.0 else 3.0 * stake
  {
    DozenPaysOnItsDozenOnly(spin, 1, stake);
    DozenPaysOnItsDozenOnly(spin, 2, stake);
    DozenPaysOnItsDozenOnly(spin, 3, stake);
    ColumnPaysOnItsColumnOnly(spin, 1, stake);
    ColumnPaysOnItsColumnOnly(spin, 2, stake);
    ColumnPaysOnItsColumnOnly(spin, 3, stake);
  }
}
