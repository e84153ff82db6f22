# Rusty Roulette bet resolution, modelled in Dafny

This project models the bet-resolution engine of the Rusty Roulette simulator.
The engine takes a winning wheel number and a bet, which is a bet type plus a
stake. It returns what the bet pays back. The model follows the Rust code as
written, not idealised roulette rules.

The model has three parts.

- The classifiers (`classify.dfy`, module `Classify`). They give the parity and
  the colour of a number. Both are total over every integer. Zero is Even and
  Black.
- The shape checks (`board.dfy`, module `Board`). The split check finds both
  numbers on a flat 1..36 layout and accepts an index difference of one or
  three. The trio check sorts the triple and compares it with the two listed
  trios, [0,1,2] and [0,2,3].
- The handlers and the dispatcher (`payouts.dfy`, module `Payouts`). There is
  one handler per bet category. Each tests the spin against a fixed table. It
  returns either 0 or `stake * odds + stake`.

`properties.dfy` (module `Properties`) holds the lemmas that relate several
calls. `failures.dfy` (module `Failures`) holds `Option`. It also holds the
`Result` type that stands in for the Rust code's panics.

Modelling decisions:

- **Panics.** Where the Rust code would panic, the model returns
  `Panic(cause)`. The split check panics on `unwrap` of `None` when either
  number is not on 1..36. The dozen and column handlers panic on an array index
  when the index is outside 1..3. The split check's `usize` subtraction cannot
  underflow, because the layout is sorted. The model keeps that branch and
  proves that it is never taken.
- **Stakes.** The `f32` stake is an exact `real`. The only arithmetic on a stake
  is `stake * k + stake`.
- **Numbers.** The `i32` numbers are unbounded `int`s. The only arithmetic on
  them is `number % 2` and `index - 1`. Width does not change either answer: at
  `i32::MIN`, `index - 1` panics in a debug build, and it wraps to an
  out-of-range index in a release build, which panics too. Rust's `%` truncates
  toward zero, and `TruncRemTwo` models that. It is zero exactly when Dafny's
  Euclidean `n % 2` is zero.

Behaviour as written, where the code departs from standard roulette. The
model keeps all of these.

- A Single win returns 37 times the stake (`stake*36 + stake`).
- A Trio win returns 18 times the stake (17:1).
- LowPass wins on 0..18, so zero is included.
- The split check does not look at row ends, so (9, 10) is accepted.
- A colour bet treats zero as Black.
- A parity bet treats zero as Even.

## Model

| member | source | states |
|---|---|---|
| Classify.TruncRemTwo | src/main.rs:123 | Rust's truncating `n % 2`: it lies in -1..1, takes the sign of `n`, and differs from `n` by a multiple of 2 |
| Classify.NumberOddOrEven | src/main.rs:121-129 | Even exactly when `n` is divisible by 2, and Odd exactly when `n % 2 == 1`, for every integer including negatives |
| Properties.ParityAlternates | src/main.rs:363-399 | walking 0, 1, 2, … the parity equals a flag that starts at Even and flips each step, which is the tests' loop extended to every natural number |
| Classify.RedTableIsStandard | src/main.rs:134-136 | the 18-entry red table holds exactly the numbers that the standard rule paints red (odd on 1..10 and 19..28, even on 11..18 and 29..36) |
| Classify.NumberRedOrBlack | src/main.rs:132-146 | Red exactly for the standard red numbers, and Black for every other integer, including 0 |
| Board.LayoutIsIdentity | src/main.rs:161-164 | the split layout has 36 entries and holds `i + 1` at index `i` |
| Board.Position | src/main.rs:166-167 | the first index of `x` in the sequence, with `None` exactly when `x` is absent |
| Board.LayoutPosition | src/main.rs:161-167 | a board number sits at index `number - 1`, and every other integer is not found |
| Board.ValidSplit | src/main.rs:149-177 | panics on unwrap exactly when either number is outside 1..36; otherwise true exactly when the numbers differ by 1 or 3 (row ends unchecked, equal numbers rejected) |
| Properties.ValidSplitSymmetric | src/main.rs:149-160 | the split check gives the same answer, or the same panic, for both orders of the pair |
| Properties.ValidSplitCases | src/main.rs:149-177 | (8,9) and (8,11) pass, the row-end pair (9,10) passes, (8,8) and (1,5) fail, and (0,1) panics |
| Board.Sort3 | src/main.rs:180-189 | the triple in ascending order, as an arrangement of exactly the three given numbers |
| Board.SortedArrangementUnique | src/main.rs:266 | any ascending arrangement of three numbers is the sorted triple, so sorting has one possible result |
| Board.Sort3IgnoresOrder | src/main.rs:266 | swapping any two of the numbers leaves the sorted triple unchanged |
| Board.TrioMembers | src/main.rs:266-270 | a number is in the sorted triple exactly when it is one of the three numbers |
| Board.ValidTrio | src/main.rs:266-269 | the sorted triple is listed exactly when the three numbers are 0, 1, 2 or 0, 2, 3 in some order |
| Properties.ValidTrioCases | src/main.rs:266-269 | (0,1,2), (0,2,1) and (3,2,0) are accepted; (1,2,3), (0,1,3) and (0,0,1) are refused |
| Payouts.SingleHandler | src/main.rs:231-237 | 37 times the stake when the spin is the bet number, and 0 otherwise |
| Payouts.SplitHandler | src/main.rs:241-254 | panics on unwrap exactly when a number is off the board; otherwise 18 times the stake when the pair differs by 1 or 3 and the spin is one of them, and 0 otherwise |
| Properties.SplitPaysOnItsPair | src/main.rs:241-254 | an invalid pair pays 0 on every spin, and a valid pair pays 18 times the stake exactly on its two numbers |
| Payouts.TrioHandler | src/main.rs:258-275 | 18 times the stake when the numbers are 0, 1, 2 or 0, 2, 3 in some order and the spin is one of the three; 0 for any other triple and any other spin |
| Properties.TrioOrderIrrelevant | src/main.rs:258-275 | swapping any two named numbers leaves the trio payout unchanged, so every ordering pays the same |
| Payouts.BasketHandler | src/main.rs:278-285 | 9 times the stake exactly on 0, 1, 2 and 3 |
| Payouts.LowPassHandler | src/main.rs:288-297 | 2 times the stake exactly on 0..18, with zero included |
| Payouts.HighPassHandler | src/main.rs:300-309 | 2 times the stake exactly on 19..36 |
| Properties.LowHighPartition | src/main.rs:288-309 | on every spin in 0..36 exactly one of low and high pays, and low pays on 0 |
| Payouts.RedOrBlackHandler | src/main.rs:312-319 | 2 times the stake exactly when the bet colour is Red and the spin is a standard red number, or the bet is Black and the spin is not |
| Payouts.OddOrEvenHandler | src/main.rs:322-329 | 2 times the stake exactly when the bet parity matches the spin's divisibility by 2 |
| Properties.ZeroPaysBlackAndEven | src/main.rs:312-329 | on 0, the Black and Even bets each pay twice the stake, and the Red and Odd bets pay 0 |
| Properties.ColourAndParityComplement | src/main.rs:312-329 | on every integer exactly one of Red and Black pays, and exactly one of Odd and Even pays |
| Payouts.DozenTable | src/main.rs:334-339 | the dozen table's row `i` holds exactly the numbers `12i+1..12i+12` |
| Payouts.DozenHandler | src/main.rs:332-343 | panics on the index exactly when the dozen is outside 1..3; otherwise 3 times the stake exactly on `12(d-1)+1..12d` |
| Properties.DozenPaysOnItsDozenOnly | src/main.rs:332-343 | dozen `d` pays exactly on the board numbers whose dozen is `d`, and never on 0 |
| Payouts.ColumnTable | src/main.rs:348-353 | the column table's row `i` holds exactly the board numbers congruent to `i+1` mod 3 |
| Payouts.ColumnHandler | src/main.rs:346-357 | panics on the index exactly when the column is outside 1..3; otherwise 3 times the stake exactly on the board numbers congruent to the column mod 3 |
| Properties.ColumnPaysOnItsColumnOnly | src/main.rs:346-357 | column `c` pays exactly on the board numbers whose column is `c`, and never on 0 |
| Properties.DozensAndColumnsPartition | src/main.rs:332-357 | on a board number exactly one dozen and exactly one column pay; on 0 none does |
| Payouts.ResultsHandler | src/main.rs:198-228 | panics exactly for an off-board split or an out-of-range dozen or column; the cause is UnwrapOnNone for a split and IndexOutOfBounds otherwise; when it does not panic it pays `(k+1)*stake` when the category's arithmetic target set holds the spin, and 0 when it does not, with `k` taken from the net-odds table |
| Properties.PayoutIsZeroOrFullOdds | src/main.rs:198-228 | every resolved bet pays 0 or `(k+1)*stake`, and never a negative amount for a non-negative stake |
| Properties.PayoutLinearInStake | src/main.rs:231-357 | a payout is the unit-stake payout of the same category times the stake |
| Properties.PanicIndependentOfSpin | src/main.rs:198-228 | whether resolution panics depends on the category alone, not on the spin or the stake |
| Properties.SingleUnitStake | src/main.rs:231-237 | at unit stake a Single bet returns 37 (not 36) on its own number and 0 on any other, through the dispatcher |

## Left out

- `main` (src/main.rs:43-116) is left out. It holds console output, a fixed bet list and the round loop. Its balance update `total -= stake; total += payout` is driver glue. So the order-independence of a round's total is not modelled.
- `spin` and the `Uniform::new(0, 36)` wheel are left out. They draw from an external random-number crate. The model takes the winning number as a parameter.
- The generic `sort` helper is left out. It wraps the standard library's slice sort. `Board.Sort3` takes its place and is specified as an ascending permutation.
- The bet types that are commented out (Street, Corner, DoubleStreet) are not implemented in the source, so they are not modelled. The same goes for the commented-out black table.
- `f32` rounding is left out. Stakes are exact reals, so a payout is exactly `stake * (k + 1)`.
- `i32` width is left out. Numbers are unbounded integers. No answer of the engine depends on the width, as explained above.
- The panic message and the stack unwinding are left out. A panic is represented by its cause alone.
