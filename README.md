# Piece randomizer of the falling-block game (rustyseed `src/rng.rs`)

This Dafny project models the randomizer that turns a 3-byte seed into the
game's sequence of pieces. It is one module, `Rng`, in `rng.dfy`, and it
follows `src/rng.rs` part by part:

- **`shuffle_rng`** is `Shuffle`, a byte-wise feedback shuffle on `bv16`.
  `ShuffleN(x, n)` applies it `n` times. `ShuffleIsShiftRegister` proves
  that the byte-wise code is a right shift of the 16-bit register whose new
  top bit is bit 9 xor bit 1.
- **`get_pre_shuffle`** is the imperative method `PreShuffle`. It fills
  `shuffled` (one shuffle of every 16-bit value) and `byRepeats`. Row `r` of
  `byRepeats` holds `Repeats(r)` shuffles of every value: 19 for row 0 and
  `r + 3` for the other rows. The method uses the same nested loops as the
  source, and its loop invariants establish `TablesFilled`.
- **`get_next_piece`** is the function `NextPiece` over the two tables.
  The choice it makes from the roll and the re-roll is `PickPiece`:
  - advance the counter;
  - take candidate `(hi(roll) + s3) & 7`;
  - if that is 7 or repeats the last piece, re-roll with
    `((hi(reroll) & 7) + spawn_id) % 7`;
  - clear the inert bits of the new state.

  `PickPiece`'s contract states the branch without a re-roll, and
  `PickPieceRerolls` states the re-roll branch.

  `NextPieceFromShuffles` shows that, with filled tables, the roll is
  `Repeats` shuffles of the roll index and the re-roll is one more.
- **`crunch_seed`** is the loop method `CrunchSeed`. It is proved equal to
  the function `Pieces` started from `InitialState`. `Pieces` is the
  sequence whose `k`-th id is the one spawned by step `k + 1`, and
  `StateAfter` iterates `NextPiece`.

`u8` and `u16` are `bv8` and `bv16`. The counter step
`((seed3 as u16 + 1) & 0xFF) as u8` is the `bv8` sum `s3 + 1`, which has the
same value, and `(s1 & 7) + spawn_id` is a `u8` sum that wraps as in a
release build. The length is a `newtype i32`.

`Canonical` is the state with the bits that never matter cleared: bit 0 of
`s2` and all but the low three bits of `s3`. The lemmas show the following:
- a state and its canonical form step to the same state;
- so seeds that differ only in bit 0 of `seed2` or bit 3 of `seed3` yield
  the same sequence. That is the "duplicate seed" skip in `src/main.rs`.

`get_next_piece` returns only the low three bits of the counter
(`s3 & 0x7`, src/rng.rs:64), and `crunch_seed` feeds that back in. Only
those bits are ever read (`CandidateReadsLowCounterBits`).

## Model

| member | source | states |
|---|---|---|
| `Rng.ShuffleIsShiftRegister` | src/rng.rs:31-38 | the byte-wise shuffle equals shifting the 16-bit register right by one, with bit 9 xor bit 1 as the new top bit |
| `Rng.ShuffleTestVectors` | src/rng.rs:96-101 | the six known shuffle pairs, including 0 mapping to 0 |
| `Rng.ShuffleIgnoresBit0` | src/rng.rs:32-36 | bit 0 of the input never reaches the output: `Shuffle(x) == Shuffle(x & 0xFFFE)` |
| `Rng.ShuffleNIgnoresBit0` | src/rng.rs:20-25 | one or more repeated shuffles do not depend on bit 0 of the start value (proved by induction on the count) |
| `Rng.Repeats` | src/rng.rs:15-19 | a row applies between 4 and 19 shuffles; it applies 19 exactly for row 0, and `index + 3` for the other rows |
| `Rng.PreShuffle` | src/rng.rs:7-29 | returns fresh tables in which `shuffled[i]` is one shuffle of `i` and `byRepeats[r, i]` is `Repeats(r)` shuffles of `i`, for every `i` below 0x10000 and row below 16 |
| `Rng.RepeatRowsChain` | src/rng.rs:14-27 | in a filled table, each of rows 2..15 is the previous row shuffled once more, and row 0 is row 15 shuffled once more |
| `Rng.PreShuffleTestVector` | src/rng.rs:104-114 | a filled table has `byRepeats[1][0x1111] == 0x0111` and `shuffled[0x09DF] == 0x84EF` |
| `Rng.Candidate` | src/rng.rs:54-55 | the first pick is at most 7, so once 7 is ruled out it indexes the 7 piece ids safely |
| `Rng.RerollIndex` | src/rng.rs:59-61 | the re-roll pick is below 7, a valid index into the piece ids |
| `Rng.PickPiece` | src/rng.rs:49-64 | the new state keeps the repeat nybble; it has an even `s2` and a counter of `(s3 + 1) mod 8`; it spawns one of the seven piece ids; without a re-roll it spawns the candidate's id and takes the roll's high byte and its low byte with bit 0 cleared; it repeats the last piece only when a re-roll was required |
| `Rng.PickPieceRerolls` | src/rng.rs:55-61 | when the candidate is 7 or repeats the last piece (0 or a piece id), the new state takes the re-roll's high byte and its low byte with bit 0 cleared, and spawns the id at index `((hi(reroll) & 7) + spawn_id) mod 7`, computed without wrap-around |
| `Rng.NextPiece` | src/rng.rs:40-66 | with tables of the built shape and a repeat nybble below 16, every lookup is in bounds; the next state keeps the nybble, has an even `s2` and a counter of `(s3 + 1) mod 8`, and spawns a piece id |
| `Rng.NextPieceFromShuffles` | src/rng.rs:50-56 | with filled tables, a step picks from `Repeats` shuffles of the roll index, and its re-roll is that roll shuffled once more |
| `Rng.RollLookup` | src/rng.rs:50-51 | in filled tables, the entry of the nybble's row at the roll index is `Repeats(nybble)` shuffles of that index |
| `Rng.RerollLookup` | src/rng.rs:56 | in filled tables, the `shuffled` entry of any roll is that roll shuffled once |
| `Rng.NextPieceTestVector` | src/rng.rs:120-123 | state (1, 0x11, 0x11, 0x11, 0) steps to (1, 0x01, 0x10, 0x02, 0x0A) |
| `Rng.NextPieceRerollTestVector` | src/rng.rs:55-64 | with O (0x0A) last, state (1, 0x11, 0x11, 0x11, 0x0A) rejects candidate O, re-rolls from 0x0088 (one shuffle of the roll 0x0111), and steps to (1, 0x00, 0x88, 0x02, 0x0A), so O repeats through the re-roll |
| `Rng.RerollSumFits` | src/rng.rs:59 | when the last piece id is 0 or a piece id, the `u8` sum in the re-roll does not wrap, and the pick is the exact sum mod 7 |
| `Rng.CandidateReadsLowCounterBits` | src/rng.rs:49-54 | counters that agree on their low three bits give the same candidate and the same next counter |
| `Rng.PickPieceIgnoresInertBits` | src/rng.rs:52-64 | the pick is the same for a state and its canonical form |
| `Rng.RollIgnoresBit0` | src/rng.rs:50-51 | clearing bit 0 of `s2` leaves every roll of one or more shuffles unchanged |
| `Rng.NextPieceCanonical` | src/rng.rs:63-64 | with filled tables, a state and its canonical form (masked `s2` and `s3`) step to the same state |
| `Rng.InitialState` | src/rng.rs:77-81 | the start state has repeat nybble `seed3 / 16` (below 16) and no piece spawned yet |
| `Rng.StateAfter` | src/rng.rs:82-84 | iterating the step keeps the repeat nybble, and after at least one step the last id is a piece id |
| `Rng.Pieces` | src/rng.rs:82-86 | `n` steps spawn exactly `n` ids, each one of the seven piece ids |
| `Rng.PiecesAt` | src/rng.rs:82-85 | the `k`-th id of a run is the id spawned by step `k + 1` |
| `Rng.PiecesSnoc` | src/rng.rs:83-85 | one more step appends exactly the id that step spawns, as the push at the end of each iteration does |
| `Rng.CrunchSeed` | src/rng.rs:68-88 | returns `max(length, 0)` ids, each a piece id, and equals the seed's specified sequence of that length |
| `Rng.PiecesPrefix` | src/rng.rs:82-86 | the ids of `n` steps are a prefix of the ids of `m >= n` steps from the same state (proved index by index) |
| `Rng.SeedSequencePrefix` | src/rng.rs:76-87 | a seed's sequence of length `n` is a prefix of its sequence of any longer length |
| `Rng.StateAfterCanonical` | src/rng.rs:63-64 | two states with the same canonical form are equal after any positive number of steps |
| `Rng.PiecesCanonical` | src/rng.rs:63-64 | two states with the same canonical form spawn the same ids |
| `Rng.SeedSequenceIgnoresMaskedBits` | src/main.rs:77-78 | seeds `(x, y, z)` and `(x, y & 0xFE, z & 0xF7)` give identical sequences of every length |
| `Rng.PieceMapDecodes` | src/rng.rs:1-5 | the decoder maps the seven piece ids to T, J, Z, O, S, L, I in order, and every other id below 0x13 to "" |

## Left out

- `src/main.rs` is not modelled: option parsing, hex parsing, printing, and the scan over all seeds that counts I and O pieces. Only the duplicate-seed skip at lines 77-78 is justified, by `SeedSequenceIgnoresMaskedBits`.
- Cycle detection over the seed space is not modelled.
- No long regression sequences are checked.
- The full 65536 x 16 table is never evaluated. It is specified through `ShuffleN`; only the entries the source's tests assert (src/rng.rs:106-114, 120-123) and the re-roll vector are computed.
- `Rng.RerollIndex`: the `u8` addition `(s1 & 7) + spawn_id` wraps, which is the release-build behaviour; the debug-build overflow panic is not modelled. `RerollSumFits` shows that the sum cannot overflow for the ids `CrunchSeed` passes.
- `Rng.NextPiece`: the model reads the `shuffled` entry of the roll before the pick rather than only in the re-roll branch. Both lookups are total, so the result is the same.
- `by_repeats` is a `Vec<Vec<u16>>` in the source and a 16 x 0x10000 `array2` here. The rows cannot alias, so row identity is not modelled.
- The result's fit in 16 bits and the table index bounds are enforced by the `bv16` types and Dafny's index checks, not stated as separate lemmas.
- No adjacent-pieces-differ property is claimed. A re-roll can spawn the same piece again; `PickPiece` states only that a repeat requires the re-roll branch.
