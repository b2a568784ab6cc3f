/**
 The piece randomizer of the falling-block game: a 16-bit feedback shuffle,
 memo tables of repeated shuffles, the one-step piece transition and the
 seed cruncher that drives it.

 Rust's `u8` and `u16` are modelled as `bv8` and `bv16`, so every addition
 wraps exactly as the Rust release build does.
 */
module Rng {

  /** Rust's `i32`, the type of the requested sequence length. */
  newtype i32 = x: int | -0x8000_0000 <= x < 0x8000_0000

  /** The seven piece ids, in the order T, J, Z, O, S, L, I. */
  const OrientationIds: seq<bv8> := [0x02, 0x07, 0x08, 0x0A, 0x0B, 0x0E, 0x12]

  /** Decoder from piece id to its letter; "" for ids that are not pieces. */
  const PieceMap: seq<string> :=
    ["", "", "T", "", "", "", "", "J", "Z", "", "O", "S", "", "", "L", "", "", "", "I"]

  /** Size of each memo table row: one entry per 16-bit value. */
  const TableSize: int := 0x10000

  /** Number of rows of the repeat table, one per repeat nybble. */
  const RepeatRows: int := 0x10

  // ---------------------------------------------------------------------------
  // The bit shuffle
  // ---------------------------------------------------------------------------

  /** The high byte of a 16-bit value. */
  function Hi(x: bv16): bv8
  {
    (x >> 8) as bv8
  }

  /** The low byte of a 16-bit value. */
  function Lo(x: bv16): bv8
  {
    (x & 0xFF) as bv8
  }

  /**
   One step of the generator, computed byte-wise as the game does it. The
   high and low bytes stay 16-bit values, as `rng_hi` and `rng_lo` are `u16`
   in the game, so no narrowing happens before the final combination.
   */
  function Shuffle(rng: bv16): bv16
  {
    var hi := rng >> 8;
    var lo := rng & 0xFF;
    var newBit := ((hi ^ lo) & 2) << 6;
    var newHi := newBit | (hi >> 1);
    var newLo := ((hi & 1) << 7) | (lo >> 1);
    (newHi << 8) | newLo
  }

  /** `Shuffle` applied `n` times to `x`. */
  function ShuffleN(x: bv16, n: nat): bv16
  {
    if n == 0 then x else Shuffle(ShuffleN(x, n - 1))
  }

  /**
   What the byte-wise computation amounts to: a right shift of the 16-bit
   register whose new top bit is the exclusive or of bits 9 and 1.
   */
  lemma ShuffleIsShiftRegister(rng: bv16)
    ensures Shuffle(rng) == (rng >> 1) | ((((rng >> 9) ^ (rng >> 1)) & 1) << 15)
  {
  }

  /** The known input/output pairs of the shuffle. */
  lemma ShuffleTestVectors()
    ensures Shuffle(0x09DF) == 0x84EF
    ensures Shuffle(0xBA87) == 0x5D43
    ensures Shuffle(0x0840) == 0x0420
    ensures Shuffle(0xF5D4) == 0x7AEA
    ensures Shuffle(0x1820) == 0x0C10
    ensures Shuffle(0x0000) == 0x0000
  {
  }

  /** Bit 0 of the input never reaches the output. */
  lemma ShuffleIgnoresBit0(x: bv16)
    ensures Shuffle(x) == Shuffle(x & 0xFFFE)
  {
  }

  /** So no number (at least one) of shuffles depends on bit 0 either. */
  lemma {:induction false} ShuffleNIgnoresBit0(x: bv16, n: nat)
    requires n >= 1
    ensures ShuffleN(x, n) == ShuffleN(x & 0xFFFE, n)
  {
    if n == 1 {
      ShuffleIgnoresBit0(x);
    } else {
      ShuffleNIgnoresBit0(x, n - 1);
    }
  }

  // ---------------------------------------------------------------------------
  // The memo tables
  // ---------------------------------------------------------------------------

  /**
   How many shuffles row `index` of the repeat table applies: 19 for row 0,
   `index + 3` for the others.
   */
  function Repeats(index: nat): (n: nat)
    requires index < RepeatRows
    ensures 4 <= n <= 19
    ensures n == 19 <==> index == 0
    ensures index > 0 ==> n - index == 3
  {
    (if index == 0 then 0x10 else index) + 3
  }

  /** The shape of the tables the randomizer is given. */
  predicate TableShape(shuffled: array<bv16>, byRepeats: array2<bv16>)
  {
    shuffled.Length == TableSize && byRepeats.Length0 == RepeatRows && byRepeats.Length1 == TableSize
  }

  /** Every entry of both tables holds the value it memoizes. */
  ghost predicate TablesFilled(shuffled: array<bv16>, byRepeats: array2<bv16>)
    reads shuffled, byRepeats
  {
    && TableShape(shuffled, byRepeats)
    && (forall i :: 0 <= i < TableSize ==> shuffled[i] == Shuffle(i as bv16))
    && (forall r, i :: 0 <= r < RepeatRows && 0 <= i < TableSize ==>
          byRepeats[r, i] == ShuffleN(i as bv16, Repeats(r)))
  }

  /** Builds `shuffled` (one shuffle of every value) and `byRepeats` (row `r` holds `Repeats(r)` shuffles). */
  method PreShuffle() returns (shuffled: array<bv16>, byRepeats: array2<bv16>)
    ensures fresh(shuffled) && fresh(byRepeats)
    ensures TablesFilled(shuffled, byRepeats)
  {
    shuffled := new bv16[TableSize];
    for i := 0 to TableSize
      invariant forall j :: 0 <= j < i ==> shuffled[j] == Shuffle(j as bv16)
    {
      shuffled[i] := Shuffle(i as bv16);
    }
    byRepeats := new bv16[RepeatRows, TableSize];
    for index := 0 to RepeatRows
      invariant forall j :: 0 <= j < TableSize ==> shuffled[j] == Shuffle(j as bv16)
      invariant forall r, j :: 0 <= r < index && 0 <= j < TableSize ==>
                  byRepeats[r, j] == ShuffleN(j as bv16, Repeats(r))
    {
      var repeats := 0x10;
      if index != 0 {
        repeats := index;
      }
      repeats := repeats + 3;
      for i := 0 to TableSize
        invariant forall j :: 0 <= j < TableSize ==> shuffled[j] == Shuffle(j as bv16)
        invariant forall r, j :: 0 <= r < index && 0 <= j < TableSize ==>
                    byRepeats[r, j] == ShuffleN(j as bv16, Repeats(r))
        invariant forall j :: 0 <= j < i ==> byRepeats[index, j] == ShuffleN(j as bv16, Repeats(index))
      {
        var s := i as bv16;
        for k := 0 to repeats
          invariant s == ShuffleN(i as bv16, k)
        {
          s := Shuffle(s);
        }
        byRepeats[index, i] := s;
      }
    }
  }

  /**
   Rows 1 to 15 of the repeat table, then row 0, each apply one shuffle
   more than the row before: row 0 is row 15 shuffled once more.
   */
  lemma RepeatRowsChain(shuffled: array<bv16>, byRepeats: array2<bv16>, r: int, i: int)
    requires TablesFilled(shuffled, byRepeats)
    requires 1 <= r < RepeatRows && 0 <= i < TableSize
    ensures var next := if r == RepeatRows - 1 then 0 else r + 1;
            byRepeats[next, i] == shuffled[byRepeats[r, i]]
  {
  }

  /** The repeat table's known entry: four shuffles of 0x1111. */
  lemma PreShuffleTestVector(shuffled: array<bv16>, byRepeats: array2<bv16>)
    requires TablesFilled(shuffled, byRepeats)
    ensures byRepeats[1, 0x1111] == 0x0111
    ensures shuffled[0x09DF] == 0x84EF
  {
    assert byRepeats[1, 0x1111] == ShuffleN(0x1111, 4);
    assert shuffled[0x09DF] == Shuffle(0x09DF);
  }

  // ---------------------------------------------------------------------------
  // One step of the state machine
  // ---------------------------------------------------------------------------

  /**
   The generator state threaded through `NextPiece`: the repeat nybble, the
   two roll bytes, the counter and the last spawned piece id.
   */
  datatype State = State(repeatNybble: bv8, s1: bv8, s2: bv8, s3: bv8, spawnId: bv8)

  /**
   The state with the bits that never influence a later step cleared: bit 0
   of `s2` and all but the low three bits of `s3`.
   */
  function Canonical(st: State): State
  {
    st.(s2 := st.s2 & 0xFE, s3 := st.s3 & 7)
  }

  /** The index into a table row: `s1` as high byte, `s2` as low byte. */
  function RollIndex(s1: bv8, s2: bv8): bv16
  {
    ((s1 as bv16) << 8) | (s2 as bv16)
  }

  /**
   First pick: high byte of the roll plus the counter, low three bits. The
   sum is taken at 16 bits, as the game widens both bytes to `u16`; `roll >> 8`
   is the same byte that `Hi(roll)` names.
   */
  function Candidate(roll: bv16, s3: bv8): (c: bv8)
    ensures c <= 7
  {
    (((roll >> 8) + s3 as bv16) & 0x7) as bv8
  }

  /** The first pick is rejected when it is 7 or would repeat the last piece. */
  predicate NeedsReroll(c: bv8, spawnId: bv8)
    requires c <= 7
  {
    c == 7 || OrientationIds[c] == spawnId
  }

  /**
   Second pick: low three bits of the re-rolled high byte plus the last
   piece id, as a `u8` sum (wrapping), modulo 7.
   */
  function RerollIndex(reroll: bv16, spawnId: bv8): (k: bv8)
    ensures k < 7
  {
    ((Hi(reroll) & 7) + spawnId) % 7
  }

  /**
   The choice `get_next_piece` makes once the roll and its one-more shuffle
   (the re-roll) are known: advance the counter, spawn the candidate unless
   it is 7 or a repeat of the last piece, otherwise spawn the re-roll's pick,
   and clear the inert bits of the new state.
   */
  function PickPiece(st: State, roll: bv16, reroll: bv16): (r: State)
    ensures r.repeatNybble == st.repeatNybble
    ensures r.s2 % 2 == 0 && r.s3 == (st.s3 + 1) % 8
    ensures r.spawnId in OrientationIds
    ensures var c := Candidate(roll, st.s3 + 1);
            NeedsReroll(c, st.spawnId) ||
            (r.spawnId == OrientationIds[c] && r.s1 == Hi(roll) && r.s2 == Lo(roll) & 0xFE)
    ensures r.spawnId == st.spawnId ==> NeedsReroll(Candidate(roll, st.s3 + 1), st.spawnId)
  {
    var s3 := st.s3 + 1;
    var result := Candidate(roll, s3);
    if NeedsReroll(result, st.spawnId) then
      State(st.repeatNybble, Hi(reroll), Lo(reroll) & 0xFE, s3 & 0x7,
            OrientationIds[RerollIndex(reroll, st.spawnId)])
    else
      State(st.repeatNybble, Hi(roll), Lo(roll) & 0xFE, s3 & 0x7, OrientationIds[result])
  }

  /**
   The re-roll branch: when the candidate is rejected, the new bytes come
   from the re-roll and the piece is the exact sum of its low high-byte bits
   and the last piece id, modulo 7 (for a last id that is 0 or a piece id).
   */
  lemma PickPieceRerolls(st: State, roll: bv16, reroll: bv16)
    requires st.spawnId == 0 || st.spawnId in OrientationIds
    requires NeedsReroll(Candidate(roll, st.s3 + 1), st.spawnId)
    ensures var r := PickPiece(st, roll, reroll);
            r.s1 == Hi(reroll) && r.s2 == Lo(reroll) & 0xFE &&
            r.spawnId == OrientationIds[((Hi(reroll) & 7) as int + st.spawnId as int) % 7]
  {
    RerollSumFits(reroll, st.spawnId);
  }

  /**
   `get_next_piece`: looks up the roll in the repeat row the repeat nybble
   selects, and the roll's entry in `shuffled`, which the pick uses only
   when it re-rolls.
   */
  function NextPiece(st: State, shuffled: array<bv16>, byRepeats: array2<bv16>): (r: State)
    requires TableShape(shuffled, byRepeats)
    requires st.repeatNybble < 16
    reads shuffled, byRepeats
    ensures r.repeatNybble == st.repeatNybble
    ensures r.s2 % 2 == 0 && r.s3 == (st.s3 + 1) % 8
    ensures r.spawnId in OrientationIds
  {
    var roll := byRepeats[st.repeatNybble, RollIndex(st.s1, st.s2)];
    PickPiece(st, roll, shuffled[roll])
  }

  /** The roll a state looks up, stated through the shuffle itself. */
  function Roll(st: State): bv16
    requires st.repeatNybble < 16
  {
    ShuffleN(RollIndex(st.s1, st.s2), Repeats(st.repeatNybble as int))
  }

  /**
   With filled tables a step picks from `Repeats` shuffles of the roll
   index, and re-rolls with one shuffle more.
   */
  lemma NextPieceFromShuffles(st: State, shuffled: array<bv16>, byRepeats: array2<bv16>)
    requires TablesFilled(shuffled, byRepeats)
    requires st.repeatNybble < 16
    ensures NextPiece(st, shuffled, byRepeats) == PickPiece(st, Roll(st), Shuffle(Roll(st)))
  {
    var roll := byRepeats[st.repeatNybble, RollIndex(st.s1, st.s2)];
    RollLookup(st, shuffled, byRepeats);
    RerollLookup(roll, shuffled, byRepeats);
  }

  /** A filled repeat row holds the state's roll at its roll index. */
  lemma RollLookup(st: State, shuffled: array<bv16>, byRepeats: array2<bv16>)
    requires TablesFilled(shuffled, byRepeats)
    requires st.repeatNybble < 16
    ensures byRepeats[st.repeatNybble, RollIndex(st.s1, st.s2)] == Roll(st)
  {
    var idx := RollIndex(st.s1, st.s2);
    assert (idx as int) as bv16 == idx;
  }

  /** A filled `shuffled` table holds one shuffle of every value. */
  lemma RerollLookup(roll: bv16, shuffled: array<bv16>, byRepeats: array2<bv16>)
    requires TablesFilled(shuffled, byRepeats)
    ensures shuffled[roll] == Shuffle(roll)
  {
    assert (roll as int) as bv16 == roll;
  }

  /** The known step: seed 11 11 11 with repeat nybble 1 spawns O (0x0A). */
  lemma NextPieceTestVector(shuffled: array<bv16>, byRepeats: array2<bv16>)
    requires TablesFilled(shuffled, byRepeats)
    ensures NextPiece(State(0x01, 0x11, 0x11, 0x11, 0x00), shuffled, byRepeats)
            == State(0x01, 0x01, 0x10, 0x02, 0x0A)
  {
    PreShuffleTestVector(shuffled, byRepeats);
    assert RollIndex(0x11, 0x11) == 0x1111;
  }

  /**
   A step that re-rolls: with O (0x0A) last, the candidate O is rejected, the
   re-roll is the shuffle of the roll 0x0111, and its pick is O again.
   */
  lemma NextPieceRerollTestVector(shuffled: array<bv16>, byRepeats: array2<bv16>)
    requires TablesFilled(shuffled, byRepeats)
    ensures NextPiece(State(0x01, 0x11, 0x11, 0x11, 0x0A), shuffled, byRepeats)
            == State(0x01, 0x00, 0x88, 0x02, 0x0A)
  {
    PreShuffleTestVector(shuffled, byRepeats);
    assert RollIndex(0x11, 0x11) == 0x1111;
    assert shuffled[0x0111] == Shuffle(0x0111) == 0x0088;
  }

  /**
   The re-roll's `u8` addition cannot wrap when the last piece id is 0 (no
   piece yet) or a piece id, which are the only ids `CrunchSeed` passes.
   */
  lemma RerollSumFits(reroll: bv16, spawnId: bv8)
    requires spawnId == 0 || spawnId in OrientationIds
    ensures (Hi(reroll) & 7) as int + spawnId as int < 0x100
    ensures RerollIndex(reroll, spawnId) as int == ((Hi(reroll) & 7) as int + spawnId as int) % 7
  {
  }

  /** The candidate and the next counter read only the low three bits of the counter. */
  lemma CandidateReadsLowCounterBits(roll: bv16, a: bv8, b: bv8)
    requires a & 7 == b & 7
    ensures (a + 1) & 7 == (b + 1) & 7
    ensures Candidate(roll, a + 1) == Candidate(roll, b + 1)
  {
  }

  /** So the pick ignores the bits `Canonical` clears. */
  lemma PickPieceIgnoresInertBits(st: State, roll: bv16, reroll: bv16)
    ensures PickPiece(st, roll, reroll) == PickPiece(Canonical(st), roll, reroll)
  {
    var c := Canonical(st);
    CandidateReadsLowCounterBits(roll, st.s3, c.s3);
    var k := Candidate(roll, st.s3 + 1);
    if NeedsReroll(k, st.spawnId) {
      assert NeedsReroll(k, c.spawnId);
    } else {
      assert !NeedsReroll(k, c.spawnId);
    }
  }

  /** Clearing bit 0 of `s2` changes no roll: at least four shuffles are applied. */
  lemma RollIgnoresBit0(s1: bv8, s2: bv8, n: nat)
    requires n >= 1
    ensures ShuffleN(RollIndex(s1, s2 & 0xFE), n) == ShuffleN(RollIndex(s1, s2), n)
  {
    var idx := RollIndex(s1, s2);
    assert RollIndex(s1, s2 & 0xFE) == idx & 0xFFFE;
    ShuffleNIgnoresBit0(idx, n);
  }

  /** Cleared bits are inert: a state and its canonical form step alike. */
  lemma NextPieceCanonical(st: State, shuffled: array<bv16>, byRepeats: array2<bv16>)
    requires TablesFilled(shuffled, byRepeats)
    requires st.repeatNybble < 16
    ensures NextPiece(st, shuffled, byRepeats) == NextPiece(Canonical(st), shuffled, byRepeats)
  {
    var c := Canonical(st);
    RollIgnoresBit0(st.s1, st.s2, Repeats(st.repeatNybble as int));
    assert Roll(c) == Roll(st);
    NextPieceFromShuffles(st, shuffled, byRepeats);
    NextPieceFromShuffles(c, shuffled, byRepeats);
    PickPieceIgnoresInertBits(st, Roll(st), Shuffle(Roll(st)));
  }

  // ---------------------------------------------------------------------------
  // Crunching a seed into a piece sequence
  // ---------------------------------------------------------------------------

  /** The state a seed starts from: repeat nybble from the top of `seed3`, no piece yet. */
  function InitialState(seed1: bv8, seed2: bv8, seed3: bv8): (st: State)
    ensures st.repeatNybble < 16 && st.repeatNybble == seed3 / 16
    ensures st.spawnId == 0
  {
    State(seed3 >> 4, seed1, seed2, seed3, 0)
  }

  /** The state after `n` steps from `st`. */
  function StateAfter(st: State, n: nat, shuffled: array<bv16>, byRepeats: array2<bv16>): (r: State)
    requires TableShape(shuffled, byRepeats)
    requires st.repeatNybble < 16
    reads shuffled, byRepeats
    ensures r.repeatNybble == st.repeatNybble
    ensures n > 0 ==> r.spawnId in OrientationIds
  {
    if n == 0 then st else NextPiece(StateAfter(st, n - 1, shuffled, byRepeats), shuffled, byRepeats)
  }

  /** The ids spawned by the first `n` steps from `st`, in order. */
  function Pieces(st: State, n: nat, shuffled: array<bv16>, byRepeats: array2<bv16>): (ids: seq<bv8>)
    requires TableShape(shuffled, byRepeats)
    requires st.repeatNybble < 16
    reads shuffled, byRepeats
    ensures |ids| == n
    ensures forall k :: 0 <= k < n ==> ids[k] in OrientationIds
  {
    seq(n, k reads shuffled, byRepeats requires 0 <= k < n => StateAfter(st, k + 1, shuffled, byRepeats).spawnId)
  }

  /** The sequence `crunch_seed` yields for a seed and a non-negative length. */
  function SeedSequence(seed1: bv8, seed2: bv8, seed3: bv8, n: nat,
                        shuffled: array<bv16>, byRepeats: array2<bv16>): seq<bv8>
    requires TableShape(shuffled, byRepeats)
    reads shuffled, byRepeats
  {
    Pieces(InitialState(seed1, seed2, seed3), n, shuffled, byRepeats)
  }

  /**
   `crunch_seed`: runs `NextPiece` `length` times from the seed's initial
   state (no times for a negative length) and collects the spawned ids.
   */
  method CrunchSeed(seed1: bv8, seed2: bv8, seed3: bv8,
                    shuffled: array<bv16>, byRepeats: array2<bv16>, length: i32)
    returns (sequence: seq<bv8>)
    requires TableShape(shuffled, byRepeats)
    ensures |sequence| == if length > 0 then length as int else 0
    ensures forall k :: 0 <= k < |sequence| ==> sequence[k] in OrientationIds
    ensures sequence == SeedSequence(seed1, seed2, seed3, |sequence|, shuffled, byRepeats)
  {
    sequence := [];
    var repeatNybble := seed3 >> 4;
    var spawnId: bv8 := 0;
    var s1, s2, s3 := seed1, seed2, seed3;
    var count := if length > 0 then length as int else 0;
    ghost var start := InitialState(seed1, seed2, seed3);
    for i := 0 to count
      invariant State(repeatNybble, s1, s2, s3, spawnId) == StateAfter(start, i, shuffled, byRepeats)
      invariant sequence == Pieces(start, i, shuffled, byRepeats)
    {
      var next := NextPiece(State(repeatNybble, s1, s2, s3, spawnId), shuffled, byRepeats);
      s1, s2, s3, spawnId := next.s1, next.s2, next.s3, next.spawnId;
      sequence := sequence + [spawnId];
      PiecesSnoc(start, i, shuffled, byRepeats);
    }
  }

  /** A shorter run is a prefix of a longer one from the same state. */
  lemma PiecesPrefix(st: State, n: nat, m: nat, shuffled: array<bv16>, byRepeats: array2<bv16>)
    requires TableShape(shuffled, byRepeats)
    requires st.repeatNybble < 16
    requires n <= m
    ensures Pieces(st, n, shuffled, byRepeats) == Pieces(st, m, shuffled, byRepeats)[..n]
  {
    var short, long := Pieces(st, n, shuffled, byRepeats), Pieces(st, m, shuffled, byRepeats);
    forall k | 0 <= k < n
      ensures short[k] == long[..n][k]
    {
      PiecesAt(st, n, k, shuffled, byRepeats);
      PiecesAt(st, m, k, shuffled, byRepeats);
    }
    EqualPointwise(short, long[..n]);
  }

  /** The `k`-th id of a run is the one the `k + 1`-th step spawns. */
  lemma PiecesAt(st: State, n: nat, k: nat, shuffled: array<bv16>, byRepeats: array2<bv16>)
    requires TableShape(shuffled, byRepeats)
    requires st.repeatNybble < 16
    requires k < n
    ensures Pieces(st, n, shuffled, byRepeats)[k] == StateAfter(st, k + 1, shuffled, byRepeats).spawnId
  {
  }

  /** One more step appends exactly the id it spawns. */
  lemma PiecesSnoc(st: State, m: nat, shuffled: array<bv16>, byRepeats: array2<bv16>)
    requires TableShape(shuffled, byRepeats)
    requires st.repeatNybble < 16
    ensures Pieces(st, m + 1, shuffled, byRepeats)
            == Pieces(st, m, shuffled, byRepeats) + [StateAfter(st, m + 1, shuffled, byRepeats).spawnId]
  {
    var shorter, longer := Pieces(st, m, shuffled, byRepeats), Pieces(st, m + 1, shuffled, byRepeats);
    var appended := shorter + [StateAfter(st, m + 1, shuffled, byRepeats).spawnId];
    forall k | 0 <= k < m + 1
      ensures longer[k] == appended[k]
    {
      PiecesAt(st, m + 1, k, shuffled, byRepeats);
      if k < m {
        PiecesAt(st, m, k, shuffled, byRepeats);
      }
    }
    EqualPointwise(longer, appended);
  }

  /** The sequence of a seed for length `n` is a prefix of its sequence for any longer length. */
  lemma SeedSequencePrefix(seed1: bv8, seed2: bv8, seed3: bv8, n: nat, m: nat,
                           shuffled: array<bv16>, byRepeats: array2<bv16>)
    requires TableShape(shuffled, byRepeats)
    requires n <= m
    ensures SeedSequence(seed1, seed2, seed3, n, shuffled, byRepeats)
            == SeedSequence(seed1, seed2, seed3, m, shuffled, byRepeats)[..n]
  {
    PiecesPrefix(InitialState(seed1, seed2, seed3), n, m, shuffled, byRepeats);
  }

  /** Two states with the same canonical form are in the same state after any positive number of steps. */
  lemma {:induction false} StateAfterCanonical(a: State, b: State, n: nat,
                                               shuffled: array<bv16>, byRepeats: array2<bv16>)
    requires TablesFilled(shuffled, byRepeats)
    requires a.repeatNybble < 16
    requires Canonical(a) == Canonical(b)
    requires n > 0
    ensures StateAfter(a, n, shuffled, byRepeats) == StateAfter(b, n, shuffled, byRepeats)
  {
    if n == 1 {
      NextPieceCanonical(a, shuffled, byRepeats);
      NextPieceCanonical(b, shuffled, byRepeats);
    } else {
      StateAfterCanonical(a, b, n - 1, shuffled, byRepeats);
    }
  }

  /** Two states with the same canonical form spawn the same pieces. */
  lemma PiecesCanonical(a: State, b: State, n: nat, shuffled: array<bv16>, byRepeats: array2<bv16>)
    requires TablesFilled(shuffled, byRepeats)
    requires a.repeatNybble < 16
    requires Canonical(a) == Canonical(b)
    ensures Pieces(a, n, shuffled, byRepeats) == Pieces(b, n, shuffled, byRepeats)
  {
    var pa, pb := Pieces(a, n, shuffled, byRepeats), Pieces(b, n, shuffled, byRepeats);
    forall k | 0 <= k < n
      ensures pa[k] == pb[k]
    {
      PiecesCanonicalAt(a, b, n, k, shuffled, byRepeats);
    }
    EqualPointwise(pa, pb);
  }

  /** One entry of `PiecesCanonical`. */
  lemma PiecesCanonicalAt(a: State, b: State, n: nat, k: nat, shuffled: array<bv16>, byRepeats: array2<bv16>)
    requires TablesFilled(shuffled, byRepeats)
    requires a.repeatNybble < 16
    requires Canonical(a) == Canonical(b)
    requires k < n
    ensures Pieces(a, n, shuffled, byRepeats)[k] == Pieces(b, n, shuffled, byRepeats)[k]
  {
    PiecesAt(a, n, k, shuffled, byRepeats);
    PiecesAt(b, n, k, shuffled, byRepeats);
    StateAfterCanonical(a, b, k + 1, shuffled, byRepeats);
  }

  /** Sequences of equal length that agree at every index are equal. */
  lemma EqualPointwise(s: seq<bv8>, t: seq<bv8>)
    requires |s| == |t|
    requires forall k :: 0 <= k < |s| ==> s[k] == t[k]
    ensures s == t
  {
  }

  /**
   Bit 0 of `seed2` and bit 3 of `seed3` are inert: clearing them yields
   the same sequence, which is why scanning skips seeds that have them set.
   */
  lemma SeedSequenceIgnoresMaskedBits(seed1: bv8, seed2: bv8, seed3: bv8, n: nat,
                                      shuffled: array<bv16>, byRepeats: array2<bv16>)
    requires TablesFilled(shuffled, byRepeats)
    ensures SeedSequence(seed1, seed2, seed3, n, shuffled, byRepeats)
            == SeedSequence(seed1, seed2 & 0xFE, seed3 & 0xF7, n, shuffled, byRepeats)
  {
    var a, b := InitialState(seed1, seed2, seed3), InitialState(seed1, seed2 & 0xFE, seed3 & 0xF7);
    assert Canonical(a) == Canonical(b);
    PiecesCanonical(a, b, n, shuffled, byRepeats);
  }

  /** Every piece id decodes to its letter, and only piece ids decode to a letter. */
  lemma PieceMapDecodes()
    ensures |PieceMap| == 0x13
    ensures forall k :: 0 <= k < 7 ==> PieceMap[OrientationIds[k]] == ["TJZOSLI"[k]]
    ensures forall id: bv8 :: id < 0x13 && id !in OrientationIds ==> PieceMap[id] == ""
  {
    forall id: bv8 | id < 0x13 && id !in OrientationIds
      ensures PieceMap[id] == ""
    {
      assert id in {0x00, 0x01, 0x03, 0x04, 0x05, 0x06, 0x09, 0x0C, 0x0D, 0x0F, 0x10, 0x11};
    }
  }
}
