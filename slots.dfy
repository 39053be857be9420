/**
 * The slot machine's outcome codec and the score formula (models.go).
 *
 * A raw dice value `v` packs three reels into the six low bits of `v - 1`:
 * bits 0-1 are the left reel, bits 2-3 the centre and bits 4-5 the right.
 * Go computes them with `&` and `>>` on a 64-bit two's-complement integer;
 * on such a word `x & 3` is the Euclidean remainder of `x` by 4 and `x >> k`
 * is the floor division of `x` by 2^k, and wrap-around of `v - 1` changes
 * neither (2^64 is a multiple of 64). The model therefore states the reels
 * with Dafny's Euclidean `%` and `/`, which agree with the Go code for every
 * int64 `v`; `MasksAgree` checks the bit-level reading.
 */
module Slots {

  /** The slotFace constants, numbered by iota. */
  const Bar: int := 0
  const Cherry: int := 1
  const Lemon: int := 2
  const Seven: int := 3

  predicate IsFace(f: int) {
    Bar <= f <= Seven
  }

  /** slotMachineValue.left: `(v - 1) & 3` */
  function Left(v: int): (f: int)
    ensures IsFace(f)
  {
    (v - 1) % 4
  }

  /** slotMachineValue.center: `((v - 1) >> 2) & 3` */
  function Center(v: int): (f: int)
    ensures IsFace(f)
  {
    ((v - 1) / 4) % 4
  }

  /** slotMachineValue.right: `((v - 1) >> 4) & 3` */
  function Right(v: int): (f: int)
    ensures IsFace(f)
  {
    ((v - 1) / 16) % 4
  }

  lemma MaskLow(b: bv8)
    ensures (b & 3) as int == (b as int) % 4
  {
  }

  lemma ShiftTwo(b: bv8)
    ensures (b >> 2) as int == (b as int) / 4
  {
  }

  lemma ShiftFour(b: bv8)
    ensures (b >> 4) as int == (b as int) / 16
  {
  }

  lemma MaskMiddle(b: bv8)
    ensures ((b >> 2) & 3) as int == ((b as int) / 4) % 4
  {
    ShiftTwo(b);
    MaskLow(b >> 2);
  }

  lemma MaskHigh(b: bv8)
    ensures ((b >> 4) & 3) as int == ((b as int) / 16) % 4
  {
    ShiftFour(b);
    MaskLow(b >> 4);
  }

  /** Euclidean division by 4 is determined by quotient and remainder. */
  lemma DivMod4(x: int, q: int, r: int)
    requires 0 <= r < 4 && x == 4 * q + r
    ensures x / 4 == q && x % 4 == r
  {
  }

  /** Euclidean division by 16 is determined by quotient and remainder. */
  lemma DivMod16(x: int, q: int, r: int)
    requires 0 <= r < 16 && x == 16 * q + r
    ensures x / 16 == q && x % 16 == r
  {
  }

  /** The reels depend only on the low eight bits of `v - 1`. */
  lemma ReelsOfLowByte(x: int)
    ensures x % 4 == (x % 256) % 4
    ensures (x / 4) % 4 == ((x % 256) / 4) % 4
    ensures (x / 16) % 4 == ((x % 256) / 16) % 4
  {
    var y, q := x % 256, x / 256;
    assert x == 256 * q + y;
    var y4, y16 := y / 4, y / 16;
    DivMod4(y, y4, y % 4);
    DivMod4(x, 64 * q + y4, y % 4);
    DivMod4(y4, y4 / 4, y4 % 4);
    DivMod4(64 * q + y4, 16 * q + y4 / 4, y4 % 4);
    DivMod16(y, y16, y % 16);
    DivMod16(x, 16 * q + y16, y % 16);
    DivMod4(y16, y16 / 4, y16 % 4);
    DivMod4(16 * q + y16, 4 * q + y16 / 4, y16 % 4);
  }

  /** The masks and shifts, applied to `b`, the low eight bits of the
      two's-complement word holding `v - 1`, give the three reels. */
  lemma MasksAgree(v: int, b: bv8)
    requires b as int == (v - 1) % 256
    ensures (b & 3) as int == Left(v)
    ensures ((b >> 2) & 3) as int == Center(v)
    ensures ((b >> 4) & 3) as int == Right(v)
  {
    MaskLow(b);
    MaskMiddle(b);
    MaskHigh(b);
    ReelsOfLowByte(v - 1);
  }

  /** The raw value whose reels are `l`, `c` and `r`. */
  function Encode(l: int, c: int, r: int): int {
    1 + l + 4 * c + 16 * r
  }

  /** Decoding undoes encoding. */
  lemma DecodeEncode(l: int, c: int, r: int)
    requires IsFace(l) && IsFace(c) && IsFace(r)
    ensures Left(Encode(l, c, r)) == l
    ensures Center(Encode(l, c, r)) == c
    ensures Right(Encode(l, c, r)) == r
  {
    var x := l + 4 * c + 16 * r;
    assert Encode(l, c, r) - 1 == x;
    assert x == 4 * (c + 4 * r) + l;
    assert x / 4 == c + 4 * r;
    assert x == 16 * r + (l + 4 * c);
    assert x / 16 == r;
  }

  /** For a value in the dice range, encoding its reels gives the value back:
      the codec is a bijection between [1, 64] and the reel triples. */
  lemma EncodeDecode(v: int)
    requires 1 <= v <= 64
    ensures Encode(Left(v), Center(v), Right(v)) == v
  {
    var x := v - 1;
    assert x == 4 * (x / 4) + x % 4;
    assert x / 4 == 4 * (x / 16) + (x / 4) % 4;
    assert x / 16 < 4;
  }

  /** Every reel triple comes from exactly one value in [1, 64]. */
  lemma DecodeBijective(l: int, c: int, r: int)
    requires IsFace(l) && IsFace(c) && IsFace(r)
    ensures forall v :: 1 <= v <= 64 && Left(v) == l && Center(v) == c && Right(v) == r ==> v == Encode(l, c, r)
  {
    forall v | 1 <= v <= 64 && Left(v) == l && Center(v) == c && Right(v) == r
      ensures v == Encode(l, c, r)
    {
      EncodeDecode(v);
    }
  }

  /** A winning spin: all three reels show the same face (main.go:567-568). */
  predicate IsWin(v: int) {
    Left(v) == Center(v) && Center(v) == Right(v)
  }

  /** A winning value in the dice range is 1 + 21 * f for its face f. */
  lemma WinIsTriple(v: int)
    requires 1 <= v <= 64 && IsWin(v)
    ensures v == 1 + 21 * Left(v)
  {
    var f := Left(v);
    EncodeDecode(v);
    assert Encode(f, f, f) == 1 + 21 * f;
  }

  /** In the dice range exactly 1, 22, 43 and 64 win, showing bar, cherry,
      lemon and seven respectively. */
  lemma Jackpots(v: int)
    requires 1 <= v <= 64
    ensures IsWin(v) <==> v in {1, 22, 43, 64}
    ensures v == 1 ==> IsWin(v) && Left(v) == Bar
    ensures v == 22 ==> IsWin(v) && Left(v) == Cherry
    ensures v == 43 ==> IsWin(v) && Left(v) == Lemon
    ensures v == 64 ==> IsWin(v) && Left(v) == Seven
  {
    if IsWin(v) {
      WinIsTriple(v);
    }
    assert IsWin(1) && Left(1) == Bar;
    assert IsWin(22) && Left(22) == Cherry;
    assert IsWin(43) && Left(43) == Lemon;
    assert IsWin(64) && Left(64) == Seven;
  }

  /** The points a three-of-a-kind of face `f` pays (main.go:584-596). */
  function Payout(f: int): (p: int)
    requires IsFace(f)
    ensures p > 0
    ensures p == 100 <==> f == Seven
  {
    if f == Bar then 50
    else if f == Cherry then 10
    else if f == Lemon then 20
    else 100
  }

  /** A player's record in one group (the `stats` struct); times are Unix seconds. */
  datatype Stats = Stats(
    userID: int,
    groupID: int,
    username: string,
    barWins: int,
    cherryWins: int,
    lemonWins: int,
    sevenWins: int,
    totalGames: int,
    lastPlayedAt: int)
  {
    predicate CountersNonNegative() {
      barWins >= 0 && cherryWins >= 0 && lemonWins >= 0 && sevenWins >= 0 && totalGames >= 0
    }

    /** The number of wins recorded for face `f`. */
    function Wins(f: int): int
      requires IsFace(f)
    {
      if f == Bar then barWins
      else if f == Cherry then cherryWins
      else if f == Lemon then lemonWins
      else sevenWins
    }

    /** stats.Score: each win weighted by the payout of its face. */
    function Score(): (s: int)
      ensures CountersNonNegative() ==> s >= 0
    {
      sevenWins * 100 + barWins * 50 + lemonWins * 20 + cherryWins * 10
    }

    /** The record with one more win of face `f`. */
    function AddWin(f: int): (s: Stats)
      requires IsFace(f)
      ensures s.Wins(f) == Wins(f) + 1
      ensures forall g :: IsFace(g) && g != f ==> s.Wins(g) == Wins(g)
    {
      if f == Bar then this.(barWins := barWins + 1)
      else if f == Cherry then this.(cherryWins := cherryWins + 1)
      else if f == Lemon then this.(lemonWins := lemonWins + 1)
      else this.(sevenWins := sevenWins + 1)
    }
  }

  /** The score weighs each face's wins by that face's payout. */
  lemma ScoreWeighsPayouts(s: Stats)
    ensures s.Score() == Payout(Seven) * s.Wins(Seven) + Payout(Bar) * s.Wins(Bar)
                       + Payout(Lemon) * s.Wins(Lemon) + Payout(Cherry) * s.Wins(Cherry)
  {
  }

  /** One more win of a face raises the score by exactly that face's payout. */
  lemma ScoreOfAddWin(s: Stats, f: int)
    requires IsFace(f)
    ensures s.AddWin(f).Score() == s.Score() + Payout(f)
  {
  }
}
