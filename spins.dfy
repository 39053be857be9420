/**
 * What one spin adds to the ledger (main.go, handleSlotMachine): every spin
 * counts as a game; three equal reels add one win of that face and credit
 * its payout, to the score and to the balance alike.
 */
module Spins {
  import opened Slots
  import opened Ledger

  /** The delta of a spin that did not win. */
  const NoWin: StatsDelta := StatsDelta(1, 0, 0, 0, 0, 0)

  /** The delta of three equal reels showing face `f`. */
  function WinDelta(f: int): (d: StatsDelta)
    requires IsFace(f)
  {
    StatsDelta(
      1,
      if f == Bar then 1 else 0,
      if f == Cherry then 1 else 0,
      if f == Lemon then 1 else 0,
      if f == Seven then 1 else 0,
      Payout(f))
  }

  /** The delta handleSlotMachine hands to the ledger for dice value `v`. */
  function SpinDelta(v: int): (d: StatsDelta)
    ensures d.totalGames == 1
    ensures d.NonNegative()
  {
    if IsWin(v) then WinDelta(Left(v)) else NoWin
  }

  /** A losing spin scores nothing and adds no win. */
  lemma LosingSpin(v: int)
    requires !IsWin(v)
    ensures SpinDelta(v).score == 0
    ensures SpinDelta(v).barWins == SpinDelta(v).cherryWins == SpinDelta(v).lemonWins == SpinDelta(v).sevenWins == 0
  {
  }

  /** A winning spin adds exactly one win, of the face on the reels, and that
      face's payout: 50 for bar, 10 for cherry, 20 for lemon, 100 for seven. */
  lemma WinningSpin(v: int)
    requires IsWin(v)
    ensures SpinDelta(v).barWins + SpinDelta(v).cherryWins + SpinDelta(v).lemonWins + SpinDelta(v).sevenWins == 1
    ensures SpinDelta(v).barWins == 1 <==> Left(v) == Bar
    ensures SpinDelta(v).cherryWins == 1 <==> Left(v) == Cherry
    ensures SpinDelta(v).lemonWins == 1 <==> Left(v) == Lemon
    ensures SpinDelta(v).sevenWins == 1 <==> Left(v) == Seven
    ensures SpinDelta(v).score == Payout(Left(v))
    ensures Left(v) == Bar ==> SpinDelta(v).score == 50
    ensures Left(v) == Cherry ==> SpinDelta(v).score == 10
    ensures Left(v) == Lemon ==> SpinDelta(v).score == 20
    ensures Left(v) == Seven ==> SpinDelta(v).score == 100
  {
  }

  /** The points a spin credits to the balance are the points its counters
      are worth. */
  lemma SpinCreditIsPoints(v: int)
    ensures SpinDelta(v).score == SpinDelta(v).Points()
  {
  }

  /** Applying a spin's delta raises the derived score by exactly the points
      credited to the balance, so accumulating and deriving the score agree. */
  lemma SpinScoreMatchesCredit(s: Stats, v: int, playedAt: int)
    ensures UpdateStats(s, SpinDelta(v), playedAt).Score() == s.Score() + SpinDelta(v).score
    ensures UpdateStats(s, SpinDelta(v), playedAt).totalGames == s.totalGames + 1
  {
    SpinCreditIsPoints(v);
  }

  /** Storing a spin adds a game and records its time; a win also adds one
      win of the face on the reels, which raises the score by its payout. */
  lemma SpinUpdate(s: Stats, v: int, playedAt: int)
    ensures UpdateStats(s, SpinDelta(v), playedAt)
         == (if IsWin(v) then s.AddWin(Left(v)) else s).(totalGames := s.totalGames + 1, lastPlayedAt := playedAt)
    ensures IsWin(v) ==> UpdateStats(s, SpinDelta(v), playedAt).Score() == s.Score() + Payout(Left(v))
  {
    if IsWin(v) {
      var f := Left(v);
      assert SpinDelta(v) == WinDelta(f);
      WinUpdate(s, f, playedAt);
      ScoreOfAddWin(s, f);
    } else {
      assert SpinDelta(v) == NoWin;
      NoWinUpdate(s, playedAt);
    }
  }

  /** The stored row after a losing spin differs only in its games and time. */
  lemma NoWinUpdate(s: Stats, playedAt: int)
    ensures UpdateStats(s, NoWin, playedAt) == s.(totalGames := s.totalGames + 1, lastPlayedAt := playedAt)
  {
  }

  /** The stored row after a win of face `f` is the row with one more win of `f`. */
  lemma WinUpdate(s: Stats, f: int, playedAt: int)
    requires IsFace(f)
    ensures UpdateStats(s, WinDelta(f), playedAt) == s.AddWin(f).(totalGames := s.totalGames + 1, lastPlayedAt := playedAt)
  {
    if f == Bar {
    } else if f == Cherry {
    } else if f == Lemon {
    } else {
    }
  }
}
