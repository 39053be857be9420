/**
 * The orders in which /stats and /balance list a group (main.go, the
 * comparators handed to sort.Slice).
 */
module Leaderboard {
  import opened Slots
  import opened Ledger

  /** statsHandler: higher score first, then fewer games, then the more
      recent last game. */
  predicate StatsBefore(a: Stats, b: Stats) {
    if a.Score() != b.Score() then a.Score() > b.Score()
    else if a.totalGames != b.totalGames then a.totalGames < b.totalGames
    else a.lastPlayedAt > b.lastPlayedAt
  }

  /** balanceHandler: higher amount first. */
  predicate BalanceBefore(a: Balance, b: Balance) {
    a.amount > b.amount
  }

  /** The key StatsBefore compares by. */
  function StatsRank(s: Stats): (int, int, int) {
    (s.Score(), s.totalGames, s.lastPlayedAt)
  }

  /** StatsBefore is a strict order: irreflexive and transitive. */
  lemma StatsBeforeStrict(a: Stats, b: Stats, c: Stats)
    ensures !StatsBefore(a, a)
    ensures StatsBefore(a, b) ==> !StatsBefore(b, a)
    ensures StatsBefore(a, b) && StatsBefore(b, c) ==> StatsBefore(a, c)
  {
  }

  /** Two records are tied exactly when score, games and last game all agree,
      so ties are an equivalence and StatsBefore is a strict weak order, as
      sort.Slice needs. */
  lemma StatsTies(a: Stats, b: Stats)
    ensures !StatsBefore(a, b) && !StatsBefore(b, a) <==> StatsRank(a) == StatsRank(b)
  {
  }

  /** BalanceBefore is a strict weak order whose ties are equal amounts. */
  lemma BalanceBeforeStrict(a: Balance, b: Balance, c: Balance)
    ensures !BalanceBefore(a, a)
    ensures BalanceBefore(a, b) && BalanceBefore(b, c) ==> BalanceBefore(a, c)
    ensures !BalanceBefore(a, b) && !BalanceBefore(b, a) <==> a.amount == b.amount
  {
  }

  /** A list sort.Slice may return for the stats comparator. */
  predicate SortedStats(s: seq<Stats>) {
    forall i, j :: 0 <= i < j < |s| ==> !StatsBefore(s[j], s[i])
  }

  /** In a sorted stats list the scores never rise, equal scores list fewer
      games first, and equal score and games list the latest game first. */
  lemma SortedStatsOrder(s: seq<Stats>, i: int, j: int)
    requires SortedStats(s) && 0 <= i < j < |s|
    ensures s[i].Score() >= s[j].Score()
    ensures s[i].Score() == s[j].Score() ==> s[i].totalGames <= s[j].totalGames
    ensures s[i].Score() == s[j].Score() && s[i].totalGames == s[j].totalGames ==> s[i].lastPlayedAt >= s[j].lastPlayedAt
  {
    assert !StatsBefore(s[j], s[i]);
  }
}
