/**
 * The persistent store as the bot uses it: per-(user, group) stats rows and
 * balance rows, each operation an atomic map update. The row-creating reads
 * follow db.go's getOrCreateStats: a missing row is created zeroed, an
 * existing row is returned untouched.
 */
module Ledger {
  import opened Slots

  /** A row key: (userID, groupID). */
  type Key = (int, int)

  /** Go's zero time.Time (1 January of year 1) in Unix seconds. */
  const ZeroTime: int := -62135596800

  /** A balance row as GetBalancesByGroup returns it. */
  datatype Balance = Balance(userID: int, groupID: int, amount: int)

  /** The counters a spin adds to a stats row, and the points it credits. */
  datatype StatsDelta = StatsDelta(
    totalGames: int,
    barWins: int,
    cherryWins: int,
    lemonWins: int,
    sevenWins: int,
    score: int)
  {
    /** The points the win counters of this delta are worth: the weighted sum
        of `Slots.Stats.Score`, written out here again because sharing one
        function under both slows every proof about stats rows. The ensures
        `r.Score() == s.Score() + d.Points()` of `UpdateStats` ties the two. */
    function Points(): int {
      sevenWins * 100 + barWins * 50 + lemonWins * 20 + cherryWins * 10
    }

    predicate NonNegative() {
      totalGames >= 0 && barWins >= 0 && cherryWins >= 0 && lemonWins >= 0 && sevenWins >= 0
    }
  }

  function NewStats(userID: int, groupID: int, username: string): (s: Stats)
    ensures s.CountersNonNegative() && s.Score() == 0 && s.totalGames == 0
  {
    Stats(userID, groupID, username, 0, 0, 0, 0, 0, ZeroTime)
  }

  /** Every row sits under its own key and has non-negative counters. */
  ghost predicate StatsRowsValid(st: map<Key, Stats>) {
    forall k :: k in st ==> st[k].userID == k.0 && st[k].groupID == k.1 && st[k].CountersNonNegative()
  }

  /** GetOrCreateStats: make sure the row exists; an existing row, username
      included, is never overwritten. */
  function GetOrCreateStats(st: map<Key, Stats>, userID: int, groupID: int, username: string): (r: map<Key, Stats>)
    ensures r.Keys == st.Keys + {(userID, groupID)}
    ensures forall k :: k in st ==> r[k] == st[k]
    ensures (userID, groupID) !in st ==> r[(userID, groupID)] == NewStats(userID, groupID, username)
    ensures StatsRowsValid(st) ==> StatsRowsValid(r)
  {
    if (userID, groupID) in st then st else st[(userID, groupID) := NewStats(userID, groupID, username)]
  }

  /** Creating a row is idempotent: the second call, whatever username it
      passes, changes nothing. */
  lemma GetOrCreateStatsIdempotent(st: map<Key, Stats>, userID: int, groupID: int, first: string, second: string)
    ensures GetOrCreateStats(GetOrCreateStats(st, userID, groupID, first), userID, groupID, second)
         == GetOrCreateStats(st, userID, groupID, first)
  {
  }

  /** The stored username of a user in a group, as GetOrCreateStats(_, _, "")
      reports it: "" when the row does not exist yet. */
  function NameOf(st: map<Key, Stats>, k: Key): string {
    if k in st then st[k].username else ""
  }

  /** Creating rows with an empty username does not change any NameOf. */
  lemma NameOfAfterCreate(st: map<Key, Stats>, userID: int, groupID: int, k: Key)
    ensures NameOf(GetOrCreateStats(st, userID, groupID, ""), k) == NameOf(st, k)
  {
  }

  /** The balance of a row; a missing row reads as the 0 it would be created with. */
  function BalanceOf(b: map<Key, int>, k: Key): int {
    if k in b then b[k] else 0
  }

  /** GetOrCreateBalance: make sure the row exists, at 0 when new. */
  function GetOrCreateBalance(b: map<Key, int>, k: Key): (r: map<Key, int>)
    ensures r.Keys == b.Keys + {k}
    ensures forall j :: j in b ==> r[j] == b[j]
    ensures r[k] == BalanceOf(b, k)
    ensures forall j :: BalanceOf(r, j) == BalanceOf(b, j)
  {
    if k in b then b else b[k := 0]
  }

  /** UpdateStats applied to one row: add the delta's counters and set the
      time of the last game. */
  function UpdateStats(s: Stats, d: StatsDelta, playedAt: int): (r: Stats)
    ensures r.userID == s.userID && r.groupID == s.groupID && r.username == s.username
    ensures r.lastPlayedAt == playedAt
    ensures r.totalGames == s.totalGames + d.totalGames
    ensures r.barWins == s.barWins + d.barWins && r.cherryWins == s.cherryWins + d.cherryWins
    ensures r.lemonWins == s.lemonWins + d.lemonWins && r.sevenWins == s.sevenWins + d.sevenWins
    ensures r.Score() == s.Score() + d.Points()
    ensures s.CountersNonNegative() && d.NonNegative() ==> r.CountersNonNegative()
  {
    s.(barWins := s.barWins + d.barWins,
       cherryWins := s.cherryWins + d.cherryWins,
       lemonWins := s.lemonWins + d.lemonWins,
       sevenWins := s.sevenWins + d.sevenWins,
       totalGames := s.totalGames + d.totalGames,
       lastPlayedAt := playedAt)
  }

  /** UpdateBalance: add `amount` to one row. */
  function UpdateBalance(b: map<Key, int>, k: Key, amount: int): (r: map<Key, int>)
    ensures r.Keys == b.Keys + {k}
    ensures BalanceOf(r, k) == BalanceOf(b, k) + amount
    ensures forall j :: j != k ==> BalanceOf(r, j) == BalanceOf(b, j)
  {
    b[k := BalanceOf(b, k) + amount]
  }

  /** TransferBalance: take `amount` from one row and give it to another. */
  function Transfer(b: map<Key, int>, from: Key, to: Key, amount: int): (r: map<Key, int>)
    ensures from != to ==> BalanceOf(r, from) == BalanceOf(b, from) - amount
    ensures from != to ==> BalanceOf(r, to) == BalanceOf(b, to) + amount
    ensures from == to ==> r == UpdateBalance(b, from, 0)
    ensures forall j :: j != from && j != to ==> BalanceOf(r, j) == BalanceOf(b, j)
  {
    var taken := UpdateBalance(b, from, -amount);
    UpdateBalance(taken, to, amount)
  }

  /** A transfer moves money and creates none: the two balances keep their sum. */
  lemma TransferPreservesSum(b: map<Key, int>, from: Key, to: Key, amount: int)
    ensures BalanceOf(Transfer(b, from, to, amount), from) + BalanceOf(Transfer(b, from, to, amount), to)
         == BalanceOf(b, from) + BalanceOf(b, to)
  {
  }
}
