/**
 * End-to-end runs of the controller, each a client of the handlers'
 * contracts: a fresh controller over an empty database, a few commands from
 * any two players of any group, and what they see afterwards.
 */
module Scenarios {
  import opened Options
  import opened Text
  import opened Slots
  import opened Ledger
  import opened Spins
  import opened Duels
  import opened Casino

  /** A name that can follow "/duel @". */
  predicate Mentionable(name: string) {
    name != [] && IsTrimmed(name) && name[0] != '@'
  }

  /** A spin of 64 shows three sevens: one game, one seven, 100 points on
      the score and on the balance, and the message is kept. */
  method SevensSpin(userID: int, groupID: int, username: string, date: int)
    returns (totalGames: int, sevenWins: int, score: int, balance: int, deleted: bool)
    ensures totalGames == 1 && sevenWins == 1 && score == 100 && balance == 100 && !deleted
  {
    var c := new CasinoController();
    Jackpots(64);
    var outcome := c.HandleSlotMachine(userID, username, groupID, 64, date, false, false, false);
    var row := c.stats[(userID, groupID)];
    totalGames, sevenWins, score := row.totalGames, row.sevenWins, row.Score();
    balance := c.balances[(userID, groupID)];
    deleted := outcome.deleteScheduled;
  }

  /** The group's balance rows as the database lists them, target first. */
  function Rows(b: map<Key, int>, groupID: int, first: int, second: int): seq<Balance> {
    [Balance(first, groupID, BalanceOf(b, (first, groupID))), Balance(second, groupID, BalanceOf(b, (second, groupID)))]
  }

  /** A spin of 64 by a player on a database that can be read and written:
      100 points on the player's balance, and the player's row named if it
      is new. */
  method Jackpot(c: CasinoController, userID: int, username: string, groupID: int, date: int)
    requires c.Valid()
    modifies c
    ensures c.Valid()
    ensures c.pendingDuels == old(c.pendingDuels)
    ensures c.balances == old(c.balances)[(userID, groupID) := BalanceOf(old(c.balances), (userID, groupID)) + 100]
    ensures forall k :: k != (userID, groupID) ==> NameOf(c.stats, k) == NameOf(old(c.stats), k)
    ensures c.stats.Keys == old(c.stats).Keys + {(userID, groupID)}
    ensures NameOf(c.stats, (userID, groupID))
         == if (userID, groupID) in old(c.stats) then NameOf(old(c.stats), (userID, groupID)) else username
  {
    Jackpots(64);
    var _ := c.HandleSlotMachine(userID, username, groupID, 64, date, false, false, false);
  }

  /** Two players who have played: the initiator holds 100 points from one
      jackpot, the target 300 from three. */
  method TwoPlayers(groupID: int, initiator: int, target: int, initiatorName: string, targetName: string)
    returns (c: CasinoController)
    requires initiator != target
    ensures fresh(c) && c.Valid()
    ensures c.pendingDuels == map[]
    ensures c.balances == map[(initiator, groupID) := 100, (target, groupID) := 300]
    ensures NameOf(c.stats, (initiator, groupID)) == initiatorName
    ensures NameOf(c.stats, (target, groupID)) == targetName
  {
    c := new CasinoController();
    var i, j := (initiator, groupID), (target, groupID);
    Jackpot(c, initiator, initiatorName, groupID, 10);
    assert c.balances == map[i := 100];
    Jackpot(c, target, targetName, groupID, 20);
    assert c.balances == map[i := 100, j := 100];
    Jackpot(c, target, targetName, groupID, 30);
    Jackpot(c, target, targetName, groupID, 40);
  }

  /** Between the two players of TwoPlayers, a challenge by name is admitted
      and announced with both balances. */
  method Challenge(c: CasinoController, groupID: int, initiator: int, target: int,
                   initiatorName: string, targetName: string, now: int)
    returns (reply: DuelReply)
    requires initiator != target && Mentionable(targetName) && c.Valid()
    requires c.balances == map[(initiator, groupID) := 100, (target, groupID) := 300]
    requires NameOf(c.stats, (target, groupID)) == targetName
    requires groupID in c.pendingDuels ==> !Live(c.pendingDuels[groupID], now)
    modifies c
    ensures c.Valid()
    ensures reply == Challenged(100, 300)
    ensures NameOf(c.stats, (target, groupID)) == targetName
    ensures c.pendingDuels == old(c.pendingDuels)[groupID := PendingDuel(initiator, target, groupID, targetName,
                                                                         initiatorName, now + DuelTimeout)]
    ensures c.balances == old(c.balances)
  {
    DuelArgumentOfMention(targetName);
    var rows := Rows(c.balances, groupID, target, initiator);
    assert FirstNamed(rows, c.stats, groupID, targetName, {}) == 0;
    assert Admit(c.pendingDuels, groupID, initiator, initiatorName, targetName, Found(target, 300), now).Admitted?;
    reply := c.Duel(groupID, initiator, initiatorName, "/duel @" + targetName, Some(rows), {}, false, now);
    CreateRowsKeepsNames(old(c.stats), rows, 1, groupID, {}, (target, groupID));
  }

  /** While the group's duel is live, the same challenge is refused and
      changes no duel and no balance. */
  method ChallengeWhilePending(c: CasinoController, groupID: int, initiator: int, target: int,
                               initiatorName: string, targetName: string, now: int)
    returns (reply: DuelReply)
    requires initiator != target && Mentionable(targetName) && c.Valid()
    requires c.balances == map[(initiator, groupID) := 100, (target, groupID) := 300]
    requires NameOf(c.stats, (target, groupID)) == targetName
    requires groupID in c.pendingDuels && Live(c.pendingDuels[groupID], now)
    modifies c
    ensures c.Valid()
    ensures reply == DuelPending
    ensures NameOf(c.stats, (target, groupID)) == targetName
    ensures c.pendingDuels == old(c.pendingDuels) && c.balances == old(c.balances)
  {
    DuelArgumentOfMention(targetName);
    var rows := Rows(c.balances, groupID, target, initiator);
    assert FirstNamed(rows, c.stats, groupID, targetName, {}) == 0;
    assert Admit(c.pendingDuels, groupID, initiator, initiatorName, targetName, Found(target, 300), now) == AlreadyPending;
    reply := c.Duel(groupID, initiator, initiatorName, "/duel @" + targetName, Some(rows), {}, false, now);
    CreateRowsKeepsNames(old(c.stats), rows, 1, groupID, {}, (target, groupID));
  }

  /** The initiator challenges the target (300) and the target accepts; an
      even die gives the initiator the target's 300, leaves the target at 0,
      and, with the duel closed on settlement, empties the group's slot. */
  method EvenDuel(groupID: int, initiator: int, target: int, initiatorName: string, targetName: string, now: int)
    returns (challenge: DuelReply, accept: AcceptReply, initiatorBalance: int, targetBalance: int, open: bool)
    requires initiator != target && Mentionable(targetName)
    ensures challenge == Challenged(100, 300)
    ensures accept.Settled? && accept.settlement.winnerID == initiator && accept.settlement.amountWon == 300
    ensures initiatorBalance == 400 && targetBalance == 0 && !open
  {
    var c := TwoPlayers(groupID, initiator, target, initiatorName, targetName);
    challenge := Challenge(c, groupID, initiator, target, initiatorName, targetName, now);
    EvenDieSettles(c.pendingDuels, c.balances, groupID, initiator, target);
    accept := c.AcceptDuelOnce(groupID, target, false, false, Rolled(4), false);
    initiatorBalance, targetBalance := BalanceOf(c.balances, (initiator, groupID)), BalanceOf(c.balances, (target, groupID));
    open := groupID in c.pendingDuels;
  }

  /** An even die on the stored duel of players holding 100 and 300 hands the
      target's 300 to the challenger, and the corrected accept closes it. */
  lemma EvenDieSettles(duels: map<int, PendingDuel>, b: map<Key, int>, groupID: int, initiator: int, target: int)
    requires RegistryValid(duels) && initiator != target
    requires groupID in duels && duels[groupID].initiatorID == initiator && duels[groupID].targetID == target
    requires b == map[(initiator, groupID) := 100, (target, groupID) := 300]
    ensures var r := AcceptOnceOutcome(duels, b, groupID, target, false, false, Rolled(4), false);
      && r.reply.Settled? && r.reply.settlement.winnerID == initiator && r.reply.settlement.amountWon == 300
      && BalanceOf(r.balances, (initiator, groupID)) == 400 && BalanceOf(r.balances, (target, groupID)) == 0
      && groupID !in r.duels
  {
    assert Staked(duels, b, groupID, target, false, false) by {
      assert BalanceOf(b, (initiator, groupID)) == 100;
    }
    AcceptedDuelSettles(duels, b, groupID, target, false, false, Rolled(4), false);
  }

  /** A second challenge five minutes later is refused while the first is
      pending; ten minutes after the first, a new challenge succeeds and
      expires ten minutes after that. */
  method ChallengeTwice(groupID: int, initiator: int, target: int, initiatorName: string, targetName: string, now: int)
    returns (first: DuelReply, second: DuelReply, third: DuelReply, expiresAt: int)
    requires initiator != target && Mentionable(targetName)
    ensures first.Challenged? && second == DuelPending && third.Challenged?
    ensures expiresAt == now + 2 * DuelTimeout
  {
    var c := TwoPlayers(groupID, initiator, target, initiatorName, targetName);
    first := Challenge(c, groupID, initiator, target, initiatorName, targetName, now);
    second := ChallengeWhilePending(c, groupID, initiator, target, initiatorName, targetName, now + DuelTimeout / 2);
    third := Challenge(c, groupID, initiator, target, initiatorName, targetName, now + DuelTimeout);
    expiresAt := c.pendingDuels[groupID].expiresAt;
  }

  /** A spin of 2 shows cherry, bar, bar: no win. */
  lemma TwoLoses()
    ensures Left(2) == Cherry && Center(2) == Bar && Right(2) == Bar
    ensures !IsWin(2)
  {
  }

  /** The initiator holds 100 points from a jackpot; the target has played
      one losing spin and holds 0. */
  method RichAndBroke(groupID: int, initiator: int, target: int, initiatorName: string, targetName: string)
    returns (c: CasinoController)
    requires initiator != target
    ensures fresh(c) && c.Valid()
    ensures c.pendingDuels == map[]
    ensures BalanceOf(c.balances, (initiator, groupID)) == 100 && BalanceOf(c.balances, (target, groupID)) == 0
    ensures NameOf(c.stats, (target, groupID)) == targetName
  {
    c := new CasinoController();
    Jackpots(64);
    TwoLoses();
    var _ := c.HandleSlotMachine(initiator, initiatorName, groupID, 64, 10, false, false, false);
    assert BalanceOf(c.balances, (initiator, groupID)) == 100;
    var _ := c.HandleSlotMachine(target, targetName, groupID, 2, 20, false, false, false);
  }

  /** A target whose balance is 0 cannot be challenged, and no duel is stored. */
  method BrokeTarget(groupID: int, initiator: int, target: int, initiatorName: string, targetName: string, now: int)
    returns (reply: DuelReply, open: bool)
    requires initiator != target && Mentionable(targetName)
    ensures reply == TargetTooPoor && !open
  {
    var c := RichAndBroke(groupID, initiator, target, initiatorName, targetName);
    DuelArgumentOfMention(targetName);
    var rows := Rows(c.balances, groupID, target, initiator);
    assert FirstNamed(rows, c.stats, groupID, targetName, {}) == 0;
    assert Admit(c.pendingDuels, groupID, initiator, initiatorName, targetName, Found(target, 0), now) == TooPoor;
    reply := c.Duel(groupID, initiator, initiatorName, "/duel @" + targetName, Some(rows), {}, false, now);
    open := groupID in c.pendingDuels;
  }

  /** When the target's stats row cannot be read, the scan passes over it and
      the challenge is refused as if the target had no money; no duel is stored. */
  method UnreadableTarget(groupID: int, initiator: int, target: int, initiatorName: string, targetName: string,
                          now: int)
    returns (reply: DuelReply, open: bool)
    requires initiator != target && Mentionable(targetName) && initiatorName != targetName
    ensures reply == TargetTooPoor && !open
  {
    var c := TwoPlayers(groupID, initiator, target, initiatorName, targetName);
    DuelArgumentOfMention(targetName);
    var rows := Rows(c.balances, groupID, target, initiator);
    assert FirstNamed(rows, c.stats, groupID, targetName, {target}) == 2;
    assert Admit(c.pendingDuels, groupID, initiator, initiatorName, targetName, NotFound, now) == TooPoor;
    reply := c.Duel(groupID, initiator, initiatorName, "/duel @" + targetName, Some(rows), {target}, false, now);
    open := groupID in c.pendingDuels;
  }
}
