/**
 * casinoController (main.go): the pending-duel registry and the ledger it
 * works on, with the duel and spin handlers as methods. Each handler is one
 * atomic step (the mutex is not modelled); the database is the two maps
 * `stats` and `balances`; the clock, the dice the chat service rolls and
 * the storage errors the handlers branch on are parameters.
 */
module Casino {
  import opened Options
  import opened Slots
  import opened Ledger
  import opened Spins
  import opened Duels

  /** The index of the first balance row whose user is stored under `name`,
      or |rows| when there is none. The rows of the users in `unreadable`,
      whose stats row cannot be read or created, are passed over. */
  function FirstNamed(rows: seq<Balance>, st: map<Key, Stats>, groupID: int, name: string,
                      unreadable: set<int>): (k: nat)
    ensures k <= |rows|
    ensures forall j :: 0 <= j < k ==>
      rows[j].userID in unreadable || NameOf(st, (rows[j].userID, groupID)) != name
    ensures k < |rows| ==> rows[k].userID !in unreadable && NameOf(st, (rows[k].userID, groupID)) == name
  {
    if rows == [] then 0
    else if rows[0].userID !in unreadable && NameOf(st, (rows[0].userID, groupID)) == name then 0
    else 1 + FirstNamed(rows[1..], st, groupID, name, unreadable)
  }

  /** The stats rows after GetOrCreateStats(user, group, "") for the first `n`
      rows; a failing call creates nothing. */
  function CreateRows(st: map<Key, Stats>, rows: seq<Balance>, n: nat, groupID: int,
                      unreadable: set<int>): map<Key, Stats>
    requires n <= |rows|
  {
    if n == 0 then st
    else
      var before := CreateRows(st, rows, n - 1, groupID, unreadable);
      if rows[n - 1].userID in unreadable then before
      else GetOrCreateStats(before, rows[n - 1].userID, groupID, "")
  }

  lemma {:induction false} CreateRowsKeepsNames(st: map<Key, Stats>, rows: seq<Balance>, n: nat, groupID: int,
                                                unreadable: set<int>, k: Key)
    requires n <= |rows|
    ensures NameOf(CreateRows(st, rows, n, groupID, unreadable), k) == NameOf(st, k)
    ensures StatsRowsValid(st) ==> StatsRowsValid(CreateRows(st, rows, n, groupID, unreadable))
  {
    if n > 0 {
      CreateRowsKeepsNames(st, rows, n - 1, groupID, unreadable, k);
      if rows[n - 1].userID !in unreadable {
        NameOfAfterCreate(CreateRows(st, rows, n - 1, groupID, unreadable), rows[n - 1].userID, groupID, k);
      }
    }
  }

  /** The scan adds a stats row for exactly the readable users among the first `n` rows. */
  lemma {:induction false} CreateRowsSkipsUnreadable(st: map<Key, Stats>, rows: seq<Balance>, n: nat, groupID: int,
                                                     unreadable: set<int>)
    requires n <= |rows|
    ensures CreateRows(st, rows, n, groupID, unreadable).Keys
         == st.Keys + set j | 0 <= j < n && rows[j].userID !in unreadable :: (rows[j].userID, groupID)
  {
    if n > 0 {
      CreateRowsSkipsUnreadable(st, rows, n - 1, groupID, unreadable);
    }
  }

  /** The target the scan finds, from the row FirstNamed picks. */
  function TargetAt(rows: seq<Balance>, k: nat): Target {
    if k < |rows| then Found(rows[k].userID, rows[k].amount) else NotFound
  }

  /** How many rows the scan reads before it stops. */
  function Scanned(rows: seq<Balance>, k: nat): (n: nat)
    requires k <= |rows|
    ensures n <= |rows|
  {
    if k < |rows| then k + 1 else |rows|
  }

  /** What duelHandler tells the group. */
  datatype DuelReply =
    | Usage
    | UsersUnavailable
    | TargetTooPoor
    | CannotDuelSelf
    | DuelPending
    | Challenged(initiatorBalance: int, targetBalance: int)
    | ChallengedSilently

  /** The reply for an admission decision; a stored duel is announced only
      when the initiator's balance could be read. */
  function ReplyFor(a: Admission, target: Target, initiatorBalanceFails: bool, initiatorBalance: int): DuelReply
    requires a.Admitted? ==> target.Found?
  {
    match a
    case TooPoor => TargetTooPoor
    case SelfDuel => CannotDuelSelf
    case AlreadyPending => DuelPending
    case Admitted(_) =>
      if initiatorBalanceFails then ChallengedSilently else Challenged(initiatorBalance, target.balance)
  }

  /** The die the chat service rolls for an accepted duel. */
  datatype DiceRoll = Rolled(value: int) | SendFailed | NoDice

  /** What acceptDuelHandler tells the group. */
  datatype AcceptReply =
    | NoPendingDuel
    | NotYourDuel
    | BalancesUnavailable
    | BothBroke
    | DiceUnavailable
    | NoDiceValue
    | TransferFailed
    | Settled(dice: int, settlement: Settlement)

  /** What declineDuelHandler and cancelDuelHandler tell the group. */
  datatype WithdrawReply = NoDuelToWithdraw | NotYours | Withdrawn(targetName: string)

  /** The fate of a spin: not recorded when a row could not be read; otherwise
      the delta, whether the message is scheduled for deletion, and whether
      the transaction committed. */
  datatype SpinOutcome = RowsUnavailable | Spun(delta: StatsDelta, deleteScheduled: bool, saved: bool)

  /** The reply and the new registry and balances of one acceptance. */
  datatype AcceptStep = AcceptStep(reply: AcceptReply, duels: map<int, PendingDuel>, balances: map<Key, int>)

  /** The accept gets past the registry checks: the group has a duel and the
      actor is its target (main.go:319-336). */
  predicate Accepting(duels: map<int, PendingDuel>, groupID: int, actorID: int) {
    groupID in duels && duels[groupID].targetID == actorID
  }

  /** Past the registry checks, both balances were read (main.go:339-359) and
      at least one player has money on the table (main.go:361-369). */
  predicate Staked(duels: map<int, PendingDuel>, b: map<Key, int>, groupID: int, actorID: int,
                   initiatorBalanceFails: bool, targetBalanceFails: bool) {
    && Accepting(duels, groupID, actorID)
    && !initiatorBalanceFails && !targetBalanceFails
    && (BalanceOf(b, (duels[groupID].initiatorID, groupID)) > 0 || BalanceOf(b, (actorID, groupID)) > 0)
  }

  /**
   * acceptDuelHandler (main.go:307-461): only the stored target may accept,
   * expired or not. Both balances are read (rows created at 0 when missing);
   * when both players are broke the duel is dropped; otherwise the die
   * settles it with the amounts read, the transfer running in one
   * transaction. A duel that was played out is left in the registry.
   */
  function AcceptOutcome(duels: map<int, PendingDuel>, b: map<Key, int>, groupID: int, actorID: int,
                         initiatorBalanceFails: bool, targetBalanceFails: bool,
                         roll: DiceRoll, transferFails: bool): (r: AcceptStep)
    ensures (r.reply != NoPendingDuel && r.reply != NotYourDuel)
        <==> groupID in duels && duels[groupID].targetID == actorID
    ensures r.reply == BothBroke <==>
      && groupID in duels && duels[groupID].targetID == actorID
      && !initiatorBalanceFails && !targetBalanceFails
      && BalanceOf(b, (duels[groupID].initiatorID, groupID)) <= 0 && BalanceOf(b, (actorID, groupID)) <= 0
    ensures r.reply == BalancesUnavailable <==>
      Accepting(duels, groupID, actorID) && (initiatorBalanceFails || targetBalanceFails)
    ensures r.reply == DiceUnavailable <==>
      Staked(duels, b, groupID, actorID, initiatorBalanceFails, targetBalanceFails) && roll.SendFailed?
    ensures r.reply == NoDiceValue <==>
      Staked(duels, b, groupID, actorID, initiatorBalanceFails, targetBalanceFails) && roll.NoDice?
    ensures r.reply == TransferFailed <==>
      Staked(duels, b, groupID, actorID, initiatorBalanceFails, targetBalanceFails) && roll.Rolled? && transferFails
    ensures r.reply.Settled? <==>
      Staked(duels, b, groupID, actorID, initiatorBalanceFails, targetBalanceFails) && roll.Rolled? && !transferFails
    ensures r.reply.Settled? ==> roll == Rolled(r.reply.dice)
    ensures r.duels == if r.reply == BothBroke then duels - {groupID} else duels
    ensures RegistryValid(duels) ==> RegistryValid(r.duels)
  {
    if groupID !in duels then AcceptStep(NoPendingDuel, duels, b)
    else
      var d := duels[groupID];
      if d.targetID != actorID then AcceptStep(NotYourDuel, duels, b)
      else if initiatorBalanceFails then AcceptStep(BalancesUnavailable, duels, b)
      else
        var initiator := (d.initiatorID, groupID);
        var b1 := GetOrCreateBalance(b, initiator);
        if targetBalanceFails then AcceptStep(BalancesUnavailable, duels, b1)
        else
          var target := (actorID, groupID);
          var b2 := GetOrCreateBalance(b1, target);
          var ia, ta := b2[initiator], b2[target];
          if ia <= 0 && ta <= 0 then AcceptStep(BothBroke, duels - {groupID}, b2)
          else if roll.SendFailed? then AcceptStep(DiceUnavailable, duels, b2)
          else if roll.NoDice? then AcceptStep(NoDiceValue, duels, b2)
          else if transferFails then AcceptStep(TransferFailed, duels, b2)
          else
            var s := Settle(d, roll.value, ia, ta);
            AcceptStep(Settled(roll.value, s), duels, SettleBalances(b2, groupID, s))
  }

  /**
   * A duel is settled only by its target, with a die that was rolled and a
   * transfer that committed; the loser's whole positive balance goes to the
   * winner, the pair's sum is kept, and no other balance moves. Every other
   * reply moves no balance at all.
   */
  lemma AcceptedDuelSettles(duels: map<int, PendingDuel>, b: map<Key, int>, groupID: int, actorID: int,
                            initiatorBalanceFails: bool, targetBalanceFails: bool,
                            roll: DiceRoll, transferFails: bool)
    requires RegistryValid(duels)
    ensures var r := AcceptOutcome(duels, b, groupID, actorID, initiatorBalanceFails, targetBalanceFails,
                                   roll, transferFails);
      if r.reply.Settled? then
        var d := duels[groupID];
        var s := r.reply.settlement;
        var loser, winner := (s.loserID, groupID), (s.winnerID, groupID);
        && d.targetID == actorID && roll == Rolled(r.reply.dice) && !transferFails
        && !initiatorBalanceFails && !targetBalanceFails
        && (BalanceOf(b, (d.initiatorID, groupID)) > 0 || BalanceOf(b, (actorID, groupID)) > 0)
        && s == Settle(d, r.reply.dice, BalanceOf(b, (d.initiatorID, groupID)), BalanceOf(b, (actorID, groupID)))
        && BalanceOf(r.balances, loser) == (if BalanceOf(b, loser) > 0 then 0 else BalanceOf(b, loser))
        && BalanceOf(r.balances, winner) == BalanceOf(b, winner) + s.Transferred()
        && BalanceOf(r.balances, loser) + BalanceOf(r.balances, winner) == BalanceOf(b, loser) + BalanceOf(b, winner)
        && (forall k :: k != loser && k != winner ==> BalanceOf(r.balances, k) == BalanceOf(b, k))
      else
        forall k :: BalanceOf(r.balances, k) == BalanceOf(b, k)
  {
    var r := AcceptOutcome(duels, b, groupID, actorID, initiatorBalanceFails, targetBalanceFails, roll, transferFails);
    if r.reply.Settled? {
      var d := duels[groupID];
      var b2 := GetOrCreateBalance(GetOrCreateBalance(b, (d.initiatorID, groupID)), (actorID, groupID));
      WinnerTakesAll(b2, d, roll.value);
    }
  }

  /** The acceptance the handler evidently intends: the same, except that a
      duel that was played out is closed. */
  function AcceptOnceOutcome(duels: map<int, PendingDuel>, b: map<Key, int>, groupID: int, actorID: int,
                             initiatorBalanceFails: bool, targetBalanceFails: bool,
                             roll: DiceRoll, transferFails: bool): (r: AcceptStep)
    ensures var w := AcceptOutcome(duels, b, groupID, actorID, initiatorBalanceFails, targetBalanceFails,
                                   roll, transferFails);
      r.reply == w.reply && r.balances == w.balances
    ensures r.duels == if r.reply == BothBroke || r.reply.Settled? then duels - {groupID} else duels
  {
    var w := AcceptOutcome(duels, b, groupID, actorID, initiatorBalanceFails, targetBalanceFails,
                           roll, transferFails);
    if w.reply.Settled? then w.(duels := w.duels - {groupID}) else w
  }

  /** With the duel closed on settlement, any further acceptance in the group
      finds no duel and changes nothing. */
  lemma SettledDuelIsClosed(duels: map<int, PendingDuel>, b: map<Key, int>, groupID: int, actorID: int,
                            initiatorBalanceFails: bool, targetBalanceFails: bool, roll: DiceRoll, transferFails: bool,
                            nextActor: int, nextInitiatorFails: bool, nextTargetFails: bool,
                            nextRoll: DiceRoll, nextTransferFails: bool)
    requires AcceptOnceOutcome(duels, b, groupID, actorID, initiatorBalanceFails, targetBalanceFails,
                               roll, transferFails).reply.Settled?
    ensures var r := AcceptOnceOutcome(duels, b, groupID, actorID, initiatorBalanceFails, targetBalanceFails,
                                       roll, transferFails);
      AcceptOnceOutcome(r.duels, r.balances, groupID, nextActor, nextInitiatorFails, nextTargetFails,
                        nextRoll, nextTransferFails) == AcceptStep(NoPendingDuel, r.duels, r.balances)
  {
  }

  /**
   * As written, a settled duel can be accepted again: after the target has
   * lost 300 to an even die, accepting the same duel with an odd die hands
   * the target the initiator's whole balance, 400.
   */
  lemma SettledDuelCanBeReplayed()
    ensures var d := PendingDuel(1, 2, 7, "bob", "alice", 600);
      var first := AcceptOutcome(map[7 := d], map[(1, 7) := 100, (2, 7) := 300], 7, 2,
                                 false, false, Rolled(4), false);
      var second := AcceptOutcome(first.duels, first.balances, 7, 2, false, false, Rolled(3), false);
      && first.reply.Settled? && first.duels == map[7 := d]
      && BalanceOf(first.balances, (1, 7)) == 400 && BalanceOf(first.balances, (2, 7)) == 0
      && second.reply.Settled? && second.duels == map[7 := d]
      && BalanceOf(second.balances, (1, 7)) == 0 && BalanceOf(second.balances, (2, 7)) == 400
  {
    var d := PendingDuel(1, 2, 7, "bob", "alice", 600);
    var b := map[(1, 7) := 100, (2, 7) := 300];
    assert Staked(map[7 := d], b, 7, 2, false, false);
    var first := AcceptOutcome(map[7 := d], b, 7, 2, false, false, Rolled(4), false);
    AcceptedDuelSettles(map[7 := d], b, 7, 2, false, false, Rolled(4), false);
    assert first.reply.settlement.loserID == 2 && first.reply.settlement.winnerID == 1;
    assert Staked(first.duels, first.balances, 7, 2, false, false) by {
      assert BalanceOf(first.balances, (1, 7)) == 400;
    }
    var second := AcceptOutcome(first.duels, first.balances, 7, 2, false, false, Rolled(3), false);
    AcceptedDuelSettles(first.duels, first.balances, 7, 2, false, false, Rolled(3), false);
    assert second.reply.settlement.loserID == 1 && second.reply.settlement.winnerID == 2;
  }

  /** The delta handleSlotMachine builds (main.go:563-600): one game, and on
      three equal reels the win of that face and its points; a losing spin
      is marked for deletion instead. */
  method ReelDelta(v: int) returns (delta: StatsDelta, deleteScheduled: bool)
    ensures delta == SpinDelta(v)
    ensures deleteScheduled <==> !IsWin(v)
  {
    delta := StatsDelta(1, 0, 0, 0, 0, 0);
    deleteScheduled := false;
    var left, center, right := Left(v), Center(v), Right(v);
    if left != center || center != right {
      deleteScheduled := true;
    } else if left == Bar {
      delta := delta.(barWins := 1, score := 50);
    } else if left == Cherry {
      delta := delta.(cherryWins := 1, score := 10);
    } else if left == Lemon {
      delta := delta.(lemonWins := 1, score := 20);
    } else if left == Seven {
      delta := delta.(sevenWins := 1, score := 100);
    }
  }

  class CasinoController {
    var pendingDuels: map<int, PendingDuel>
    var stats: map<Key, Stats>
    var balances: map<Key, int>

    ghost predicate Valid()
      reads this
    {
      RegistryValid(pendingDuels) && StatsRowsValid(stats)
    }

    /** newCasinoController, over an empty database. */
    constructor ()
      ensures Valid()
      ensures pendingDuels == map[] && stats == map[] && balances == map[]
    {
      pendingDuels := map[];
      stats := map[];
      balances := map[];
    }

    /** duelHandler's scan for the target (main.go:226-238): read each
        balance row's stats row, creating it with no username if missing,
        go on to the next row when that call fails, and stop at the first
        one stored under `name`. */
    method FindTarget(groupID: int, rows: seq<Balance>, name: string, unreadable: set<int>) returns (target: Target)
      requires Valid()
      modifies this`stats
      ensures Valid()
      ensures var k := FirstNamed(rows, old(stats), groupID, name, unreadable);
        target == TargetAt(rows, k) && stats == CreateRows(old(stats), rows, Scanned(rows, k), groupID, unreadable)
    {
      ghost var k := FirstNamed(rows, old(stats), groupID, name, unreadable);
      var i := 0;
      while i < |rows|
        invariant 0 <= i <= |rows|
        invariant i <= k
        invariant stats == CreateRows(old(stats), rows, i, groupID, unreadable)
        invariant StatsRowsValid(stats)
      {
        var key := (rows[i].userID, groupID);
        if rows[i].userID in unreadable {
          i := i + 1;
          continue;
        }
        stats := GetOrCreateStats(stats, rows[i].userID, groupID, "");
        assert stats == CreateRows(old(stats), rows, i + 1, groupID, unreadable);
        CreateRowsKeepsNames(old(stats), rows, i + 1, groupID, unreadable, key);
        if stats[key].username == name {
          assert NameOf(old(stats), key) == name;
          assert i == k && Scanned(rows, k) == i + 1;
          return Found(rows[i].userID, rows[i].amount);
        }
        i := i + 1;
      }
      assert k == |rows|;
      return NotFound;
    }

    /**
     * duelHandler: `text` is the command, `groupBalances` the group's
     * balance rows (None when they cannot be read). A refused challenge
     * leaves the registry as it was; an admitted one is stored before the
     * initiator's balance is read, so it stays even when that read fails.
     */
    method Duel(groupID: int, initiatorID: int, initiatorName: string, text: string,
                groupBalances: Option<seq<Balance>>, unreadable: set<int>, initiatorBalanceFails: bool, now: int)
      returns (reply: DuelReply)
      requires Valid()
      modifies this
      ensures Valid()
      ensures DuelArgument(text).None? ==> reply == Usage
      ensures DuelArgument(text).Some? && groupBalances.None? ==> reply == UsersUnavailable
      ensures DuelArgument(text).None? || groupBalances.None? ==>
        pendingDuels == old(pendingDuels) && stats == old(stats) && balances == old(balances)
      ensures DuelArgument(text).Some? && groupBalances.Some? ==>
        var rows, name := groupBalances.value, DuelArgument(text).value;
        var k := FirstNamed(rows, old(stats), groupID, name, unreadable);
        var a := Admit(old(pendingDuels), groupID, initiatorID, initiatorName, name, TargetAt(rows, k), now);
        var key := (initiatorID, groupID);
        && stats == CreateRows(old(stats), rows, Scanned(rows, k), groupID, unreadable)
        && pendingDuels == AfterAdmission(old(pendingDuels), groupID, a)
        && reply == ReplyFor(a, TargetAt(rows, k), initiatorBalanceFails, BalanceOf(old(balances), key))
        && balances == (if a.Admitted? && !initiatorBalanceFails then GetOrCreateBalance(old(balances), key)
                        else old(balances))
    {
      var argument := DuelArgument(text);
      if argument.None? {
        return Usage;
      }
      var targetUsername := argument.value;
      if groupBalances.None? {
        return UsersUnavailable;
      }
      reply := ChallengeNamed(groupID, initiatorID, initiatorName, targetUsername, groupBalances.value,
                              unreadable, initiatorBalanceFails, now);
    }

    /** duelHandler once the target's name and the group's rows are known. */
    method ChallengeNamed(groupID: int, initiatorID: int, initiatorName: string, name: string,
                          rows: seq<Balance>, unreadable: set<int>, initiatorBalanceFails: bool, now: int)
      returns (reply: DuelReply)
      requires Valid()
      modifies this
      ensures Valid()
      ensures
        var k := FirstNamed(rows, old(stats), groupID, name, unreadable);
        var a := Admit(old(pendingDuels), groupID, initiatorID, initiatorName, name, TargetAt(rows, k), now);
        var key := (initiatorID, groupID);
        && stats == CreateRows(old(stats), rows, Scanned(rows, k), groupID, unreadable)
        && pendingDuels == AfterAdmission(old(pendingDuels), groupID, a)
        && reply == ReplyFor(a, TargetAt(rows, k), initiatorBalanceFails, BalanceOf(old(balances), key))
        && balances == (if a.Admitted? && !initiatorBalanceFails then GetOrCreateBalance(old(balances), key)
                        else old(balances))
    {
      ghost var before := pendingDuels;
      var target := FindTarget(groupID, rows, name, unreadable);
      ghost var a := Admit(before, groupID, initiatorID, initiatorName, name, target, now);
      if target.NotFound? || target.balance <= 0 {
        return TargetTooPoor;
      }
      if target.userID == initiatorID {
        return CannotDuelSelf;
      }
      if groupID in pendingDuels {
        var existing := pendingDuels[groupID];
        if now < existing.expiresAt {
          return DuelPending;
        }
        pendingDuels := pendingDuels - {groupID};
      }
      pendingDuels := pendingDuels[groupID := PendingDuel(initiatorID, target.userID, groupID, name,
                                                          initiatorName, now + DuelTimeout)];
      assert pendingDuels == AfterAdmission(before, groupID, a);
      AdmitKeepsRegistryValid(before, groupID, initiatorID, initiatorName, name, target, now);
      if initiatorBalanceFails {
        return ChallengedSilently;
      }
      var key := (initiatorID, groupID);
      balances := GetOrCreateBalance(balances, key);
      reply := Challenged(balances[key], target.balance);
    }

    /** acceptDuelHandler, as written: the duel is left in the registry
        after it is played out (see AcceptOutcome). */
    method AcceptDuel(groupID: int, actorID: int, initiatorBalanceFails: bool, targetBalanceFails: bool,
                      roll: DiceRoll, transferFails: bool)
      returns (reply: AcceptReply)
      requires Valid()
      modifies this`pendingDuels, this`balances
      ensures Valid()
      ensures AcceptStep(reply, pendingDuels, balances)
           == AcceptOutcome(old(pendingDuels), old(balances), groupID, actorID,
                            initiatorBalanceFails, targetBalanceFails, roll, transferFails)
    {
      if groupID !in pendingDuels {
        return NoPendingDuel;
      }
      var pendingDuel := pendingDuels[groupID];
      if pendingDuel.targetID != actorID {
        return NotYourDuel;
      }
      if initiatorBalanceFails {
        return BalancesUnavailable;
      }
      var initiator := (pendingDuel.initiatorID, groupID);
      balances := GetOrCreateBalance(balances, initiator);
      var initiatorAmount := balances[initiator];
      if targetBalanceFails {
        return BalancesUnavailable;
      }
      var target := (actorID, groupID);
      balances := GetOrCreateBalance(balances, target);
      var targetAmount := balances[target];
      if initiatorAmount <= 0 && targetAmount <= 0 {
        pendingDuels := pendingDuels - {groupID};
        return BothBroke;
      }
      if roll.SendFailed? {
        return DiceUnavailable;
      }
      if roll.NoDice? {
        return NoDiceValue;
      }
      var diceValue := roll.value;
      var settlement := Settle(pendingDuel, diceValue, initiatorAmount, targetAmount);
      if transferFails {
        return TransferFailed;
      }
      if diceValue % 2 == 0 {
        if targetAmount > 0 {
          balances := Transfer(balances, (pendingDuel.targetID, groupID), initiator, targetAmount);
        }
      } else {
        if initiatorAmount > 0 {
          balances := Transfer(balances, initiator, (pendingDuel.targetID, groupID), initiatorAmount);
        }
      }
      reply := Settled(diceValue, settlement);
    }

    /** acceptDuelHandler as evidently intended: a duel that has been played
        out is closed, so nobody can accept it again. */
    method AcceptDuelOnce(groupID: int, actorID: int, initiatorBalanceFails: bool, targetBalanceFails: bool,
                          roll: DiceRoll, transferFails: bool)
      returns (reply: AcceptReply)
      requires Valid()
      modifies this`pendingDuels, this`balances
      ensures Valid()
      ensures AcceptStep(reply, pendingDuels, balances)
           == AcceptOnceOutcome(old(pendingDuels), old(balances), groupID, actorID,
                                initiatorBalanceFails, targetBalanceFails, roll, transferFails)
    {
      reply := AcceptDuel(groupID, actorID, initiatorBalanceFails, targetBalanceFails, roll, transferFails);
      if reply.Settled? {
        pendingDuels := pendingDuels - {groupID};
      }
    }

    /** declineDuelHandler: only the stored target may decline; it deletes
        the group's duel and nothing else. */
    method DeclineDuel(groupID: int, actorID: int) returns (reply: WithdrawReply)
      requires Valid()
      modifies this`pendingDuels
      ensures Valid()
      ensures groupID !in old(pendingDuels) ==> reply == NoDuelToWithdraw
      ensures groupID in old(pendingDuels) ==>
        reply == if old(pendingDuels)[groupID].targetID == actorID
                 then Withdrawn(old(pendingDuels)[groupID].targetName) else NotYours
      ensures pendingDuels == if reply.Withdrawn? then old(pendingDuels) - {groupID} else old(pendingDuels)
    {
      if groupID !in pendingDuels {
        return NoDuelToWithdraw;
      }
      var pendingDuel := pendingDuels[groupID];
      if pendingDuel.targetID != actorID {
        return NotYours;
      }
      pendingDuels := pendingDuels - {groupID};
      reply := Withdrawn(pendingDuel.targetName);
    }

    /** cancelDuelHandler: only the stored initiator may cancel; it deletes
        the group's duel and nothing else. */
    method CancelDuel(groupID: int, actorID: int) returns (reply: WithdrawReply)
      requires Valid()
      modifies this`pendingDuels
      ensures Valid()
      ensures groupID !in old(pendingDuels) ==> reply == NoDuelToWithdraw
      ensures groupID in old(pendingDuels) ==>
        reply == if old(pendingDuels)[groupID].initiatorID == actorID
                 then Withdrawn(old(pendingDuels)[groupID].targetName) else NotYours
      ensures pendingDuels == if reply.Withdrawn? then old(pendingDuels) - {groupID} else old(pendingDuels)
    {
      if groupID !in pendingDuels {
        return NoDuelToWithdraw;
      }
      var pendingDuel := pendingDuels[groupID];
      if pendingDuel.initiatorID != actorID {
        return NotYours;
      }
      pendingDuels := pendingDuels - {groupID};
      reply := Withdrawn(pendingDuel.targetName);
    }

    /**
     * handleSlotMachine: make sure both rows exist, build the delta (a game,
     * plus the win and its points on three equal reels), and let the
     * deferred transaction add it to the stats row and the points to the
     * balance, both or neither. A losing spin's message is scheduled for
     * deletion.
     */
    method HandleSlotMachine(userID: int, username: string, groupID: int, v: int, date: int,
                             statsFails: bool, balanceFails: bool, saveFails: bool)
      returns (outcome: SpinOutcome)
      requires Valid()
      modifies this`stats, this`balances
      ensures Valid()
      ensures statsFails ==> outcome == RowsUnavailable && stats == old(stats) && balances == old(balances)
      ensures !statsFails && balanceFails ==>
        outcome == RowsUnavailable && balances == old(balances)
        && stats == GetOrCreateStats(old(stats), userID, groupID, username)
      ensures !statsFails && !balanceFails ==>
        var key := (userID, groupID);
        var created := GetOrCreateStats(old(stats), userID, groupID, username);
        var ensured := GetOrCreateBalance(old(balances), key);
        && outcome == Spun(SpinDelta(v), !IsWin(v), !saveFails)
        && stats == (if saveFails then created else created[key := UpdateStats(created[key], SpinDelta(v), date)])
        && balances == (if saveFails then ensured else UpdateBalance(ensured, key, SpinDelta(v).score))
    {
      if statsFails {
        return RowsUnavailable;
      }
      stats := GetOrCreateStats(stats, userID, groupID, username);
      if balanceFails {
        return RowsUnavailable;
      }
      var key := (userID, groupID);
      balances := GetOrCreateBalance(balances, key);

      var delta, deleteScheduled := ReelDelta(v);

      // The deferred transaction, run with the final delta.
      if !saveFails {
        stats := stats[key := UpdateStats(stats[key], delta, date)];
        balances := UpdateBalance(balances, key, delta.score);
      }
      outcome := Spun(delta, deleteScheduled, !saveFails);
    }
  }
}
