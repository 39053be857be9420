/**
 * The duel rules of main.go as functions: which challenge the one-slot-per-
 * group registry admits, and how an accepted duel settles. The handlers
 * that apply them to the controller's state are in CasinoController.
 */
module Duels {
  import opened Options
  import opened Text
  import opened Ledger

  /** A challenge stays open for 10 minutes (600 seconds). */
  const DuelTimeout: int := 600

  /** The controller's PendingDuel record. */
  datatype PendingDuel = PendingDuel(
    initiatorID: int,
    targetID: int,
    groupID: int,
    targetName: string,
    initiatorName: string,
    expiresAt: int)

  /** `time.Now().Before(ExpiresAt)` */
  predicate Live(d: PendingDuel, now: int) {
    now < d.expiresAt
  }

  /** The registry holds each duel under its own group, and nobody is
      challenged by themself. */
  predicate RegistryValid(duels: map<int, PendingDuel>) {
    forall g :: g in duels ==> duels[g].groupID == g && duels[g].initiatorID != duels[g].targetID
  }

  /** `fmt.Sprintf("User_%d", id)`, the name used for a user without one. */
  function FallbackName(userID: int): string {
    "User_" + FormatInt(userID)
  }

  /** The username a /duel command names: the text after "/duel", trimmed,
      without a leading "@"; None when nothing follows the command. */
  function DuelArgument(text: string): (r: Option<string>)
    ensures r.None? <==> IsBlank(TrimPrefix(text, "/duel"))
  {
    var args := TrimSpace(TrimPrefix(text, "/duel"));
    TrimSpaceBlank(TrimPrefix(text, "/duel"));
    if args == "" then None else Some(TrimPrefix(args, "@"))
  }

  /** "/duel @name" names `name`, however the name is spelled, as long as it
      is trimmed and does not itself start with "@". */
  lemma DuelArgumentOfMention(name: string)
    requires name != [] && IsTrimmed(name) && name[0] != '@'
    ensures DuelArgument("/duel @" + name) == Some(name)
  {
    var t := ['@'] + name;
    assert "/duel @" + name == "/duel" + ([' '] + t);
    TrimPrefixOfConcat("/duel", [' '] + t);
    TrimmedAfter('@', name);
    TrimSpaceOfLeftPadded(t);
    TrimPrefixOfConcat("@", name);
  }

  /** What the balance scan found for the named user. */
  datatype Target = NotFound | Found(userID: int, balance: int)

  /** How duelHandler answers a challenge once it knows the target. */
  datatype Admission = TooPoor | SelfDuel | AlreadyPending | Admitted(duel: PendingDuel)

  /**
   * duelHandler from the target check on: a target that was not found or
   * has nothing is refused first, then a self-challenge, then a challenge in
   * a group whose stored duel is still live; otherwise a new duel expiring
   * 10 minutes from now is admitted.
   */
  function Admit(duels: map<int, PendingDuel>, groupID: int, initiatorID: int, initiatorName: string,
                 targetName: string, target: Target, now: int): (a: Admission)
    ensures a == TooPoor <==> target.NotFound? || target.balance <= 0
    ensures a == SelfDuel <==> target.Found? && target.balance > 0 && target.userID == initiatorID
    ensures a == AlreadyPending <==>
      target.Found? && target.balance > 0 && target.userID != initiatorID
      && groupID in duels && Live(duels[groupID], now)
    ensures a.Admitted? ==>
      a.duel == PendingDuel(initiatorID, target.userID, groupID, targetName, initiatorName, now + DuelTimeout)
  {
    if target.NotFound? || target.balance <= 0 then TooPoor
    else if target.userID == initiatorID then SelfDuel
    else if groupID in duels && Live(duels[groupID], now) then AlreadyPending
    else Admitted(PendingDuel(initiatorID, target.userID, groupID, targetName, initiatorName, now + DuelTimeout))
  }

  /** The registry after an admission decision: an admitted duel replaces
      whatever (expired) entry the group had; nothing else changes. */
  function AfterAdmission(duels: map<int, PendingDuel>, groupID: int, a: Admission): (r: map<int, PendingDuel>)
    ensures !a.Admitted? ==> r == duels
    ensures a.Admitted? ==> groupID in r && r[groupID] == a.duel
    ensures forall g :: g != groupID ==> (g in r <==> g in duels) && (g in r ==> r[g] == duels[g])
  {
    if a.Admitted? then duels[groupID := a.duel] else duels
  }

  /** Admission keeps the registry valid. */
  lemma AdmitKeepsRegistryValid(duels: map<int, PendingDuel>, groupID: int, initiatorID: int,
                                initiatorName: string, targetName: string, target: Target, now: int)
    requires RegistryValid(duels)
    ensures RegistryValid(AfterAdmission(duels, groupID,
              Admit(duels, groupID, initiatorID, initiatorName, targetName, target, now)))
  {
  }

  /** A live duel blocks the group: the second challenge within 10 minutes is
      refused and the first one stays; once it has expired a new challenge
      succeeds and replaces it. */
  lemma LiveDuelBlocksGroup(duels: map<int, PendingDuel>, groupID: int, initiatorID: int,
                            initiatorName: string, targetName: string, targetID: int, balance: int, now: int)
    requires balance > 0 && targetID != initiatorID
    requires groupID in duels
    ensures var a := Admit(duels, groupID, initiatorID, initiatorName, targetName, Found(targetID, balance), now);
      if now < duels[groupID].expiresAt then
        a == AlreadyPending && AfterAdmission(duels, groupID, a) == duels
      else
        a.Admitted? && AfterAdmission(duels, groupID, a)[groupID].expiresAt == now + DuelTimeout
  {
  }

  /** The outcome of an accepted duel that is played out. */
  datatype Settlement = Settlement(
    even: bool,
    winnerID: int,
    loserID: int,
    winnerName: string,
    loserName: string,
    amountWon: int)
  {
    /** The transfer is skipped when the loser has nothing to take. */
    function Transferred(): int {
      if amountWon > 0 then amountWon else 0
    }
  }

  /**
   * acceptDuelHandler's settlement: an even die gives the target's balance
   * to the initiator, an odd die the initiator's balance to the target. The
   * amount is the loser's balance as read on acceptance. The initiator is
   * announced by the fallback name "User_<id>", the target by the name
   * stored in the duel.
   */
  function Settle(d: PendingDuel, dice: int, initiatorAmount: int, targetAmount: int): (s: Settlement)
    ensures s.even <==> dice % 2 == 0
    ensures s.even ==> s.winnerID == d.initiatorID && s.loserID == d.targetID && s.amountWon == targetAmount
    ensures !s.even ==> s.winnerID == d.targetID && s.loserID == d.initiatorID && s.amountWon == initiatorAmount
    ensures s.winnerName == if s.even then FallbackName(d.initiatorID) else d.targetName
    ensures s.loserName == if s.even then d.targetName else d.initiatorName
  {
    if dice % 2 == 0 then
      Settlement(true, d.initiatorID, d.targetID, FallbackName(d.initiatorID), d.targetName, targetAmount)
    else
      Settlement(false, d.targetID, d.initiatorID, d.targetName, d.initiatorName, initiatorAmount)
  }

  /** The balances after the settlement's transfer, inside one transaction. */
  function SettleBalances(b: map<Key, int>, groupID: int, s: Settlement): map<Key, int> {
    if s.amountWon > 0 then Transfer(b, (s.loserID, groupID), (s.winnerID, groupID), s.amountWon) else b
  }

  /**
   * When the amounts read are the current balances, the winner takes the
   * loser's whole positive balance: the loser ends at 0, the winner gains
   * exactly what the loser had, the pair's sum is unchanged and no other row
   * moves. A loser with nothing positive loses nothing.
   */
  lemma WinnerTakesAll(b: map<Key, int>, d: PendingDuel, dice: int)
    requires d.initiatorID != d.targetID
    ensures var s := Settle(d, dice, BalanceOf(b, (d.initiatorID, d.groupID)), BalanceOf(b, (d.targetID, d.groupID)));
      var after := SettleBalances(b, d.groupID, s);
      var loser, winner := (s.loserID, d.groupID), (s.winnerID, d.groupID);
      && s.amountWon == BalanceOf(b, loser)
      && BalanceOf(after, loser) == (if BalanceOf(b, loser) > 0 then 0 else BalanceOf(b, loser))
      && BalanceOf(after, winner) == BalanceOf(b, winner) + s.Transferred()
      && BalanceOf(after, loser) + BalanceOf(after, winner) == BalanceOf(b, loser) + BalanceOf(b, winner)
      && (forall k :: k != loser && k != winner ==> BalanceOf(after, k) == BalanceOf(b, k))
  {
    var s := Settle(d, dice, BalanceOf(b, (d.initiatorID, d.groupID)), BalanceOf(b, (d.targetID, d.groupID)));
    if s.amountWon > 0 {
      TransferPreservesSum(b, (s.loserID, d.groupID), (s.winnerID, d.groupID), s.amountWon);
    }
  }
}
