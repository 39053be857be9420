# Slot-machine casino bot: a Dafny model

This project models the core of a Telegram group bot that runs a casino. It
covers six parts:

- **Slot values.** The 1..64 value of a Telegram slot-machine die decodes
  into three reels. Three equal reels win, and the win pays by face.
- **Player statistics.** A player's score and game count, as one spin
  updates them.
- **Duels.** Pending duels live in a per-group registry. A duel is
  challenged, accepted, declined or cancelled. An accepted duel is settled by
  a die: the winner takes the loser's whole balance.
- **Leaderboards.** The orders the two leaderboards sort by.
- **Scenario files.** The parser of the text files that script a
  conversation with the bot.
- **Mock bot.** The mock bot those scenarios run against.

The modules follow the source files:

| module | file | source |
|---|---|---|
| `Slots` | `slots.dfy` | `models.go`: faces, reel decoding, the `stats` record and its `Score` |
| `Ledger` | `ledger.dfy` | The stats and balance tables as maps, with `getOrCreateStats` as `db.go` writes it. `main.go` calls its storage through an interface whose implementation is not part of this model, so the other calls are defined here as map updates. |
| `Spins` | `spins.dfy` | The stats delta of one spin in `handleSlotMachine` (`main.go`) |
| `Duels` | `duels.dfy` | `PendingDuel`, the registry checks of `duelHandler` and the settlement of `acceptDuelHandler` (`main.go`) |
| `Leaderboard` | `leaderboard.dfy` | The comparators of the stats and balance leaderboards (`main.go`) |
| `Casino` | `casino.dfy` | The handlers of `main.go` as methods of a class `CasinoController`. Its fields are the duel registry, the stats table and the balance table, all updated in place. |
| `Scenarios` | `scenarios.dfy` | Client runs of the controller, written as methods with concrete outcomes |
| `Text` | `text.dfy` | The Go library calls the source relies on: `strings.TrimSpace`, `TrimPrefix`, `TrimSuffix`, `Contains`, `Split`, `Join`, and `fmt.Sscanf("%d")` / `%d` formatting |
| `Simulator` | `simulator.dfy` | `parseTestInput` (`simulator_test.go`), as functions plus the loop as methods |
| `ScenarioFiles` | `scenario_files.dfy` | Properties of the parser: well-formedness, a header count bound, header and whole-file round trips |
| `MockBots` | `mock_bot.dfy` | `MockBot` (`simulator_test.go`) as a class whose methods update its message log and dice queue |
| `Options` | `options.dfy` | `Option` |

Several things that touch the outside world become parameters:

- The clock becomes the parameters `now` and `date`.
- The die rolled in a duel becomes the parameter `dice`.
- A failing storage call becomes a parameter that selects the source's
  error branch. Most are booleans. The scan for a duel's target instead
  takes the set of users whose stats row cannot be read.

Every other way a duel ends deletes it from the registry: both players
broke (`main.go:367`), a decline (`main.go:492`) and a cancel
(`main.go:528`). Accepting a duel and playing it out (`main.go:395-452`)
does not. The model follows the code as written, and "## Findings" adds a
corrected accept that closes a settled duel.

## Model

| member | source | states |
|---|---|---|
| Slots.Left | models.go:16-18 | the left reel of any value is a face (0..3) |
| Slots.Center | models.go:20-22 | the centre reel of any value is a face |
| Slots.Right | models.go:24-26 | the right reel of any value is a face |
| Slots.MasksAgree | models.go:16-26 | the bit masks `(v-1)&3`, `>>2&3`, `>>4&3` on the low byte are the reels as integer division and remainder |
| Slots.DecodeEncode | models.go:16-26 | encoding three faces and decoding the value gives back the three faces |
| Slots.EncodeDecode | models.go:16-26 | every value 1..64 is the encoding of its three reels |
| Slots.DecodeBijective | models.go:16-26 | each triple of faces is shown by exactly one value in 1..64 |
| Slots.WinIsTriple | main.go:567-568 | a winning value is `1 + 21·face` of its left reel |
| Slots.Jackpots | main.go:567-568 | a value wins iff it is 1, 22, 43 or 64, which are bar, cherry, lemon and seven, in that order |
| Slots.Payout | main.go:584-596 | every face pays a positive amount; only seven pays 100 |
| Slots.Stats.Score | models.go:40-42 | the score of non-negative counters is non-negative |
| Slots.Stats.AddWin | models.go:28-38 | a win of face f adds one to f's counter and leaves the others |
| Slots.ScoreWeighsPayouts | models.go:40-42 | the score weighs the wins of each face by that face's payout (100, 50, 20, 10) |
| Slots.ScoreOfAddWin | models.go:40-42 | one more win of face f raises the score by f's payout exactly |
| Ledger.NewStats | db.go:23-29 | a new row has zero counters, zero score and no games |
| Ledger.GetOrCreateStats | db.go:19-33 | the key gets a row; existing rows are untouched; a missing row is a new zero row with the given name |
| Ledger.GetOrCreateStatsIdempotent | db.go:19-33 | creating the same row twice is creating it once, whatever the second name |
| Ledger.NameOfAfterCreate | main.go:228 | the by-name lookup's row creation never changes anyone's name |
| Ledger.GetOrCreateBalance | main.go:339-359 | reading a balance creates the row at its current value (0 when missing); no balance changes |
| Ledger.UpdateStats | main.go:555 | applying a delta keeps the identity, adds the games and each win counter, adds the delta's points to the score, and keeps counters non-negative |
| Ledger.UpdateBalance | main.go:558 | the player's balance grows by the amount; nobody else's changes |
| Ledger.Transfer | main.go:410-427 | the payer loses the amount and the payee gains it; a self-transfer changes no balance; others are untouched |
| Ledger.TransferPreservesSum | main.go:410-427 | a transfer keeps the sum of the two balances |
| Spins.SpinDelta | main.go:551-599 | every spin counts one game and adds no negative field |
| Spins.LosingSpin | main.go:567-582 | a losing value scores nothing and counts no win |
| Spins.WinningSpin | main.go:584-599 | a winning value counts exactly one win, for its left face, and scores 50/10/20/100 for bar/cherry/lemon/seven |
| Spins.SpinCreditIsPoints | main.go:551-599 | the balance credit of a spin equals the score it adds |
| Spins.SpinScoreMatchesCredit | main.go:553-565 | after the stats update the score grew by exactly the balance credit, and the game count by one |
| Spins.SpinUpdate | main.go:553-599 | storing a spin adds one game and its time; a win also adds one win of its left face, as `Stats.AddWin` does, and raises the score by that face's payout; a loss changes nothing else |
| Spins.WinUpdate | main.go:584-599 | storing a winning delta of face f is `AddWin(f)` plus one game and the time of play |
| Spins.NoWinUpdate | main.go:567-582 | storing a losing delta adds one game and the time of play and changes nothing else |
| Duels.DuelArgument | main.go:201-210 | the usage reply is given iff nothing but spaces follows "/duel" |
| Duels.DuelArgumentOfMention | main.go:201-210 | "/duel @name" reads the name without the '@' |
| Duels.Admit | main.go:240-290 | too poor iff no target row or a non-positive balance; self-duel iff a funded target is the challenger; pending iff a funded other target faces a live duel; otherwise a duel expiring in 600 s |
| Duels.AfterAdmission | main.go:265-290 | only an admitted duel is stored, under its group; other groups keep their duels |
| Duels.AdmitKeepsRegistryValid | main.go:257-290 | admitting keeps every stored duel keyed by its own group |
| Duels.LiveDuelBlocksGroup | main.go:266-290 | a live duel refuses a new one; an expired one is replaced by a fresh duel |
| Duels.Settle | main.go:395-408 | an even die makes the challenger win the target's balance, an odd die the reverse; the names follow, with `User_<id>` for an even winner |
| Duels.WinnerTakesAll | main.go:409-452 | after settling, a positive loser balance is 0 and the winner gained it, the sum is kept, and nobody else changes |
| Casino.FirstNamed | main.go:226-238 | the scan passes over rows whose stats cannot be read, and stops at the first readable row stored under the mentioned name, or at the end when there is none |
| Casino.CreateRowsKeepsNames | main.go:228-231 | creating rows while scanning changes no stored name and keeps the table valid |
| Casino.CreateRowsSkipsUnreadable | main.go:228-231 | the scan adds stats rows for exactly the readable users among the rows it read; a failed read creates nothing |
| Casino.AcceptOutcome | main.go:307-461 | the accept gets past the registry checks iff the group has a duel and the actor is its target; past them, `BalancesUnavailable` iff a balance read fails; `BothBroke` iff both reads succeed and both balances are at most 0; otherwise, with someone holding money, `DiceUnavailable` iff the die cannot be sent, `NoDiceValue` iff it has no value, `TransferFailed` iff it is rolled and the transfer fails, and `Settled` with the die's value iff it is rolled and the transfer commits; the registry changes only on `BothBroke` and stays valid |
| Casino.AcceptedDuelSettles | main.go:339-452 | an accepted duel with money on the table is settled as `Settle` says, and the balances change as `SettleBalances` says; a settled duel had both balance reads succeed and at least one positive balance |
| Casino.SettledDuelCanBeReplayed | main.go:307-461 | as written, a settled duel stays in the registry, so its target can accept it again |
| Casino.AcceptOnceOutcome | main.go:307-461 | the same outcome as accepting, but a settled duel also leaves the registry; a duel whose reads, roll or transfer fail stays stored, as before |
| Casino.SettledDuelIsClosed | main.go:319-327 | with the corrected accept, a second accept of a settled duel finds no duel |
| Casino.ReelDelta | main.go:567-599 | the delta is the spin's delta; the roll's message is scheduled for deletion iff the value loses |
| Casino.CasinoController.FindTarget | main.go:226-238 | the loop returns the row found by `FirstNamed`, skips a row whose stats call fails, creates stats rows only for the readable rows it scanned, and changes no name |
| Casino.CasinoController.Duel | main.go:191-305 | usage without an argument; an error when the group's balances cannot be read; otherwise the challenge by name |
| Casino.CasinoController.ChallengeNamed | main.go:226-305 | the reply and the new registry are `ReplyFor(Admit(...))` and `AfterAdmission(...)` on the found target; balances do not change |
| Casino.CasinoController.AcceptDuel | main.go:307-461 | the new registry, balances and reply are those of `AcceptOutcome` |
| Casino.CasinoController.AcceptDuelOnce | main.go:307-461 | the same, with `AcceptOnceOutcome`, which closes a settled duel |
| Casino.CasinoController.DeclineDuel | main.go:464-498 | only the target can withdraw a stored duel, and that removes it; nothing else changes |
| Casino.CasinoController.CancelDuel | main.go:500-534 | only the challenger can withdraw a stored duel, and that removes it; nothing else changes |
| Casino.CasinoController.HandleSlotMachine | main.go:536-600 | a stats failure changes nothing; a balance failure keeps the stats row created; otherwise the stats get the spin's delta and the balance the spin's score |
| Scenarios.SevensSpin | main.go:536-600 | a first spin of 64 counts one game and one seven win, scores and credits 100, and keeps its message |
| Scenarios.Jackpot | main.go:536-600 | a value of 64 credits 100 to the spinner only and keeps the registry |
| Scenarios.TwoPlayers | main.go:536-600 | two players reach balances 100 and 300 with their names stored |
| Scenarios.Challenge | main.go:191-305 | a challenge by mention stores a duel expiring in 600 s and replies with both balances |
| Scenarios.ChallengeWhilePending | main.go:266-277 | a second challenge while the duel is live is refused and changes nothing |
| Scenarios.EvenDuel | main.go:307-461 | an even die hands the target's 300 to the challenger (400 and 0), and the corrected accept closes the duel |
| Scenarios.EvenDieSettles | main.go:395-452 | an even die on a stored duel between balances 100 and 300 hands the target's 300 to the challenger (400 and 0), and the corrected accept closes the duel |
| Scenarios.ChallengeTwice | main.go:266-290 | a second challenge while the duel is live is refused; once it has expired a third is admitted, expiring 600 s after it |
| Scenarios.TwoLoses | main.go:567-568 | the value 2 shows cherry, bar, bar and loses |
| Scenarios.RichAndBroke | main.go:536-600 | one win and one loss leave balances 100 and 0 |
| Scenarios.BrokeTarget | main.go:240-246 | a target with a zero balance is refused as too poor and no duel is stored |
| Scenarios.UnreadableTarget | main.go:226-246 | when the target's stats row cannot be read, the scan passes over it, and the challenge is refused as too poor with no duel stored |
| Leaderboard.StatsBeforeStrict | main.go:108-116 | the stats order is irreflexive, asymmetric and transitive |
| Leaderboard.StatsTies | main.go:108-116 | two rows tie iff score, games and last play are all equal |
| Leaderboard.BalanceBeforeStrict | main.go:154-156 | the balance order is a strict order, and ties are equal amounts |
| Leaderboard.SortedStatsOrder | main.go:108-116 | down a sorted board the score never rises; at equal score the game count never falls; at equal games the last play never rises |
| Text.TrimSpace | simulator_test.go:179 | the result has no space at either end, and it is no longer than the input |
| Text.TrimSpaceBlank | simulator_test.go:179-185 | a line trims to "" iff it is all spaces |
| Text.TrimSpaceOfTrimmed | simulator_test.go:179 | trimming a trimmed string changes nothing |
| Text.TrimSpaceWithin | simulator_test.go:200 | trimming introduces no character |
| Text.TrimSpaceOfPadded | simulator_test.go:200 | a trimmed name followed by the space before "(id=" trims back to the name |
| Text.TrimSpaceOfLeftPadded | main.go:201 | the space after "/duel" is trimmed off the argument |
| Text.TrimPrefix | simulator_test.go:189 | with the prefix, prefix plus result is the input; without it the input is returned |
| Text.TrimPrefixOfConcat | main.go:210 | removing a prefix that is there gives the rest |
| Text.TrimSuffix | simulator_test.go:201 | with the suffix, result plus suffix is the input; without it the input is returned |
| Text.IndexFrom | simulator_test.go:197 | the first occurrence at or after the start, or -1 when there is none |
| Text.Index | simulator_test.go:197-199 | the first occurrence, or -1 when there is none |
| Text.Split | simulator_test.go:175 | at least one part, and no part holds the separator |
| Text.JoinSplit | simulator_test.go:175 | joining the split parts gives back the input |
| Text.SplitJoin | simulator_test.go:175 | splitting the joined parts gives back the parts when none holds the separator |
| Text.FormatInt | main.go:403 | the decimal form is a digit or a '-' followed by digits |
| Text.ScanInt | simulator_test.go:202 | a scanned value fits in int64 |
| Text.ScanFormat | simulator_test.go:201-202 | `%d` reads back every int64 that `%d` writes |
| Text.DigitsValueOfDigits | simulator_test.go:202 | the digits of a natural number read back as that number |
| Simulator.ReadHeader | simulator_test.go:188-210 | the header branch reads `ParseHeader` of the text after "> @" |
| Simulator.SkipBlankSkips | simulator_test.go:214-216 | the skip stops at the first non-blank line, or at the end, and every line skipped is blank |
| Simulator.SkipBlankLines | simulator_test.go:214-216 | the skip loop stops where `SkipBlank` says |
| Simulator.BodyEndStops | simulator_test.go:240-246 | the reply collection stops at the first header line, or at the end |
| Simulator.KeptLines | simulator_test.go:247-253 | the kept reply lines are non-blank and trimmed |
| Simulator.BodyTrimmed | simulator_test.go:240-255 | the collected reply is "" or trimmed at both ends |
| Simulator.BodyIsJoin | simulator_test.go:240-255 | the reply is the kept lines joined by '\n' |
| Simulator.BodySplits | simulator_test.go:240-255 | splitting a non-empty reply at '\n' gives back its kept lines |
| Simulator.AppendLine | simulator_test.go:248-252 | one more line joins the reply after a '\n', or starts it |
| Simulator.ReadExpected | simulator_test.go:240-255 | the collection loop stops where `BodyEnd` says and gathers `Body` |
| Simulator.ReadBlock | simulator_test.go:188-262 | the header branch yields `BlockAt`: a scenario and the next line, or the panic |
| Simulator.ReadAfterHeader | simulator_test.go:212-262 | the command, bot line and reply part yields `BlockAfter` |
| Simulator.ParseLines | simulator_test.go:177-268 | the cursor loop's result is `ParseFrom(lines, 0)` |
| Simulator.ParseTestInput | simulator_test.go:173-268 | parsing splits at '\n' and gives `Parse(input)` |
| ScenarioFiles.HeaderCases | simulator_test.go:193-209 | a header is the bot (ID 0) iff it starts with "bot"; another speaker's ID is non-zero and its name is trimmed; an ID is missing iff there is neither "bot" nor "(id=" |
| ScenarioFiles.BlockWellFormed | simulator_test.go:188-262 | every scenario a header yields has a trimmed name, an int64 ID that is 0 only when the speaker is the bot, a trimmed non-empty command and a trimmed reply |
| ScenarioFiles.BlockAfterWellFormed | simulator_test.go:212-262 | the same for the part after the header |
| ScenarioFiles.ParsedWellFormed | simulator_test.go:173-268 | every scenario of a successful parse is well formed |
| ScenarioFiles.BlockSpansTwoHeaders | simulator_test.go:188-238 | a scenario consumes at least two header lines: its own and the bot's |
| ScenarioFiles.ScenarioCount | simulator_test.go:173-268 | a successful parse yields at most half as many scenarios as there are header lines |
| ScenarioFiles.SkipsPreamble | simulator_test.go:177-266 | lines before the first header, blank or not, do not change the parse |
| ScenarioFiles.SkipsLine | simulator_test.go:263-265 | one non-header line is skipped |
| ScenarioFiles.HeaderLineAfterPrompt | simulator_test.go:179-189 | a written header trims to itself, starts with "> @", and has "name (id=N)" after it |
| ScenarioFiles.UserPartReads | simulator_test.go:193-203 | "name (id=N)" reads back as that speaker for a nameable name and a non-zero int64 N |
| ScenarioFiles.HeaderRoundTrip | simulator_test.go:179-210 | a header line written for a speaker parses back as that speaker |
| ScenarioFiles.SplitAtMarker | simulator_test.go:197-201 | the split at the first "(id=" separates the name and the ID text |
| ScenarioFiles.ParseScenarioFile | simulator_test.go:173-268 | a file written from well-formed one-line scenarios parses back as exactly those scenarios |
| ScenarioFiles.BlockOfScenario | simulator_test.go:188-262 | the four lines of a scenario followed by a header or the end yield that scenario and the line after |
| ScenarioFiles.ReplyAfterBotLine | simulator_test.go:212-262 | a command, "> @bot" and a one-line reply yield the scenario |
| ScenarioFiles.ParseBlocks | simulator_test.go:177-268 | consecutive blocks parse as the sequence of their scenarios |
| MockBots.DrawnInOrder | simulator_test.go:136-143 | rolls take the queued values in order, and 1 once the queue is empty |
| MockBots.MockBot.constructor | simulator_test.go:104-109 | a new bot has no messages and no queued values |
| MockBots.MockBot.SendMessage | simulator_test.go:111-118 | the text is logged, and its ID is its position in the log; the dice queue is unchanged |
| MockBots.MockBot.SendDice | simulator_test.go:120-129 | the roll takes the next queued value, and is numbered after the logged texts without being logged |
| MockBots.MockBot.DeleteMessage | simulator_test.go:131-134 | every deletion reports success |
| MockBots.MockBot.NextDiceValue | simulator_test.go:136-143 | the head of the queue, removed from it, or 1 when the queue is empty |
| MockBots.MockBot.SetDiceValues | simulator_test.go:145-147 | the queue becomes the given values and the log is kept |
| MockBots.MockBot.GetLastMessage | simulator_test.go:153-158 | the last logged text, or "" when nothing was sent |
| MockBots.MockBot.ClearMessages | simulator_test.go:160-163 | both the log and the queue become empty |
| MockBots.ReplyIsLast | simulator_test.go:111-158 | after a send, the last message is that text and its ID is the log's length |
| MockBots.RollTwice | simulator_test.go:120-147 | two rolls after queueing give the first two promised values and leave the rest queued |
| MockBots.QueuedThenDefault | simulator_test.go:136-147 | queued 3 and 4 roll as 3, 4 and then the default 1 |

## Left out

- Telegram I/O: receiving updates, sending replies and the HTTP client are
  left out. Replies are datatypes (`DuelReply`, `AcceptReply`,
  `WithdrawReply`, `SpinOutcome`), not formatted message texts.
- `main.go` checks that a die message is the slot emoji, and it logs and
  prints JSON. These are not modelled.
- The leaderboard handlers' message formatting and the sort call are left
  out. Only their comparators are modelled, proved to be strict orders.
- The mutex around the duel registry and all concurrency are left out.
  Each handler is one atomic method call.
- The deletion goroutine is reduced to the `deleteScheduled` flag of
  `ReelDelta`. The `time.Sleep` delays are dropped.
- The clock and the die are not modelled. They become the `now`, `date` and
  `dice` parameters.
- Database failures are parameters: booleans, and in the target scan the
  set of users whose stats call fails.
- The storage interface `main.go` calls is not part of this model. Its
  `GetOrCreateBalance`, `UpdateStats`, `UpdateBalance`, `TransferBalance`
  and `Transaction` are defined as atomic updates of the stats and balance
  maps. `GetBalancesByGroup` and `GetStatsByGroup` become parameters.
  `GetOrCreateStats` follows `getOrCreateStats` in `db.go`.
- `db.go`'s `initDB`, `saveStats` and `getUsersByGroup` are not modelled.
  They open the database and read or save whole rows.
- Slots.Stats.Score: integers are unbounded, so the int64 overflow of scores
  and balances is not modelled.
- Slots.Stats.Score: the leaderboard (`main.go:109-110`, `main.go:126`) reads
  a `.Score` of the rows the storage interface returns, whose type is not
  part of this model. The model uses the score `models.go:40-42` derives
  from the win counters. `Ledger.UpdateStats` likewise ignores the delta's
  `score` field and adds its counters; `Spins.SpinCreditIsPoints` shows
  that the two agree for every spin.
- Go strings are byte sequences, while `Text` works on Dafny characters. A
  scenario file that is not valid UTF-8 cannot be represented.
- The second poverty check in `duelHandler` (`main.go:249-255`) repeats the
  first and can never fire, so it has no branch of its own.
- Text.IsSpace: spaces are the ASCII and Latin-1 white-space characters plus
  the Unicode ones listed in `SpaceChars`. There is no Unicode normalisation.
- Text.ScanInt: only the `%d` verb is modelled. It skips leading spaces,
  takes an optional sign and a run of digits, and rejects values outside
  int64.
- ScenarioFiles.ParseScenarioFile: the round trip covers one-line replies
  only. A written reply must not contain '\n', and it must not start with
  "> @", since the parser would read it as a header (simulator_test.go:240-246).
- ScenarioFiles.ParseScenarioFile: a name must not start with "bot" or
  contain "(id=". A name starting with "bot" is read back as the bot, as
  `HeaderCases` states. A name holding "(id=" is cut at its first marker.
- The test harness around the parser is a test driver that reads and writes
  files. It is not modelled. This covers `loadTestFile`, `saveTestFile`,
  `findTestFiles`, `updateTestFile`, `runScenario` and `TestTxtFiles`.
- The parser's `panic` on a header without an ID, or with an invalid one,
  is modelled as the `Panicked` result.
- `MockBot.GetMessages` returns the log field itself, so it carries no
  contract of its own. `ReplyIsLast` uses it.

## Findings

| source | as written | input that shows it | evidently intended | confidence | as-written member | corrected member |
|---|---|---|---|---|---|---|
| main.go:307-461 | An accepted duel is settled but never removed from the registry. Only the both-broke branch deletes it. | Group 7, challenger 1 with 100 and target 2 with 300. Accepting with die 4 pays the challenger; the duel is still stored, and a second accept with die 3 settles it again. | A settled duel is closed, as the both-broke branch, decline and cancel close theirs (main.go:367, 492, 528). | not executed | Casino.SettledDuelCanBeReplayed | Casino.SettledDuelIsClosed |
