/**
 * The mock Telegram bot of simulator_test.go: a log of the texts sent and a
 * queue of dice values that the next dice rolls take, one by one, falling
 * back to 1 once the queue is empty.
 */
module MockBots {

  /** The message SendMessage hands back: its ID and its text. */
  datatype TextMessage = TextMessage(id: int, text: string)

  /** The message SendDice hands back: its ID and the dice it shows. */
  datatype DiceMessage = DiceMessage(id: int, emoji: string, value: int)

  /** The value the next roll takes from `queue`. */
  function NextValue(queue: seq<int>): int {
    if queue == [] then 1 else queue[0]
  }

  /** The queue once the next roll has taken its value. */
  function Remaining(queue: seq<int>): seq<int> {
    if queue == [] then [] else queue[1..]
  }

  /** The values of `n` rolls, one after another, taken from `queue`. */
  function Drawn(queue: seq<int>, n: nat): seq<int>
    decreases n
  {
    if n == 0 then [] else [NextValue(queue)] + Drawn(Remaining(queue), n - 1)
  }

  /** The rolls take the queued values in order and then 1 every time. */
  lemma {:induction false} DrawnInOrder(queue: seq<int>, n: nat)
    ensures |Drawn(queue, n)| == n
    ensures forall k :: 0 <= k < n ==> Drawn(queue, n)[k] == if k < |queue| then queue[k] else 1
    decreases n
  {
    if n > 0 {
      DrawnInOrder(Remaining(queue), n - 1);
      var d := Drawn(queue, n);
      forall k | 0 < k < n
        ensures d[k] == if k < |queue| then queue[k] else 1
      {
        assert d[k] == Drawn(Remaining(queue), n - 1)[k - 1];
        if queue != [] && k < |queue| {
          assert Remaining(queue)[k - 1] == queue[k];
        }
      }
    }
  }

  class MockBot {
    var messages: seq<string>
    var diceValues: seq<int>

    /** NewMockBot: no messages and no queued dice values. */
    constructor ()
      ensures messages == [] && diceValues == []
    {
      messages := [];
      diceValues := [];
    }

    /** Logs `text` and numbers the message after those sent before
        (simulator_test.go:111-118). */
    method SendMessage(text: string) returns (m: TextMessage)
      modifies this
      ensures m == TextMessage(|old(messages)| + 1, text)
      ensures messages == old(messages) + [text]
      ensures diceValues == old(diceValues)
    {
      m := TextMessage(|messages| + 1, text);
      messages := messages + [text];
    }

    /** Rolls the next queued value; the roll is not logged as a text
        (simulator_test.go:120-129). */
    method SendDice(emoji: string) returns (m: DiceMessage)
      modifies this
      ensures m == DiceMessage(|old(messages)| + 1, emoji, NextValue(old(diceValues)))
      ensures diceValues == Remaining(old(diceValues))
      ensures messages == old(messages)
    {
      var id := |messages| + 1;
      var value := NextDiceValue();
      m := DiceMessage(id, emoji, value);
    }

    /** Reports every deletion as done and changes nothing
        (simulator_test.go:131-134). */
    method DeleteMessage(messageID: int) returns (deleted: bool)
      ensures deleted
    {
      deleted := true;
    }

    /** Takes the head of the dice queue, or 1 when it is empty
        (simulator_test.go:136-143). */
    method NextDiceValue() returns (v: int)
      modifies this
      ensures v == NextValue(old(diceValues))
      ensures diceValues == Remaining(old(diceValues))
      ensures messages == old(messages)
    {
      if |diceValues| == 0 {
        return 1;
      }
      v := diceValues[0];
      diceValues := diceValues[1..];
    }

    /** Replaces the dice queue (simulator_test.go:145-147). */
    method SetDiceValues(values: seq<int>)
      modifies this
      ensures diceValues == values
      ensures messages == old(messages)
    {
      diceValues := values;
    }

    /** The texts sent so far, oldest first (simulator_test.go:149-151). */
    function GetMessages(): seq<string>
      reads this
    {
      messages
    }

    /** The last text sent, or "" before any (simulator_test.go:153-158). */
    function GetLastMessage(): (m: string)
      reads this
      ensures messages == [] ==> m == ""
      ensures messages != [] ==> m == messages[|messages| - 1]
    {
      if |messages| == 0 then "" else messages[|messages| - 1]
    }

    /** Empties the message log and the dice queue (simulator_test.go:160-163). */
    method ClearMessages()
      modifies this
      ensures messages == [] && diceValues == []
    {
      messages := [];
      diceValues := [];
    }
  }

  /** The last message is the reply just sent, which is what a scenario's
      expected reply is compared against. */
  method ReplyIsLast(bot: MockBot, text: string) returns (m: TextMessage)
    modifies bot
    ensures bot.GetLastMessage() == text
    ensures m.id == |bot.GetMessages()|
  {
    m := bot.SendMessage(text);
  }

  /** Two rolls after queueing `values` take the two values the queue
      promises, and leave the rest. */
  method RollTwice(bot: MockBot, values: seq<int>) returns (first: int, second: int)
    modifies bot
    ensures [first, second] == Drawn(values, 2)
    ensures bot.messages == old(bot.messages)
    ensures bot.diceValues == if |values| <= 2 then [] else values[2..]
  {
    bot.SetDiceValues(values);
    var m := bot.SendDice("slots");
    first := m.value;
    second := bot.NextDiceValue();
    DrawnInOrder(values, 2);
    if |values| > 2 {
      assert values[1..][1..] == values[2..];
    }
  }

  /** Queued values 3 and 4 are rolled as 3, 4 and then the default 1. */
  method QueuedThenDefault(bot: MockBot) returns (rolls: seq<int>)
    modifies bot
    ensures rolls == [3, 4, 1]
    ensures bot.diceValues == []
  {
    bot.SetDiceValues([3, 4]);
    var a := bot.NextDiceValue();
    var b := bot.NextDiceValue();
    var c := bot.NextDiceValue();
    rolls := [a, b, c];
  }
}
