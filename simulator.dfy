/**
 * The scenario files of simulator_test.go: `parseTestInput`, which turns
 * "> @user (id=N)" / command / "> @bot" / expected-reply blocks into test
 * scenarios, specified by a function over the lines from a cursor and
 * implemented by the same cursor loop.
 */
module Simulator {
  import opened Options
  import opened Text

  /** A TestScenario record. */
  datatype Scenario = Scenario(username: string, userID: int, command: string, expected: string)

  /** The parser's result: the scenarios, or the trimmed line it panicked on. */
  datatype Parsed = Parsed(scenarios: seq<Scenario>) | Panicked(line: string)

  /** What a header names after "> @": the speaker, or why parsing panics. */
  datatype Header = Speaker(username: string, userID: int) | InvalidID | MissingID

  const IdMarker: string := "(id="

  /** `strings.Split(u, "(id=")[0]` */
  function NamePart(u: string): string
    requires Contains(u, IdMarker)
  {
    u[..Index(u, IdMarker)]
  }

  /** `strings.Split(u, "(id=")[1]`: what lies between the first marker and
      the next one, or the end. */
  function IdPart(u: string): string
    requires Contains(u, IdMarker)
  {
    var rest := u[Index(u, IdMarker) + |IdMarker|..];
    var j := Index(rest, IdMarker);
    if j < 0 then rest else rest[..j]
  }

  /**
   * A header after "> @" (simulator_test.go:188-210): a name starting with
   * "bot" is the bot, with ID 0; otherwise the name is what precedes
   * "(id=", trimmed, and the ID is what `%d` reads before the ")"; an ID
   * that does not scan or is 0, and a header with no "(id=" at all, panic.
   */
  function ParseHeader(u: string): Header {
    if HasPrefix(u, "bot") then Speaker("bot", 0)
    else if Contains(u, IdMarker) then
      match ScanInt(TrimSuffix(IdPart(u), ")"))
      case None => InvalidID
      case Some(n) => if n == 0 then InvalidID else Speaker(TrimSpace(NamePart(u)), n)
    else MissingID
  }

  /** The first line at or after `i` that is not blank, or |lines|. */
  function SkipBlank(lines: seq<string>, i: nat): (j: nat)
    requires i <= |lines|
    ensures i <= j <= |lines|
    decreases |lines| - i
  {
    if i < |lines| && TrimSpace(lines[i]) == "" then SkipBlank(lines, i + 1) else i
  }

  /** The first line at or after `i` that starts with "> @" as written, or |lines|. */
  function BodyEnd(lines: seq<string>, i: nat): (j: nat)
    requires i <= |lines|
    ensures i <= j <= |lines|
    decreases |lines| - i
  {
    if i < |lines| && !HasPrefix(lines[i], "> @") then BodyEnd(lines, i + 1) else i
  }

  /** SkipBlank skips exactly the blank lines. */
  lemma {:induction false} SkipBlankSkips(lines: seq<string>, i: nat)
    requires i <= |lines|
    ensures forall k :: i <= k < SkipBlank(lines, i) ==> TrimSpace(lines[k]) == ""
    ensures SkipBlank(lines, i) < |lines| ==> TrimSpace(lines[SkipBlank(lines, i)]) != ""
    decreases |lines| - i
  {
    if i < |lines| && TrimSpace(lines[i]) == "" {
      SkipBlankSkips(lines, i + 1);
    }
  }

  /** BodyEnd stops at the first line that starts with "> @". */
  lemma {:induction false} BodyEndStops(lines: seq<string>, i: nat)
    requires i <= |lines|
    ensures forall k :: i <= k < BodyEnd(lines, i) ==> !HasPrefix(lines[k], "> @")
    ensures BodyEnd(lines, i) < |lines| ==> HasPrefix(lines[BodyEnd(lines, i)], "> @")
    decreases |lines| - i
  {
    if i < |lines| && !HasPrefix(lines[i], "> @") {
      BodyEndStops(lines, i + 1);
    }
  }

  /** The trimmed non-blank lines among lines[i..j], in order. */
  function Kept(lines: seq<string>, i: nat, j: nat): seq<string>
    requires i <= j <= |lines|
    decreases j - i
  {
    if j == i then []
    else
      var t := TrimSpace(lines[j - 1]);
      if t == "" then Kept(lines, i, j - 1) else Kept(lines, i, j - 1) + [t]
  }

  /** The expected reply after one more trimmed body line `t`: a blank line
      adds nothing, and lines are separated by a newline. */
  function AddLine(e: string, t: string): string {
    if t == "" then e else if e == "" then t else e + "\n" + t
  }

  /** The expected reply built from the body lines lines[i..j]. */
  function Body(lines: seq<string>, i: nat, j: nat): string
    requires i <= j <= |lines|
    decreases j - i
  {
    if j == i then "" else AddLine(Body(lines, i, j - 1), TrimSpace(lines[j - 1]))
  }

  /** The scenarios `prefix` followed by the outcome `r`. */
  function Glue(prefix: seq<Scenario>, r: Parsed): Parsed {
    match r
    case Parsed(s) => Parsed(prefix + s)
    case Panicked(line) => Panicked(line)
  }

  /** What a header line starts: a scenario and the line after it, input
      that ends before the scenario is complete, or a panic on `line`. */
  datatype Block = Found(scenario: Scenario, next: nat) | Truncated | Malformed(line: string)

  /**
   * The block that starts at the header line lines[i] (simulator_test.go:
   * 188-262): the header is followed, blank lines aside, by the command and
   * a "> @bot" line, and then by the expected reply up to the next line
   * starting with "> @". Input that ends early, or a missing "> @bot" line,
   * truncates the block.
   */
  function BlockAt(lines: seq<string>, i: nat): (b: Block)
    requires i < |lines|
    ensures b.Found? ==> i < b.next <= |lines|
  {
    var line := TrimSpace(lines[i]);
    match ParseHeader(TrimPrefix(line, "> @"))
    case InvalidID => Malformed(line)
    case MissingID => Malformed(line)
    case Speaker(username, userID) => BlockAfter(lines, i + 1, username, userID)
  }

  /** The block of `username` once its header, which ends before lines[i], is read. */
  function BlockAfter(lines: seq<string>, i: nat, username: string, userID: int): (b: Block)
    requires i <= |lines|
    ensures b.Found? ==> i < b.next <= |lines|
  {
    var c := SkipBlank(lines, i);
    if c == |lines| then Truncated
    else
      var b := SkipBlank(lines, c + 1);
      if b == |lines| || !HasPrefix(TrimSpace(lines[b]), "> @bot") then Truncated
      else
        var end := BodyEnd(lines, b + 1);
        Found(Scenario(username, userID, TrimSpace(lines[c]), Body(lines, b + 1, end)), end)
  }

  /**
   * parseTestInput from line `i` on (simulator_test.go:177-268): blank lines
   * and lines that are not headers are skipped; a header starts a block; a
   * truncated block ends parsing with the scenarios found so far.
   */
  function ParseFrom(lines: seq<string>, i: nat): Parsed
    requires i <= |lines|
    decreases |lines| - i
  {
    if i == |lines| then Parsed([])
    else
      var line := TrimSpace(lines[i]);
      if line == "" || !HasPrefix(line, "> @") then ParseFrom(lines, i + 1)
      else
        match BlockAt(lines, i)
        case Malformed(l) => Panicked(l)
        case Truncated => Parsed([])
        case Found(scenario, next) => Glue([scenario], ParseFrom(lines, next))
  }

  /** parseTestInput */
  function Parse(input: string): Parsed {
    ParseFrom(Split(input, '\n'), 0)
  }

  /** The kept lines are non-blank and trimmed. */
  lemma {:induction false} KeptLines(lines: seq<string>, i: nat, j: nat)
    requires i <= j <= |lines|
    ensures forall k :: 0 <= k < |Kept(lines, i, j)| ==> Kept(lines, i, j)[k] != [] && IsTrimmed(Kept(lines, i, j)[k])
    decreases j - i
  {
    if j > i {
      KeptLines(lines, i, j - 1);
    }
  }

  /** The expected reply has no white space at either end. */
  lemma {:induction false} BodyTrimmed(lines: seq<string>, i: nat, j: nat)
    requires i <= j <= |lines|
    ensures IsTrimmed(Body(lines, i, j))
    decreases j - i
  {
    if j > i {
      BodyTrimmed(lines, i, j - 1);
      var e, t := Body(lines, i, j - 1), TrimSpace(lines[j - 1]);
      if t != "" && e != "" {
        assert (e + "\n" + t)[0] == e[0];
        assert (e + "\n" + t)[|e + "\n" + t| - 1] == t[|t| - 1];
      }
    }
  }

  /** The expected reply is empty exactly when every body line is blank,
      and is otherwise the kept lines joined by newlines. */
  lemma {:induction false} BodyIsJoin(lines: seq<string>, i: nat, j: nat)
    requires i <= j <= |lines|
    ensures Body(lines, i, j) == [] <==> Kept(lines, i, j) == []
    ensures Kept(lines, i, j) != [] ==> Body(lines, i, j) == Join(Kept(lines, i, j), '\n')
    decreases j - i
  {
    if j > i {
      BodyIsJoin(lines, i, j - 1);
      KeptLines(lines, i, j - 1);
      var ks := Kept(lines, i, j - 1);
      var t := TrimSpace(lines[j - 1]);
      if t != "" && ks != [] {
        JoinSnoc(ks, t, '\n');
      }
    }
  }

  /** When no body line holds a newline, splitting the expected reply at
      newlines gives back the kept lines. */
  lemma BodySplits(lines: seq<string>, i: nat, j: nat)
    requires i <= j <= |lines|
    requires forall k :: i <= k < j ==> '\n' !in lines[k]
    requires Kept(lines, i, j) != []
    ensures Split(Body(lines, i, j), '\n') == Kept(lines, i, j)
  {
    BodyIsJoin(lines, i, j);
    KeptWithin(lines, i, j);
    SplitJoin(Kept(lines, i, j), '\n');
  }

  lemma {:induction false} KeptWithin(lines: seq<string>, i: nat, j: nat)
    requires i <= j <= |lines|
    requires forall k :: i <= k < j ==> '\n' !in lines[k]
    ensures forall k :: 0 <= k < |Kept(lines, i, j)| ==> '\n' !in Kept(lines, i, j)[k]
    decreases j - i
  {
    if j > i {
      KeptWithin(lines, i, j - 1);
      TrimSpaceWithin(lines[j - 1], '\n');
    }
  }

  lemma GlueGlue(a: seq<Scenario>, b: seq<Scenario>, r: Parsed)
    ensures Glue(a, Glue(b, r)) == Glue(a + b, r)
  {
    if r.Parsed? {
      assert a + (b + r.scenarios) == (a + b) + r.scenarios;
    }
  }

  /** The header branch of parseTestInput (simulator_test.go:188-210). */
  method ReadHeader(usernameLine: string) returns (h: Header)
    ensures h == ParseHeader(usernameLine)
  {
    var username := usernameLine;
    var userID := 0;
    if HasPrefix(usernameLine, "bot") {
      username := "bot";
      userID := 0;
    } else if Contains(usernameLine, IdMarker) {
      username := TrimSpace(NamePart(usernameLine));
      var idStr := TrimSuffix(IdPart(usernameLine), ")");
      var scanned := ScanInt(idStr);
      if scanned.None? || scanned.value == 0 {
        return InvalidID;
      }
      userID := scanned.value;
    } else {
      return MissingID;
    }
    h := Speaker(username, userID);
  }

  /** The loops that skip blank lines (simulator_test.go:214-216, 226-228). */
  method SkipBlankLines(lines: seq<string>, i: nat) returns (j: nat)
    requires i <= |lines|
    ensures j == SkipBlank(lines, i)
  {
    j := i;
    while j < |lines| && TrimSpace(lines[j]) == ""
      invariant i <= j <= |lines|
      invariant SkipBlank(lines, j) == SkipBlank(lines, i)
      decreases |lines| - j
    {
      j := j + 1;
    }
  }

  /** One step of the loop below: a non-blank line joins the reply. */
  method AppendLine(expected: string, trimmed: string) returns (e: string)
    ensures e == AddLine(expected, trimmed)
  {
    e := expected;
    if trimmed != "" {
      if e != "" {
        e := e + "\n";
      }
      e := e + trimmed;
    }
  }

  /** The loop that collects the expected reply (simulator_test.go:240-255). */
  method ReadExpected(lines: seq<string>, i: nat) returns (expected: string, j: nat)
    requires i <= |lines|
    ensures j == BodyEnd(lines, i)
    ensures expected == Body(lines, i, j)
  {
    expected := "";
    j := i;
    while j < |lines|
      invariant i <= j <= |lines|
      invariant BodyEnd(lines, j) == BodyEnd(lines, i)
      invariant expected == Body(lines, i, j)
      decreases |lines| - j
    {
      var nextLine := lines[j];
      if HasPrefix(nextLine, "> @") {
        break;
      }
      var trimmed := TrimSpace(nextLine);
      expected := AppendLine(expected, trimmed);
      j := j + 1;
    }
  }

  /** The header branch of the loop below (simulator_test.go:188-262). */
  method ReadBlock(lines: seq<string>, i: nat) returns (b: Block)
    requires i < |lines|
    ensures b == BlockAt(lines, i)
  {
    var line := TrimSpace(lines[i]);
    var header := ReadHeader(TrimPrefix(line, "> @"));
    if !header.Speaker? {
      return Malformed(line);
    }
    b := ReadAfterHeader(lines, i + 1, header.username, header.userID);
  }

  /** The command, the "> @bot" line and the expected reply
      (simulator_test.go:212-262). */
  method ReadAfterHeader(lines: seq<string>, i: nat, username: string, userID: int) returns (b: Block)
    requires i <= |lines|
    ensures b == BlockAfter(lines, i, username, userID)
  {
    var j := SkipBlankLines(lines, i);
    if j >= |lines| {
      return Truncated;
    }
    var command := TrimSpace(lines[j]);
    j := SkipBlankLines(lines, j + 1);
    if j >= |lines| {
      return Truncated;
    }
    var botLine := TrimSpace(lines[j]);
    if !HasPrefix(botLine, "> @bot") {
      return Truncated;
    }
    var expected;
    expected, j := ReadExpected(lines, j + 1);
    b := Found(Scenario(username, userID, command, expected), j);
  }

  /** `parseTestInput` (simulator_test.go:173-268). */
  method ParseTestInput(input: string) returns (r: Parsed)
    ensures r == Parse(input)
  {
    var lines := Split(input, '\n');
    r := ParseLines(lines);
  }

  /** The cursor loop of `parseTestInput` over the lines of the input. */
  method ParseLines(lines: seq<string>) returns (r: Parsed)
    ensures r == ParseFrom(lines, 0)
  {
    var scenarios: seq<Scenario> := [];
    var i := 0;
    while i < |lines|
      invariant 0 <= i <= |lines|
      invariant ParseFrom(lines, 0) == Glue(scenarios, ParseFrom(lines, i))
      decreases |lines| - i
    {
      var line := TrimSpace(lines[i]);

      if line == "" {
        i := i + 1;
        continue;
      }

      if HasPrefix(line, "> @") {
        var block := ReadBlock(lines, i);
        match block
        case Malformed(l) =>
          return Panicked(l);
        case Truncated =>
          assert scenarios + [] == scenarios;
          return Parsed(scenarios);
        case Found(scenario, next) =>
          GlueGlue(scenarios, [scenario], ParseFrom(lines, next));
          scenarios := scenarios + [scenario];
          i := next;
      } else {
        i := i + 1;
      }
    }

    assert scenarios + [] == scenarios;
    return Parsed(scenarios);
  }
}
