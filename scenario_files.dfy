/**
 * What the scenario-file parser of simulator_test.go guarantees about the
 * scenarios it returns, and how it reads the headers a scenario file writes.
 */
module ScenarioFiles {
  import opened Options
  import opened Text
  import opened Simulator

  /** How a header reads (simulator_test.go:193-210). */
  lemma HeaderCases(u: string)
    ensures ParseHeader(u).Speaker? && ParseHeader(u).userID == 0 <==> HasPrefix(u, "bot")
    ensures ParseHeader(u).Speaker? && ParseHeader(u).userID == 0 ==> ParseHeader(u).username == "bot"
    ensures ParseHeader(u).Speaker? ==>
      IsTrimmed(ParseHeader(u).username) && MinInt64 <= ParseHeader(u).userID <= MaxInt64
    ensures ParseHeader(u) == MissingID <==> !HasPrefix(u, "bot") && !Contains(u, IdMarker)
  {
  }

  /** What every parsed scenario satisfies: the bot, and only it, speaks with
      ID 0 under the name "bot"; IDs are int64; the command is a non-blank
      trimmed line; the expected reply has no white space at either end. */
  predicate WellFormed(s: Scenario) {
    && IsTrimmed(s.username)
    && (s.userID == 0 ==> s.username == "bot")
    && MinInt64 <= s.userID <= MaxInt64
    && s.command != [] && IsTrimmed(s.command)
    && IsTrimmed(s.expected)
  }

  lemma BlockWellFormed(lines: seq<string>, i: nat)
    requires i < |lines|
    ensures BlockAt(lines, i).Found? ==> WellFormed(BlockAt(lines, i).scenario)
  {
    var u := TrimPrefix(TrimSpace(lines[i]), "> @");
    var h := ParseHeader(u);
    HeaderCases(u);
    if h.Speaker? {
      assert BlockAt(lines, i) == BlockAfter(lines, i + 1, h.username, h.userID);
      BlockAfterWellFormed(lines, i + 1, h.username, h.userID);
    }
  }

  /** The command and the reply of a block, read after its header. */
  lemma BlockAfterWellFormed(lines: seq<string>, j: nat, username: string, userID: int)
    requires j <= |lines|
    ensures var b := BlockAfter(lines, j, username, userID);
      b.Found? ==>
        && b.scenario.username == username && b.scenario.userID == userID
        && b.scenario.command != [] && IsTrimmed(b.scenario.command)
        && IsTrimmed(b.scenario.expected)
  {
    if BlockAfter(lines, j, username, userID).Found? {
      var c := SkipBlank(lines, j);
      SkipBlankSkips(lines, j);
      var b := SkipBlank(lines, c + 1);
      BodyTrimmed(lines, b + 1, BodyEnd(lines, b + 1));
    }
  }

  /** Every scenario the parser returns is well formed. */
  lemma ParsedWellFormed(lines: seq<string>, i: nat)
    requires i <= |lines|
    ensures ParseFrom(lines, i).Parsed? ==>
      forall k :: 0 <= k < |ParseFrom(lines, i).scenarios| ==> WellFormed(ParseFrom(lines, i).scenarios[k])
  {
    ParsedAllWellFormed(lines, i);
    if ParseFrom(lines, i).Parsed? {
      AllWellFormedEach(ParseFrom(lines, i).scenarios);
    }
  }

  /** Every scenario of `ss` is well formed, stated one scenario at a time. */
  predicate AllWellFormed(ss: seq<Scenario>) {
    ss == [] || (WellFormed(ss[0]) && AllWellFormed(ss[1..]))
  }

  lemma {:induction false} AllWellFormedEach(ss: seq<Scenario>)
    requires AllWellFormed(ss)
    ensures forall k :: 0 <= k < |ss| ==> WellFormed(ss[k])
  {
    if ss != [] {
      AllWellFormedEach(ss[1..]);
      forall k | 1 <= k < |ss|
        ensures WellFormed(ss[k])
      {
        assert ss[k] == ss[1..][k - 1];
      }
    }
  }

  lemma {:induction false} ParsedAllWellFormed(lines: seq<string>, i: nat)
    requires i <= |lines|
    ensures ParseFrom(lines, i).Parsed? ==> AllWellFormed(ParseFrom(lines, i).scenarios)
    decreases |lines| - i
  {
    if i < |lines| {
      var line := TrimSpace(lines[i]);
      if line == "" || !HasPrefix(line, "> @") {
        ParsedAllWellFormed(lines, i + 1);
      } else if BlockAt(lines, i).Found? {
        var b := BlockAt(lines, i);
        BlockWellFormed(lines, i);
        ParsedAllWellFormed(lines, b.next);
        var r := ParseFrom(lines, b.next);
        if r.Parsed? {
          assert ([b.scenario] + r.scenarios)[1..] == r.scenarios;
        }
      }
    }
  }

  /** A line that, trimmed, starts with "> @": a header or a "> @bot" line. */
  predicate IsHeader(line: string) {
    HasPrefix(TrimSpace(line), "> @")
  }

  /** The number of header lines at or after `i`. */
  function Headers(lines: seq<string>, i: nat): nat
    requires i <= |lines|
    decreases |lines| - i
  {
    if i == |lines| then 0 else (if IsHeader(lines[i]) then 1 else 0) + Headers(lines, i + 1)
  }

  lemma {:induction false} HeadersMonotone(lines: seq<string>, i: nat, j: nat)
    requires i <= j <= |lines|
    ensures Headers(lines, j) <= Headers(lines, i)
    decreases j - i
  {
    if i < j {
      HeadersMonotone(lines, i + 1, j);
    }
  }

  lemma BotLineIsHeader(line: string)
    requires HasPrefix(line, "> @bot")
    ensures HasPrefix(line, "> @")
  {
    assert line[..3] == line[..6][..3];
  }

  /** A block holds two header lines: its own and its "> @bot" line. */
  lemma BlockSpansTwoHeaders(lines: seq<string>, i: nat)
    requires i < |lines| && IsHeader(lines[i]) && BlockAt(lines, i).Found?
    ensures Headers(lines, BlockAt(lines, i).next) + 2 <= Headers(lines, i)
  {
    var h := ParseHeader(TrimPrefix(TrimSpace(lines[i]), "> @"));
    assert BlockAt(lines, i) == BlockAfter(lines, i + 1, h.username, h.userID);
    BotLineAfterHeader(lines, i + 1, h.username, h.userID);
    assert Headers(lines, i) == 1 + Headers(lines, i + 1);
  }

  /** After the header, a block holds its "> @bot" line. */
  lemma BotLineAfterHeader(lines: seq<string>, j: nat, username: string, userID: int)
    requires j <= |lines| && BlockAfter(lines, j, username, userID).Found?
    ensures Headers(lines, BlockAfter(lines, j, username, userID).next) + 1 <= Headers(lines, j)
  {
    var c := SkipBlank(lines, j);
    var b := SkipBlank(lines, c + 1);
    var next := BlockAfter(lines, j, username, userID).next;
    assert next == BodyEnd(lines, b + 1);
    BotLineIsHeader(TrimSpace(lines[b]));
    assert Headers(lines, b) == 1 + Headers(lines, b + 1);
    HeadersMonotone(lines, j, b);
    HeadersMonotone(lines, b + 1, next);
  }

  /** The parser never returns more scenarios than half the header lines. */
  lemma {:induction false} ScenarioCount(lines: seq<string>, i: nat)
    requires i <= |lines|
    ensures ParseFrom(lines, i).Parsed? ==> 2 * |ParseFrom(lines, i).scenarios| <= Headers(lines, i)
    decreases |lines| - i
  {
    if i < |lines| {
      var line := TrimSpace(lines[i]);
      if line == "" || !HasPrefix(line, "> @") {
        ScenarioCount(lines, i + 1);
      } else if BlockAt(lines, i).Found? {
        BlockSpansTwoHeaders(lines, i);
        ScenarioCount(lines, BlockAt(lines, i).next);
      }
    }
  }

  /** Lines before the first header make no difference. */
  lemma SkipsPreamble(lines: seq<string>, i: nat, n: nat)
    requires i <= n <= |lines|
    requires forall k :: i <= k < n ==> !IsHeader(lines[k])
    ensures ParseFrom(lines, i) == ParseFrom(lines, n)
  {
    NoHeadersOf(lines, i, n);
    SkipsNoHeaders(lines, i, n);
  }

  /** No line of lines[i..n] is a header, stated one line at a time. */
  predicate NoHeaders(lines: seq<string>, i: nat, n: nat)
    requires i <= n <= |lines|
    decreases n - i
  {
    i == n || (!IsHeader(lines[i]) && NoHeaders(lines, i + 1, n))
  }

  lemma {:induction false} NoHeadersOf(lines: seq<string>, i: nat, n: nat)
    requires i <= n <= |lines|
    requires forall k :: i <= k < n ==> !IsHeader(lines[k])
    ensures NoHeaders(lines, i, n)
    decreases n - i
  {
    if i < n {
      NoHeadersOf(lines, i + 1, n);
    }
  }

  lemma {:induction false} SkipsNoHeaders(lines: seq<string>, i: nat, n: nat)
    requires i <= n <= |lines| && NoHeaders(lines, i, n)
    ensures ParseFrom(lines, i) == ParseFrom(lines, n)
    decreases n - i
  {
    if i < n {
      SkipsLine(lines, i);
      SkipsNoHeaders(lines, i + 1, n);
    }
  }

  /** A line that is not a header is passed over. */
  lemma SkipsLine(lines: seq<string>, i: nat)
    requires i < |lines| && !IsHeader(lines[i])
    ensures ParseFrom(lines, i) == ParseFrom(lines, i + 1)
  {
  }

  /** The header line a scenario file gives a user: "> @name (id=N)". */
  function HeaderLine(name: string, id: int): string {
    "> @" + name + " (id=" + FormatInt(id) + ")"
  }

  /** A name the header format can carry: trimmed, not read as the bot's,
      and free of the ID marker. */
  predicate Nameable(name: string) {
    IsTrimmed(name) && !HasPrefix(name, "bot") && !Contains(name, IdMarker)
  }

  /** Reading a header line gives back the name and the ID it was written
      with (simulator_test.go:182-203). */
  lemma HeaderRoundTrip(name: string, id: int)
    requires Nameable(name) && id != 0 && MinInt64 <= id <= MaxInt64
    ensures ParseHeader(TrimPrefix(TrimSpace(HeaderLine(name, id)), "> @")) == Speaker(name, id)
  {
    HeaderLineAfterPrompt(name, id);
    UserPartReads(name, id);
  }

  /** "name (id=N)" reads as the user `name` with ID N. */
  lemma UserPartReads(name: string, id: int)
    requires Nameable(name) && id != 0 && MinInt64 <= id <= MaxInt64
    ensures ParseHeader(name + " (id=" + FormatInt(id) + ")") == Speaker(name, id)
  {
    var f := FormatInt(id) + ")";
    var u := name + " (id=" + f;
    assert u == name + " (id=" + FormatInt(id) + ")";
    assert !HasPrefix(u, "bot") by {
      NotReadAsBot(name, u);
    }
    assert Contains(u, IdMarker) && TrimSpace(NamePart(u)) == name && IdPart(u) == f by {
      assert '(' !in f by {
        assert forall k :: 0 <= k < |f| ==> f[k] == ')' || IsDigit(f[k]) || f[k] == '-';
      }
      SplitAtMarker(name, f);
      TrimSpaceOfPadded(name);
    }
    assert ScanInt(TrimSuffix(f, ")")) == Some(id) by {
      assert TrimSuffix(f, ")") == FormatInt(id);
      ScanFormat(id);
    }
  }

  /** What follows "> @" on a trimmed header line. */
  lemma HeaderLineAfterPrompt(name: string, id: int)
    ensures TrimSpace(HeaderLine(name, id)) == HeaderLine(name, id)
    ensures HasPrefix(HeaderLine(name, id), "> @")
    ensures TrimPrefix(TrimSpace(HeaderLine(name, id)), "> @") == name + " (id=" + FormatInt(id) + ")"
  {
    var u := name + " (id=" + FormatInt(id) + ")";
    var line := HeaderLine(name, id);
    assert line == "> @" + u;
    HeaderLineTrimmed(line);
    TrimPrefixOfConcat("> @", u);
  }

  lemma HeaderLineTrimmed(line: string)
    requires |line| > 0 && line[0] == '>' && line[|line| - 1] == ')'
    ensures TrimSpace(line) == line
  {
    TrimSpaceOfTrimmed(line);
  }

  /** `strings.Split(u, "(id=")` on "name (id=f" gives "name " and f. */
  lemma SplitAtMarker(name: string, f: string)
    requires !Contains(name, IdMarker) && '(' !in f
    ensures Contains(name + " (id=" + f, IdMarker)
    ensures NamePart(name + " (id=" + f) == name + " "
    ensures IdPart(name + " (id=" + f) == f
  {
    var u := name + " (id=" + f;
    FirstMarker(name, f);
    assert u[..|name| + 1] == name + " ";
    assert u[|name| + 1 + |IdMarker|..] == f;
    NoMarkerWithout(f);
  }

  lemma NotReadAsBot(name: string, u: string)
    requires !HasPrefix(name, "bot") && |name| < |u| && u[..|name|] == name && u[|name|] == ' '
    ensures !HasPrefix(u, "bot")
  {
    if |name| >= 3 {
      assert u[..3] == name[..3];
    } else if |u| >= 3 {
      assert u[..3][|name|] == ' ';
    }
  }

  /** The ID marker first occurs right after the name and its space: none
      lies within the name, and none can reach into the space, which the
      marker does not contain. */
  lemma FirstMarker(name: string, f: string)
    requires !Contains(name, IdMarker)
    ensures Index(name + " (id=" + f, IdMarker) == |name| + 1
  {
    var u := name + " (id=" + f;
    assert u[|name| + 1..|name| + 5] == IdMarker;
    forall k | 0 <= k <= |name|
      ensures !OccursAt(u, IdMarker, k)
    {
      if k + 4 <= |name| {
        assert u[k..k + 4] == name[k..k + 4];
        assert !OccursAt(name, IdMarker, k);
      } else {
        assert u[k..k + 4][|name| - k] == u[|name|] == ' ';
      }
    }
    assert IndexFrom(u, IdMarker, 0) == |name| + 1 by {
      IndexFromSkips(u, IdMarker, 0, |name| + 1);
    }
  }

  lemma {:induction false} IndexFromSkips(s: string, sep: string, i: nat, n: nat)
    requires i <= n && OccursAt(s, sep, n)
    requires forall k :: i <= k < n ==> !OccursAt(s, sep, k)
    ensures IndexFrom(s, sep, i) == n
    decreases n - i
  {
    if i < n {
      IndexFromSkips(s, sep, i + 1, n);
    }
  }

  lemma NoMarkerWithout(s: string)
    requires '(' !in s
    ensures Index(s, IdMarker) == -1
  {
    forall k | 0 <= k && k + 4 <= |s|
      ensures !OccursAt(s, IdMarker, k)
    {
      assert s[k..k + 4][0] == s[k];
    }
  }

  /** A scenario that a scenario file can hold: each field fits on its line,
      the command is not blank, and the reply is one line that does not look
      like a header. */
  predicate Writable(s: Scenario) {
    && Nameable(s.username) && '\n' !in s.username
    && s.userID != 0 && MinInt64 <= s.userID <= MaxInt64
    && s.command != [] && IsTrimmed(s.command) && '\n' !in s.command
    && IsTrimmed(s.expected) && '\n' !in s.expected && !HasPrefix(s.expected, "> @")
  }

  /** The four lines a scenario file gives a scenario. */
  function ScenarioLines(s: Scenario): seq<string> {
    [HeaderLine(s.username, s.userID), s.command, "> @bot", s.expected]
  }

  /** The lines of a scenario file holding `ss`, one block after another. */
  function FileLines(ss: seq<Scenario>): seq<string> {
    if ss == [] then [] else ScenarioLines(ss[0]) + FileLines(ss[1..])
  }

  /** The text of a scenario file holding `ss`. */
  function ScenarioFile(ss: seq<Scenario>): string {
    if ss == [] then "" else Join(FileLines(ss), '\n')
  }

  /** The parser reads a written scenario file back as the scenarios written
      to it (simulator_test.go:173-268). */
  lemma ParseScenarioFile(ss: seq<Scenario>)
    requires forall k :: 0 <= k < |ss| ==> Writable(ss[k])
    ensures Parse(ScenarioFile(ss)) == Parsed(ss)
  {
    if ss == [] {
      assert Split("", '\n') == [""];
      assert TrimSpace("") == "";
    } else {
      AllWritableOf(ss);
      FileLinesWritable(ss);
      SplitJoin(FileLines(ss), '\n');
      ParseFileLines(FileLines(ss), 0, ss);
    }
  }

  /** No line of a written file holds a newline. */
  lemma {:induction false} FileLinesWritable(ss: seq<Scenario>)
    requires AllWritable(ss)
    ensures |FileLines(ss)| == 4 * |ss|
    ensures forall k :: 0 <= k < |FileLines(ss)| ==> '\n' !in FileLines(ss)[k]
  {
    if ss != [] {
      FileLinesWritable(ss[1..]);
      HeaderLineHasNoNewline(ss[0].username, ss[0].userID);
    }
  }

  lemma HeaderLineHasNoNewline(name: string, id: int)
    requires '\n' !in name
    ensures '\n' !in HeaderLine(name, id)
  {
    var f := FormatInt(id);
    assert forall k :: 0 <= k < |f| ==> IsDigit(f[k]) || f[k] == '-';
  }

  /** lines[i..] is a run of complete blocks, one per scenario of `ss`. */
  predicate Blocks(lines: seq<string>, i: nat, ss: seq<Scenario>)
    requires i <= |lines|
    decreases ss
  {
    if ss == [] then i == |lines|
    else
      && i + 4 <= |lines| && HasPrefix(TrimSpace(lines[i]), "> @")
      && BlockAt(lines, i) == Found(ss[0], i + 4)
      && Blocks(lines, i + 4, ss[1..])
  }

  /** Parsing from a cursor at which a written file's lines start. */
  lemma ParseFileLines(lines: seq<string>, i: nat, ss: seq<Scenario>)
    requires i <= |lines| && lines[i..] == FileLines(ss)
    requires forall k :: 0 <= k < |ss| ==> Writable(ss[k])
    ensures ParseFrom(lines, i) == Parsed(ss)
  {
    AllWritableOf(ss);
    FileLinesAreBlocks(lines, i, ss);
    ParseBlocks(lines, i, ss);
  }

  /** Parsing a run of complete blocks gives their scenarios. */
  lemma {:induction false} ParseBlocks(lines: seq<string>, i: nat, ss: seq<Scenario>)
    requires i <= |lines| && Blocks(lines, i, ss)
    ensures ParseFrom(lines, i) == Parsed(ss)
    decreases ss
  {
    if ss != [] {
      ParseBlocks(lines, i + 4, ss[1..]);
      ParseBlockStep(lines, i, ss[0], i + 4, ss[1..]);
      assert [ss[0]] + ss[1..] == ss;
    }
  }

  /** A written file's lines are a run of complete blocks. */
  lemma {:induction false} FileLinesAreBlocks(lines: seq<string>, i: nat, ss: seq<Scenario>)
    requires i <= |lines| && lines[i..] == FileLines(ss)
    requires AllWritable(ss)
    ensures Blocks(lines, i, ss)
    decreases ss
  {
    if ss != [] {
      var s := ss[0];
      assert i + 4 <= |lines| && lines[i + 4..] == FileLines(ss[1..])
          && HasPrefix(TrimSpace(lines[i]), "> @") && BlockAt(lines, i) == Found(s, i + 4) by {
        LinesOfBlock(lines, i, s, FileLines(ss[1..]));
        NextBlockStarts(lines, i + 4, ss[1..]);
        BlockOfScenario(lines, i, s);
        HeaderLineAfterPrompt(s.username, s.userID);
      }
      FileLinesAreBlocks(lines, i + 4, ss[1..]);
    } else {
      assert i == |lines|;
    }
  }

  /** Every scenario of `ss` is writable, stated one scenario at a time. */
  predicate AllWritable(ss: seq<Scenario>) {
    ss == [] || (Writable(ss[0]) && AllWritable(ss[1..]))
  }

  lemma {:induction false} AllWritableOf(ss: seq<Scenario>)
    requires forall k :: 0 <= k < |ss| ==> Writable(ss[k])
    ensures AllWritable(ss)
  {
    if ss != [] {
      assert Writable(ss[0]);
      forall k | 0 <= k < |ss| - 1
        ensures Writable(ss[1..][k])
      {
        assert ss[1..][k] == ss[k + 1];
      }
      AllWritableOf(ss[1..]);
    }
  }

  /** A written file's lines start with a header, unless there are none. */
  lemma NextBlockStarts(lines: seq<string>, i: nat, ss: seq<Scenario>)
    requires i <= |lines| && lines[i..] == FileLines(ss)
    ensures i == |lines| || HasPrefix(lines[i], "> @")
  {
    if i < |lines| {
      assert lines[i] == lines[i..][0];
      assert ss != [];
      assert lines[i] == HeaderLine(ss[0].username, ss[0].userID);
      HeaderLineAfterPrompt(ss[0].username, ss[0].userID);
    }
  }

  /** A header line that starts a complete block yields its scenario, and
      parsing goes on after the block. */
  lemma ParseBlockStep(lines: seq<string>, i: nat, s: Scenario, next: nat, rest: seq<Scenario>)
    requires i < |lines| && HasPrefix(TrimSpace(lines[i]), "> @")
    requires BlockAt(lines, i) == Found(s, next) && ParseFrom(lines, next) == Parsed(rest)
    ensures ParseFrom(lines, i) == Parsed([s] + rest)
  {
  }

  /** The lines of a block at the head of lines[i..]. */
  lemma LinesOfBlock(lines: seq<string>, i: nat, s: Scenario, rest: seq<string>)
    requires i <= |lines| && lines[i..] == ScenarioLines(s) + rest
    ensures i + 4 <= |lines| && lines[i + 4..] == rest
    ensures lines[i] == HeaderLine(s.username, s.userID) && lines[i + 1] == s.command
    ensures lines[i + 2] == "> @bot" && lines[i + 3] == s.expected
  {
    var tail := lines[i..];
    assert lines[i + 4..] == tail[4..];
    assert lines[i] == tail[0] && lines[i + 1] == tail[1];
    assert lines[i + 2] == tail[2] && lines[i + 3] == tail[3];
  }

  /** A written scenario's four lines, followed by the end or a header, make
      one block. */
  lemma BlockOfScenario(lines: seq<string>, i: nat, s: Scenario)
    requires i + 4 <= |lines| && Writable(s)
    requires lines[i] == HeaderLine(s.username, s.userID) && lines[i + 1] == s.command
    requires lines[i + 2] == "> @bot" && lines[i + 3] == s.expected
    requires i + 4 == |lines| || HasPrefix(lines[i + 4], "> @")
    ensures BlockAt(lines, i) == Found(s, i + 4)
  {
    HeaderLineAfterPrompt(s.username, s.userID);
    HeaderRoundTrip(s.username, s.userID);
    assert BlockAt(lines, i) == BlockAfter(lines, i + 1, s.username, s.userID);
    ReplyAfterBotLine(lines, i + 1, s);
  }

  /** After the header: the command, the "> @bot" line and the reply. */
  lemma ReplyAfterBotLine(lines: seq<string>, j: nat, s: Scenario)
    requires j + 3 <= |lines| && Writable(s)
    requires lines[j] == s.command && lines[j + 1] == "> @bot" && lines[j + 2] == s.expected
    requires j + 3 == |lines| || HasPrefix(lines[j + 3], "> @")
    ensures BlockAfter(lines, j, s.username, s.userID) == Found(s, j + 3)
  {
    CommandThenBotLine(lines, j, s.command);
    ReplyLine(lines, j + 2, s.expected);
  }

  /** A command line right after the header, and the "> @bot" line right
      after it, are read without skipping. */
  lemma CommandThenBotLine(lines: seq<string>, j: nat, command: string)
    requires j + 2 <= |lines| && command != [] && IsTrimmed(command)
    requires lines[j] == command && lines[j + 1] == "> @bot"
    ensures SkipBlank(lines, j) == j && TrimSpace(lines[j]) == command
    ensures SkipBlank(lines, j + 1) == j + 1 && HasPrefix(TrimSpace(lines[j + 1]), "> @bot")
  {
    TrimSpaceOfTrimmed(command);
    TrimSpaceOfTrimmed("> @bot");
  }

  /** A one-line reply that does not look like a header, followed by the
      end or by a header, is the whole body. */
  lemma ReplyLine(lines: seq<string>, j: nat, reply: string)
    requires j < |lines| && lines[j] == reply && IsTrimmed(reply) && !HasPrefix(reply, "> @")
    requires j + 1 == |lines| || HasPrefix(lines[j + 1], "> @")
    ensures BodyEnd(lines, j) == j + 1 && Body(lines, j, j + 1) == reply
  {
    assert BodyEnd(lines, j + 1) == j + 1;
    TrimSpaceOfTrimmed(reply);
  }
}
