/**
 * The interactive mode of the MCP client: each input line is split with a
 * stringstream into a command word, for "tool" a tool name, and the rest of
 * the line as JSON arguments; a tool call is routed through the registry.
 *
 * nlohmann's json::parse is the parameter `parsesAsJson` (false when it
 * throws). The input is the finite sequence of lines getline delivers.
 */
module ClientInteractive {
  import opened Text
  import opened ClientRegistry

  /** What one input line asks for. */
  datatype Command =
    | Blank                                 // an empty line: prompt again
    | Quit                                  // "exit" or "quit"
    | ListTools                             // "tools"
    | ListServers                           // "servers"
    | MissingToolName                       // "tool" with no name after it
    | BadJson(tool: string, text: string)   // the arguments are not JSON: no call
    | CallTool(tool: string, args: Args)
    | Help
    | Unknown(word: string)

  /** A word extracted from a line: the characters at indices start .. end - 1. */
  datatype Token = Token(start: nat, end: nat)

  function SkipSpaces(s: string, i: nat): (j: nat)
    requires i <= |s|
    decreases |s| - i
    ensures i <= j <= |s| && (j == |s| || !IsSpace(s[j]))
    ensures forall k :: i <= k < j ==> IsSpace(s[k])
  {
    if i == |s| || !IsSpace(s[i]) then i else SkipSpaces(s, i + 1)
  }

  function SkipWord(s: string, i: nat): (j: nat)
    requires i <= |s|
    decreases |s| - i
    ensures i <= j <= |s| && (j == |s| || IsSpace(s[j]))
    ensures forall k :: i <= k < j ==> !IsSpace(s[k])
  {
    if i == |s| || IsSpace(s[i]) then i else SkipWord(s, i + 1)
  }

  /** The word from index `start` to `end` is what `>>` reads into a string from position `i`. */
  predicate IsNextWord(s: string, i: nat, t: Token) {
    && i <= t.start <= t.end <= |s|
    && (forall k :: i <= k < t.start ==> IsSpace(s[k]))
    && (forall k :: t.start <= k < t.end ==> !IsSpace(s[k]))
    && (t.end == |s| || IsSpace(s[t.end]))
    && (t.start == t.end ==> t.end == |s|)
  }

  /**
   * `>>` into a std::string from position `i`: leading whitespace is
   * skipped, then characters are taken up to the next whitespace. An empty
   * word means only whitespace was left, and the target string stays empty.
   */
  function NextWord(s: string, i: nat): (t: Token)
    requires i <= |s|
    ensures IsNextWord(s, i, t)
  {
    var start := SkipSpaces(s, i);
    Token(start, SkipWord(s, start))
  }

  /** Only one token fits the description, so it is the one NextWord reads. */
  lemma NextWordUnique(s: string, i: nat, t: Token)
    requires i <= |s| && IsNextWord(s, i, t)
    ensures NextWord(s, i) == t
  {
    var w := NextWord(s, i);
    assert t.start < t.end ==> !IsSpace(s[t.start]);
    assert w.start < w.end ==> !IsSpace(s[w.start]);
    if w.start < t.start {
      assert false;
    } else if t.start < w.start {
      assert false;
    }
    if w.end < t.end {
      assert false;
    } else if t.end < w.end {
      assert false;
    }
  }

  function Word(s: string, t: Token): string
    requires t.start <= t.end <= |s|
  {
    s[t.start..t.end]
  }

  /** Where getline on the stringstream stops: the first '\n' at or after `i`, or the end. */
  function LineEnd(s: string, i: nat): (j: nat)
    requires i <= |s|
    decreases |s| - i
    ensures i <= j <= |s| && (j == |s| || s[j] == '\n')
    ensures forall k :: i <= k < j ==> s[k] != '\n'
  {
    if i == |s| || s[i] == '\n' then i else LineEnd(s, i + 1)
  }

  /** `s.erase(0, s.find_first_not_of(" \t\n\r"))`, which empties an all-blank string. */
  function TrimLeading(s: string): (r: string)
    ensures |r| <= |s|
    ensures r == [] <==> forall k :: 0 <= k < |s| ==> IsTrimSpace(s[k])
    ensures r != [] ==> !IsTrimSpace(r[0]) && r == s[|s| - |r|..]
  {
    match FirstNotTrimSpace(s, 0)
    case None => []
    case Some(i) => s[i..]
  }

  predicate IsKeyword(w: string) {
    w in ["exit", "quit", "tools", "servers", "tool", "help"]
  }

  /** The line parsing of run_interactive_mode. */
  function ParseLine(line: string, parsesAsJson: string -> bool): (c: Command)
    ensures c == Blank <==> line == []
    ensures c.CallTool? || c.BadJson? ==> c.tool != [] && forall k :: 0 <= k < |c.tool| ==> !IsSpace(c.tool[k])
    ensures c.CallTool? && c.args.Json? ==>
              c.args.text != [] && !IsTrimSpace(c.args.text[0]) && parsesAsJson(c.args.text)
    ensures c.BadJson? ==> c.text != [] && !IsTrimSpace(c.text[0]) && !parsesAsJson(c.text)
    ensures c.Unknown? ==> !IsKeyword(c.word) && forall k :: 0 <= k < |c.word| ==> !IsSpace(c.word[k])
  {
    if line == [] then Blank
    else
      var w := NextWord(line, 0);
      var command := Word(line, w);
      if command == "exit" || command == "quit" then Quit
      else if command == "tools" then ListTools
      else if command == "servers" then ListServers
      else if command == "tool" then ParseToolCall(line, w.end, parsesAsJson)
      else if command == "help" then Help
      else Unknown(command)
  }

  /**
   * The rest of a "tool" line from index `i`: the tool name, then what
   * getline leaves of the line, less its leading blanks, as the arguments.
   */
  function ParseToolCall(line: string, i: nat, parsesAsJson: string -> bool): (c: Command)
    requires i <= |line|
    ensures c.CallTool? || c.BadJson? || c == MissingToolName
    ensures c.CallTool? || c.BadJson? ==> c.tool != [] && forall k :: 0 <= k < |c.tool| ==> !IsSpace(c.tool[k])
    ensures c.CallTool? && c.args.Json? ==>
              c.args.text != [] && !IsTrimSpace(c.args.text[0]) && parsesAsJson(c.args.text)
    ensures c.BadJson? ==> c.text != [] && !IsTrimSpace(c.text[0]) && !parsesAsJson(c.text)
  {
    var n := NextWord(line, i);
    var name := Word(line, n);
    if name == [] then MissingToolName
    else
      var args := TrimLeading(line[n.end..LineEnd(line, n.end)]);
      if args == [] then CallTool(name, EmptyObject)
      else if parsesAsJson(args) then CallTool(name, Json(args))
      else BadJson(name, args)
  }

  predicate AllSpace(s: string) {
    forall k :: 0 <= k < |s| ==> IsSpace(s[k])
  }

  predicate AllTrimSpace(s: string) {
    forall k :: 0 <= k < |s| ==> IsTrimSpace(s[k])
  }

  predicate IsName(s: string) {
    s != [] && forall k :: 0 <= k < |s| ==> !IsSpace(s[k])
  }

  /** A line that is not empty but holds only whitespace has an empty command word, which is unknown. */
  lemma BlankWordUnknown(line: string, parsesAsJson: string -> bool)
    requires line != [] && AllSpace(line)
    ensures ParseLine(line, parsesAsJson) == Unknown([])
  {
    NextWordUnique(line, 0, Token(|line|, |line|));
  }

  /** "exit" or "quit", alone or followed by whitespace and anything else, ends the loop. */
  lemma QuitWords(pad: string, word: string, rest: string, parsesAsJson: string -> bool)
    requires AllSpace(pad) && (word == "exit" || word == "quit")
    requires rest == [] || IsSpace(rest[0])
    ensures ParseLine(pad + word + rest, parsesAsJson) == Quit
  {
    var line := pad + word + rest;
    NextWordUnique(line, 0, Token(|pad|, |pad| + 4));
    assert Word(line, Token(|pad|, |pad| + 4)) == word;
  }

  /** A line whose first word is "tool" is parsed by ParseToolCall from the end of that word. */
  lemma ToolWord(pad: string, rest: string, parsesAsJson: string -> bool)
    requires AllSpace(pad) && (rest == [] || IsSpace(rest[0]))
    ensures ParseLine(pad + "tool" + rest, parsesAsJson) == ParseToolCall(pad + "tool" + rest, |pad| + 4, parsesAsJson)
  {
    var line := pad + "tool" + rest;
    var t := Token(|pad|, |pad| + 4);
    assert Word(line, t) == "tool";
    NextWordUnique(line, 0, t);
    ToolCommand(line, t, parsesAsJson);
  }

  lemma ToolCommand(line: string, t: Token, parsesAsJson: string -> bool)
    requires line != [] && NextWord(line, 0) == t && Word(line, t) == "tool"
    ensures ParseLine(line, parsesAsJson) == ParseToolCall(line, t.end, parsesAsJson)
  {
  }

  /** ParseToolCall once the tool name and the arguments text are known. */
  lemma ParseToolCallOf(line: string, i: nat, t: Token, e: nat, args: string, parsesAsJson: string -> bool)
    requires i <= |line| && NextWord(line, i) == t && Word(line, t) != []
    requires LineEnd(line, t.end) == e && TrimLeading(line[t.end..e]) == args
    ensures ParseToolCall(line, i, parsesAsJson)
            == if args == [] then CallTool(Word(line, t), EmptyObject)
               else if parsesAsJson(args) then CallTool(Word(line, t), Json(args))
               else BadJson(Word(line, t), args)
  {
  }

  /** From index `i`, past blanks, the next word is the tool name; `rest` is left after it. */
  lemma ToolNameAt(line: string, i: nat, gap: string, name: string, rest: string)
    requires i <= |line| && line[i..] == gap + name + rest
    requires AllSpace(gap) && IsName(name) && (rest == [] || IsSpace(rest[0]))
    ensures var c := i + |gap| + |name|;
            && c <= |line| && line[c..] == rest
            && NextWord(line, i) == Token(i + |gap|, c)
            && Word(line, Token(i + |gap|, c)) == name
  {
    var c := i + |gap| + |name|;
    var s := gap + name + rest;
    assert forall k :: i <= k < |line| ==> line[k] == s[k - i];
    assert line[c..] == rest;
    assert s[|gap|..|gap| + |name|] == name;
    assert line[i + |gap|..c] == line[i..][|gap|..|gap| + |name|];
    NextWordUnique(line, i, Token(i + |gap|, c));
  }

  /** Blanks without a newline, then text without one: getline keeps it all and the blanks are trimmed. */
  lemma ArgumentsText(line: string, c: nat, gap: string, json: string)
    requires c <= |line| && line[c..] == gap + json
    requires gap != [] && AllTrimSpace(gap) && '\n' !in gap
    requires json != [] && !IsTrimSpace(json[0]) && '\n' !in json
    ensures LineEnd(line, c) == |line|
    ensures TrimLeading(line[c..LineEnd(line, c)]) == json
  {
    NoNewline(gap, json);
    LineEndFrom(line, c);
    assert line[c..|line|] == gap + json;
    GapTrimmed(gap, json);
  }

  lemma NoNewline(gap: string, json: string)
    requires '\n' !in gap && '\n' !in json
    ensures LineEnd(gap + json, 0) == |gap + json|
  {
    var s := gap + json;
    forall k | 0 <= k < |s|
      ensures s[k] != '\n'
    {
      if k < |gap| {
        assert s[k] == gap[k] && gap[k] in gap;
      } else {
        assert s[k] == json[k - |gap|] && json[k - |gap|] in json;
      }
    }
  }

  lemma GapTrimmed(gap: string, json: string)
    requires AllTrimSpace(gap) && json != [] && !IsTrimSpace(json[0])
    ensures TrimLeading(gap + json) == json
  {
    var s := gap + json;
    assert s[|gap|] == json[0];
    assert forall k :: 0 <= k < |gap| ==> s[k] == gap[k];
    assert FirstNotTrimSpace(s, 0) == Some(|gap|);
    assert s[|gap|..] == json;
  }

  /** Arguments made only of blanks are trimmed away, whatever getline keeps of them. */
  lemma BlankArguments(line: string, c: nat, gap: string)
    requires c <= |line| && line[c..] == gap && AllTrimSpace(gap)
    ensures TrimLeading(line[c..LineEnd(line, c)]) == []
  {
    var e := LineEnd(line, c);
    assert forall k :: 0 <= k < e - c ==> line[c..e][k] == gap[k];
  }

  /**
   * Printing a call as "tool NAME ARGS", with any leading whitespace and
   * any blank gap before the arguments, parses back to that call.
   */
  lemma ToolLineRoundTrip(pad: string, gap1: string, name: string, gap2: string, json: string,
                          parsesAsJson: string -> bool)
    requires AllSpace(pad) && gap1 != [] && AllSpace(gap1) && IsName(name)
    requires gap2 != [] && AllTrimSpace(gap2) && '\n' !in gap2
    requires json != [] && !IsTrimSpace(json[0]) && '\n' !in json && parsesAsJson(json)
    ensures ParseLine(pad + "tool" + (gap1 + name + (gap2 + json)), parsesAsJson) == CallTool(name, Json(json))
  {
    ToolLineParts(pad, gap1, name, gap2, json, parsesAsJson);
  }

  /** Invalid JSON after the tool name is an error, and no call is made. */
  lemma InvalidJsonNotCalled(pad: string, gap1: string, name: string, gap2: string, text: string,
                             parsesAsJson: string -> bool)
    requires AllSpace(pad) && gap1 != [] && AllSpace(gap1) && IsName(name)
    requires gap2 != [] && AllTrimSpace(gap2) && '\n' !in gap2
    requires text != [] && !IsTrimSpace(text[0]) && '\n' !in text && !parsesAsJson(text)
    ensures ParseLine(pad + "tool" + (gap1 + name + (gap2 + text)), parsesAsJson) == BadJson(name, text)
  {
    ToolLineParts(pad, gap1, name, gap2, text, parsesAsJson);
  }

  /** A "tool NAME ARGS" line is parsed into NAME and the text ARGS, whatever json::parse makes of it. */
  lemma ToolLineParts(pad: string, gap1: string, name: string, gap2: string, json: string, parsesAsJson: string -> bool)
    requires AllSpace(pad) && gap1 != [] && AllSpace(gap1) && IsName(name)
    requires gap2 != [] && AllTrimSpace(gap2) && '\n' !in gap2
    requires json != [] && !IsTrimSpace(json[0]) && '\n' !in json
    ensures ParseLine(pad + "tool" + (gap1 + name + (gap2 + json)), parsesAsJson)
            == if parsesAsJson(json) then CallTool(name, Json(json)) else BadJson(name, json)
  {
    var tail := gap1 + name + (gap2 + json);
    var line := pad + "tool" + tail;
    var a := |pad| + 4;
    ToolWord(pad, tail, parsesAsJson);
    assert line[a..] == tail;
    ToolNameAt(line, a, gap1, name, gap2 + json);
    var t := Token(a + |gap1|, a + |gap1| + |name|);
    ArgumentsText(line, t.end, gap2, json);
    ParseToolCallOf(line, a, t, |line|, json, parsesAsJson);
  }

  /** LineEnd from `i` is LineEnd of the suffix from 0, shifted by `i`. */
  lemma {:induction false} LineEndFrom(s: string, i: nat)
    requires i <= |s|
    decreases |s| - i
    ensures LineEnd(s, i) == i + LineEnd(s[i..], 0)
  {
    if i < |s| && s[i] != '\n' {
      LineEndFrom(s, i + 1);
      assert s[i..][1..] == s[i + 1..];
    }
  }

  /** "tool NAME" followed by nothing but blanks calls the tool with the empty object. */
  lemma ToolWithoutArguments(gap1: string, name: string, gap2: string, parsesAsJson: string -> bool)
    requires gap1 != [] && AllSpace(gap1) && IsName(name) && AllTrimSpace(gap2)
    ensures ParseLine("tool" + (gap1 + name + gap2), parsesAsJson) == CallTool(name, EmptyObject)
  {
    var tail := gap1 + name + gap2;
    var line := [] + "tool" + tail;
    assert line == "tool" + tail;
    if gap2 != [] {
      assert IsSpace(gap2[0]);
    }
    ToolWord([], tail, parsesAsJson);
    assert line[4..] == tail;
    ToolNameAt(line, 4, gap1, name, gap2);
    var t := Token(4 + |gap1|, 4 + |gap1| + |name|);
    BlankArguments(line, t.end, gap2);
    ParseToolCallOf(line, 4, t, LineEnd(line, t.end), [], parsesAsJson);
  }

  /** "tool" with only whitespace after it is an error, and no call is made. */
  lemma ToolNameRequired(gap: string, parsesAsJson: string -> bool)
    requires AllSpace(gap)
    ensures ParseLine("tool" + gap, parsesAsJson) == MissingToolName
  {
    var line := "tool" + gap;
    ToolWord([], gap, parsesAsJson);
    assert [] + "tool" + gap == line;
    NextWordUnique(line, 4, Token(|line|, |line|));
  }

  /** What the loop did with one line it handled. */
  datatype Step = Step(command: Command, outcome: Option<ToolOutcome>)

  /** The step for one line: its command and, for a tool call only, what execute_tool reports. */
  function Handle(line: string, parsesAsJson: string -> bool, connected: seq<Connection>, m: map<string, string>,
                  call: (Connection, string, Args) -> CallReply): (s: Step)
    ensures s.command == ParseLine(line, parsesAsJson)
    ensures s.outcome.Some? <==> s.command.CallTool?
    ensures s.command.CallTool? ==> s.outcome.value == Routed(connected, m, s.command.tool, s.command.args, call)
  {
    var c := ParseLine(line, parsesAsJson);
    Step(c, if c.CallTool? then Some(Routed(connected, m, c.tool, c.args, call)) else None)
  }

  /** One pass of the loop body: parse the line and, for a tool call, run execute_tool. */
  method HandleLine(reg: Registry, line: string, parsesAsJson: string -> bool,
                    call: (Connection, string, Args) -> CallReply) returns (step: Step)
    ensures step == Handle(line, parsesAsJson, reg.connected, reg.toolToServer, call)
  {
    var command := ParseLine(line, parsesAsJson);
    var outcome := None;
    if command.CallTool? {
      var o := reg.ExecuteTool(command.tool, command.args, call);
      outcome := Some(o);
    }
    return Step(command, outcome);
  }

  /**
   * The interactive loop over the input lines. Lines are handled in order
   * until one parses to Quit; the run also ends when the input does. Only
   * a CallTool line reaches execute_tool, which routes it through the
   * registry; no line changes the registry.
   */
  method RunInteractive(reg: Registry, lines: seq<string>, parsesAsJson: string -> bool,
                        call: (Connection, string, Args) -> CallReply) returns (steps: seq<Step>)
    ensures |steps| <= |lines|
    ensures forall k :: 0 <= k < |steps| ==>
              steps[k] == Handle(lines[k], parsesAsJson, reg.connected, reg.toolToServer, call)
              && !steps[k].command.Quit?
    ensures |steps| < |lines| ==> ParseLine(lines[|steps|], parsesAsJson).Quit?
  {
    ghost var connected, m := reg.connected, reg.toolToServer;
    steps := [];
    var i := 0;
    while i < |lines|
      invariant i == |steps| <= |lines|
      invariant forall k :: 0 <= k < i ==>
                  steps[k] == Handle(lines[k], parsesAsJson, connected, m, call) && !steps[k].command.Quit?
    {
      var step := HandleLine(reg, lines[i], parsesAsJson, call);
      if step.command.Quit? {
        return;
      }
      steps := steps + [step];
      i := i + 1;
    }
  }

  /**
   * The `line` the loop body sees on iteration `i` as the source is
   * written. The stream state after getline is never checked: once the
   * input is used up getline leaves `line` as it was, except that reading
   * past a final newline first empties it.
   */
  function LineSeenAsWritten(lines: seq<string>, endsWithNewline: bool, i: nat): (line: string)
    ensures i < |lines| ==> line == lines[i]
    ensures i >= |lines| ==> line == [] || (lines != [] && line == lines[|lines| - 1])
  {
    if i < |lines| then lines[i]
    else if endsWithNewline || lines == [] then []
    else lines[|lines| - 1]
  }

  /**
   * As written, input that holds no exit or quit line never ends the loop:
   * every iteration, however late, reads a line that does not parse to Quit.
   */
  lemma AsWrittenNeverEnds(lines: seq<string>, endsWithNewline: bool, parsesAsJson: string -> bool, i: nat)
    requires forall k :: 0 <= k < |lines| ==> !ParseLine(lines[k], parsesAsJson).Quit?
    ensures !ParseLine(LineSeenAsWritten(lines, endsWithNewline, i), parsesAsJson).Quit?
  {
    if i >= |lines| && lines != [] && !endsWithNewline {
      assert !ParseLine(lines[|lines| - 1], parsesAsJson).Quit?;
    }
  }

  /**
   * As written, a last line "tool calculator" without a final newline is
   * executed again on every iteration once the input has run out.
   */
  lemma AsWrittenRepeatsLastCall(parsesAsJson: string -> bool, i: nat)
    ensures ParseLine(LineSeenAsWritten(["tool calculator"], false, i), parsesAsJson)
            == CallTool("calculator", EmptyObject)
  {
    assert LineSeenAsWritten(["tool calculator"], false, i) == "tool calculator";
    CalculatorLine(parsesAsJson);
  }

  lemma CalculatorLine(parsesAsJson: string -> bool)
    ensures ParseLine("tool calculator", parsesAsJson) == CallTool("calculator", EmptyObject)
  {
    var name := "calculator";
    forall k | 0 <= k < |name|
      ensures !IsSpace(name[k])
    {
    }
    assert "tool" + (" " + name + []) == "tool calculator";
    ToolWithoutArguments(" ", name, [], parsesAsJson);
  }
}
