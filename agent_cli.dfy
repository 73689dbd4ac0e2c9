/**
 * The MCP agent's parse_config, the model-path check at the start of its
 * main, and the last-character handling of readline_utf8.
 *
 * parse_config never reports an error: a flag lacking its value and any
 * unknown argument are skipped. The only way it fails is std::stoi throwing
 * on the --port value; nothing catches that exception, so the program ends
 * abnormally, which the model calls Aborted.
 */
module AgentCli {
  import opened Text

  datatype AgentConfig = AgentConfig(modelPath: string, port: int, confirmCommands: bool)

  const AgentDefaults := AgentConfig("", 8889, false)

  datatype AgentParse = Parsed(config: AgentConfig) | Aborted

  /** The outcome of parse_config on the remaining arguments `args`, from `cfg`. */
  function AgentFrom(args: seq<string>, cfg: AgentConfig, stoi: string -> Option<int>): AgentParse
    decreases |args|
  {
    if args == [] then Parsed(cfg)
    else if args[0] == "-m" && |args| >= 2 then AgentFrom(args[2..], cfg.(modelPath := args[1]), stoi)
    else if args[0] == "--port" && |args| >= 2 then
      match stoi(args[1])
      case None => Aborted
      case Some(p) => AgentFrom(args[2..], cfg.(port := p), stoi)
    else if args[0] == "--confirm" then AgentFrom(args[1..], cfg.(confirmCommands := true), stoi)
    else AgentFrom(args[1..], cfg, stoi)
  }

  /** parse_config: fields of a Config updated while stepping through argv. */
  method ParseConfig(argv: seq<string>, stoi: string -> Option<int>) returns (r: AgentParse)
    ensures r == AgentFrom(ArgsFrom(argv, 1), AgentDefaults, stoi)
  {
    var config := AgentDefaults;
    var i := 1;
    while i < |argv|
      invariant 1 <= i
      invariant AgentFrom(ArgsFrom(argv, i), config, stoi) == AgentFrom(ArgsFrom(argv, 1), AgentDefaults, stoi)
      decreases |argv| - i
    {
      AgentFromStep(argv, i, config, stoi);
      if argv[i] == "-m" && i + 1 < |argv| {
        i := i + 1;
        config := config.(modelPath := argv[i]);
      } else if argv[i] == "--port" && i + 1 < |argv| {
        i := i + 1;
        match stoi(argv[i])
        case None => return Aborted;
        case Some(p) => config := config.(port := p);
      } else if argv[i] == "--confirm" {
        config := config.(confirmCommands := true);
      }
      i := i + 1;
    }
    return Parsed(config);
  }

  /** One step of AgentFrom, read off argv at index `i`. */
  lemma AgentFromStep(argv: seq<string>, i: nat, cfg: AgentConfig, stoi: string -> Option<int>)
    requires i < |argv|
    ensures AgentFrom(ArgsFrom(argv, i), cfg, stoi) ==
              if argv[i] == "-m" && i + 1 < |argv| then AgentFrom(ArgsFrom(argv, i + 2), cfg.(modelPath := argv[i + 1]), stoi)
              else if argv[i] == "--port" && i + 1 < |argv| then
                (match stoi(argv[i + 1])
                 case None => Aborted
                 case Some(p) => AgentFrom(ArgsFrom(argv, i + 2), cfg.(port := p), stoi))
              else if argv[i] == "--confirm" then AgentFrom(ArgsFrom(argv, i + 1), cfg.(confirmCommands := true), stoi)
              else AgentFrom(ArgsFrom(argv, i + 1), cfg, stoi)
  {
    var args := ArgsFrom(argv, i);
    assert args[0] == argv[i];
    assert args[1..] == ArgsFrom(argv, i + 1);
    if i + 1 < |argv| {
      assert args[1] == argv[i + 1];
      assert args[2..] == ArgsFrom(argv, i + 2);
    }
  }

  /** parse_config fails only through a --port value stoi cannot convert. */
  lemma {:induction false} AbortedOnlyByPort(args: seq<string>, cfg: AgentConfig, stoi: string -> Option<int>)
    requires AgentFrom(args, cfg, stoi) == Aborted
    decreases |args|
    ensures exists k :: 0 <= k < |args| - 1 && args[k] == "--port" && stoi(args[k + 1]).None?
  {
    if args[0] == "-m" && |args| >= 2 {
      AbortedOnlyByPort(args[2..], cfg.(modelPath := args[1]), stoi);
      var k :| 0 <= k < |args[2..]| - 1 && args[2..][k] == "--port" && stoi(args[2..][k + 1]).None?;
      assert args[k + 2] == "--port" && args[k + 3] == args[2..][k + 1];
    } else if args[0] == "--port" && |args| >= 2 {
      if stoi(args[1]).Some? {
        AbortedOnlyByPort(args[2..], cfg.(port := stoi(args[1]).value), stoi);
        var k :| 0 <= k < |args[2..]| - 1 && args[2..][k] == "--port" && stoi(args[2..][k + 1]).None?;
        assert args[k + 2] == "--port" && args[k + 3] == args[2..][k + 1];
      }
    } else {
      var c := if args[0] == "--confirm" then cfg.(confirmCommands := true) else cfg;
      AbortedOnlyByPort(args[1..], c, stoi);
      var k :| 0 <= k < |args[1..]| - 1 && args[1..][k] == "--port" && stoi(args[1..][k + 1]).None?;
      assert args[k + 1] == "--port" && args[k + 2] == args[1..][k + 1];
    }
  }

  /** Without --port the port keeps its default 8889, and without --confirm commands run unconfirmed. */
  lemma {:induction false} AgentDefaultsKept(args: seq<string>, stoi: string -> Option<int>)
    requires "--port" !in args
    ensures AgentFrom(args, AgentDefaults, stoi).Parsed?
    ensures AgentFrom(args, AgentDefaults, stoi).config.port == 8889
    ensures "--confirm" !in args ==> !AgentFrom(args, AgentDefaults, stoi).config.confirmCommands
  {
    KeepsPort(args, AgentDefaults, stoi);
  }

  lemma {:induction false} KeepsPort(args: seq<string>, cfg: AgentConfig, stoi: string -> Option<int>)
    requires "--port" !in args
    decreases |args|
    ensures AgentFrom(args, cfg, stoi).Parsed?
    ensures AgentFrom(args, cfg, stoi).config.port == cfg.port
    ensures "--confirm" !in args ==> AgentFrom(args, cfg, stoi).config.confirmCommands == cfg.confirmCommands
  {
    if args != [] {
      assert args[0] in args;
      if args[0] == "-m" && |args| >= 2 {
        assert forall a :: a in args[2..] ==> a in args;
        KeepsPort(args[2..], cfg.(modelPath := args[1]), stoi);
      } else {
        assert forall a :: a in args[1..] ==> a in args;
        KeepsPort(args[1..], if args[0] == "--confirm" then cfg.(confirmCommands := true) else cfg, stoi);
      }
    }
  }

  /** An unknown argument is skipped, and so is -m or --port given as the last argument. */
  lemma IgnoredArguments(a: string, rest: seq<string>, cfg: AgentConfig, stoi: string -> Option<int>)
    ensures a != "-m" && a != "--port" && a != "--confirm" ==>
              AgentFrom([a] + rest, cfg, stoi) == AgentFrom(rest, cfg, stoi)
    ensures AgentFrom(["-m"], cfg, stoi) == Parsed(cfg)
    ensures AgentFrom(["--port"], cfg, stoi) == Parsed(cfg)
  {
    assert ([a] + rest)[1..] == rest;
  }

  /** What the start of main does with the parsed configuration. */
  datatype AgentStart = Terminated | ExitStatus(status: int) | Serve(config: AgentConfig)

  function AgentMainStart(p: AgentParse): (r: AgentStart)
    ensures r.ExitStatus? <==> p.Parsed? && p.config.modelPath == []
    ensures r.ExitStatus? ==> r.status == 1
    ensures r.Serve? ==> p.Parsed? && r.config == p.config && r.config.modelPath != []
    ensures r.Terminated? <==> p.Aborted?
  {
    match p
    case Aborted => Terminated
    case Parsed(config) => if config.modelPath == [] then ExitStatus(1) else Serve(config)
  }

  /** With the model path given, the agent goes on whatever else the command line holds. */
  lemma ModelPathSuffices(rest: seq<string>, path: string, stoi: string -> Option<int>)
    requires path != [] && "--port" !in rest && "-m" !in rest
    ensures AgentMainStart(AgentFrom(["-m", path] + rest, AgentDefaults, stoi)).Serve?
  {
    assert (["-m", path] + rest)[2..] == rest;
    KeepsModel(rest, AgentDefaults.(modelPath := path), stoi);
  }

  lemma {:induction false} KeepsModel(args: seq<string>, cfg: AgentConfig, stoi: string -> Option<int>)
    requires "--port" !in args && "-m" !in args
    decreases |args|
    ensures AgentFrom(args, cfg, stoi).Parsed?
    ensures AgentFrom(args, cfg, stoi).config.modelPath == cfg.modelPath
  {
    if args != [] {
      assert args[0] in args;
      assert forall a :: a in args[1..] ==> a in args;
      KeepsModel(args[1..], if args[0] == "--confirm" then cfg.(confirmCommands := true) else cfg, stoi);
    }
  }

  // ---------------------------------------------------------------------
  // readline_utf8
  // ---------------------------------------------------------------------

  /** The line left in the caller's buffer, and the value readline_utf8 returns. */
  datatype LineRead = LineRead(line: string, more: bool)

  /**
   * `input` is what getline delivered, None when it failed. A failed read
   * empties the line and returns false. A trailing '/' is dropped and ends
   * multi-line input; a trailing '\\' is dropped and toggles it; otherwise
   * the line is kept and the flag returned unchanged.
   */
  function ReadlineUtf8(input: Option<string>, multiline: bool): (r: LineRead)
    ensures input.None? ==> r == LineRead([], false)
    ensures input.Some? && input.value != [] && input.value[|input.value| - 1] == '/' ==>
              r == LineRead(input.value[..|input.value| - 1], false)
    ensures input.Some? && input.value != [] && input.value[|input.value| - 1] == '\\' ==>
              r == LineRead(input.value[..|input.value| - 1], !multiline)
    ensures input.Some? && (input.value == [] || input.value[|input.value| - 1] !in "/\\") ==>
              r == LineRead(input.value, multiline)
  {
    match input
    case None => LineRead([], false)
    case Some(line) =>
      if line != [] && line[|line| - 1] == '/' then LineRead(line[..|line| - 1], false)
      else if line != [] && line[|line| - 1] == '\\' then LineRead(line[..|line| - 1], !multiline)
      else LineRead(line, multiline)
  }

  /** The line returned is what was read, less at most its one last character. */
  lemma ReadlineKeepsText(line: string, multiline: bool)
    ensures var r := ReadlineUtf8(Some(line), multiline);
            r.line <= line && |line| - 1 <= |r.line|
  {
  }
}
