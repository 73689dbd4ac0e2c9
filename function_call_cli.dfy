/**
 * The command-line parsing block of simple-function-call's main. Arguments
 * are examined from index 1; a value-taking flag consumes the next argument
 * (argv[++i]); the first problem ends the program with a status, help ends
 * it with status 0; after the loop the model path and then the prompt must
 * be non-empty.
 *
 * std::stoi is a parameter: Some(n) when it converts, None when it throws.
 */
module FunctionCallCli {
  import opened Text

  datatype FcConfig = FcConfig(modelPath: string, prompt: string, ngl: int, nPredict: int,
                               chatTemplateFile: string, grammar: string, confirmCommands: bool)

  /** The values main starts from. */
  const Defaults := FcConfig("", "", 99, 256, "", "", false)

  /** Why parsing ended the program. */
  datatype ExitReason =
    | ShowHelp
    | MissingValue(flag: string)
    | BadNumber(flag: string)
    | UnknownArgument(arg: string)
    | MissingModel
    | MissingPrompt

  datatype FcOutcome = Proceed(config: FcConfig) | Exit(reason: ExitReason)

  /** The value main returns for each way parsing can end it. */
  function Status(reason: ExitReason): (s: int)
    ensures s == 0 <==> reason == ShowHelp
    ensures s == 0 || s == 1
  {
    if reason.ShowHelp? then 0 else 1
  }

  const ValueFlags: seq<string> := ["-m", "-p", "-n", "-ngl", "--chat-template-file", "--grammar"]

  predicate IsHelp(a: string) {
    a == "-h" || a == "--help"
  }

  predicate IsNumeric(flag: string) {
    flag == "-n" || flag == "-ngl"
  }

  /** The assignment a value-taking flag performs; None when stoi throws on a numeric value. */
  function SetValue(cfg: FcConfig, flag: string, v: string, stoi: string -> Option<int>): (r: Option<FcConfig>)
    requires flag in ValueFlags
    ensures r.None? <==> IsNumeric(flag) && stoi(v).None?
    ensures r.Some? ==> r.value.modelPath == (if flag == "-m" then v else cfg.modelPath)
    ensures r.Some? ==> r.value.prompt == (if flag == "-p" then v else cfg.prompt)
    ensures r.Some? ==> r.value.nPredict == (if flag == "-n" then stoi(v).value else cfg.nPredict)
    ensures r.Some? ==> r.value.ngl == (if flag == "-ngl" then stoi(v).value else cfg.ngl)
    ensures r.Some? ==> r.value.chatTemplateFile == (if flag == "--chat-template-file" then v else cfg.chatTemplateFile)
    ensures r.Some? ==> r.value.grammar == (if flag == "--grammar" then v else cfg.grammar)
    ensures r.Some? ==> r.value.confirmCommands == cfg.confirmCommands
  {
    if flag == "-m" then Some(cfg.(modelPath := v))
    else if flag == "-p" then Some(cfg.(prompt := v))
    else if flag == "-n" then
      (match stoi(v) case None => None case Some(n) => Some(cfg.(nPredict := n)))
    else if flag == "-ngl" then
      (match stoi(v) case None => None case Some(n) => Some(cfg.(ngl := n)))
    else if flag == "--chat-template-file" then Some(cfg.(chatTemplateFile := v))
    else Some(cfg.(grammar := v))
  }

  /** The checks after the loop: the model path first, then the prompt. */
  function Finish(cfg: FcConfig): (r: FcOutcome)
    ensures r.Proceed? <==> cfg.modelPath != [] && cfg.prompt != []
    ensures r.Proceed? ==> r.config == cfg
    ensures cfg.modelPath == [] ==> r == Exit(MissingModel)
  {
    if cfg.modelPath == [] then Exit(MissingModel)
    else if cfg.prompt == [] then Exit(MissingPrompt)
    else Proceed(cfg)
  }

  /** The outcome of parsing the remaining arguments `args` from the configuration `cfg`. */
  function ParseFrom(args: seq<string>, cfg: FcConfig, stoi: string -> Option<int>): FcOutcome
    decreases |args|
  {
    if args == [] then Finish(cfg)
    else if args[0] in ValueFlags then
      if |args| < 2 then Exit(MissingValue(args[0]))
      else match SetValue(cfg, args[0], args[1], stoi)
        case None => Exit(BadNumber(args[0]))
        case Some(c) => ParseFrom(args[2..], c, stoi)
    else if args[0] == "--confirm" then ParseFrom(args[1..], cfg.(confirmCommands := true), stoi)
    else if IsHelp(args[0]) then Exit(ShowHelp)
    else Exit(UnknownArgument(args[0]))
  }

  /** The argv loop of main and the checks after it. */
  method ParseArguments(argv: seq<string>, stoi: string -> Option<int>) returns (r: FcOutcome)
    ensures r == ParseFrom(ArgsFrom(argv, 1), Defaults, stoi)
  {
    var modelPath, prompt, ngl, nPredict := "", "", 99, 256;
    var chatTemplateFile, grammar, confirmCommands := "", "", false;
    var i := 1;
    while i < |argv|
      invariant 1 <= i
      invariant ParseFrom(ArgsFrom(argv, i), FcConfig(modelPath, prompt, ngl, nPredict, chatTemplateFile, grammar, confirmCommands), stoi)
                == ParseFrom(ArgsFrom(argv, 1), Defaults, stoi)
      decreases |argv| - i
    {
      var a := argv[i];
      assert ArgsFrom(argv, i) == [a] + argv[i + 1..];
      if a in ValueFlags {
        if i + 1 < |argv| {
          assert ArgsFrom(argv, i)[2..] == ArgsFrom(argv, i + 2);
          i := i + 1;
          var v := argv[i];
          if a == "-m" {
            modelPath := v;
          } else if a == "-p" {
            prompt := v;
          } else if a == "-n" {
            match stoi(v)
            case None => return Exit(BadNumber(a));
            case Some(n) => nPredict := n;
          } else if a == "-ngl" {
            match stoi(v)
            case None => return Exit(BadNumber(a));
            case Some(n) => ngl := n;
          } else if a == "--chat-template-file" {
            chatTemplateFile := v;
          } else {
            grammar := v;
          }
        } else {
          return Exit(MissingValue(a));
        }
      } else if a == "--confirm" {
        assert ArgsFrom(argv, i)[1..] == ArgsFrom(argv, i + 1);
        confirmCommands := true;
      } else if IsHelp(a) {
        return Exit(ShowHelp);
      } else {
        return Exit(UnknownArgument(a));
      }
      i := i + 1;
    }
    assert ArgsFrom(argv, i) == [];
    var cfg := FcConfig(modelPath, prompt, ngl, nPredict, chatTemplateFile, grammar, confirmCommands);
    if modelPath == [] {
      return Exit(MissingModel);
    }
    if prompt == [] {
      return Exit(MissingPrompt);
    }
    return Proceed(cfg);
  }

  // ---------------------------------------------------------------------
  // What the parse promises
  // ---------------------------------------------------------------------

  /** Parsing gets past the argument block only with a model path and a prompt. */
  lemma {:induction false} ProceedNeedsModelAndPrompt(args: seq<string>, cfg: FcConfig, stoi: string -> Option<int>)
    requires ParseFrom(args, cfg, stoi).Proceed?
    decreases |args|
    ensures ParseFrom(args, cfg, stoi).config.modelPath != []
    ensures ParseFrom(args, cfg, stoi).config.prompt != []
  {
    if args != [] {
      if args[0] in ValueFlags {
        ProceedNeedsModelAndPrompt(args[2..], SetValue(cfg, args[0], args[1], stoi).value, stoi);
      } else {
        ProceedNeedsModelAndPrompt(args[1..], cfg.(confirmCommands := true), stoi);
      }
    }
  }

  /** The model path used is one given after a -m on the command line (or the starting one). */
  lemma {:induction false} ModelPathFromArguments(args: seq<string>, cfg: FcConfig, stoi: string -> Option<int>)
    requires ParseFrom(args, cfg, stoi).Proceed?
    decreases |args|
    ensures var m := ParseFrom(args, cfg, stoi).config.modelPath;
            m == cfg.modelPath || exists k :: 0 <= k < |args| - 1 && args[k] == "-m" && args[k + 1] == m
  {
    if args != [] {
      var m := ParseFrom(args, cfg, stoi).config.modelPath;
      if args[0] in ValueFlags {
        var c := SetValue(cfg, args[0], args[1], stoi).value;
        ModelPathFromArguments(args[2..], c, stoi);
        if m != c.modelPath {
          var k :| 0 <= k < |args[2..]| - 1 && args[2..][k] == "-m" && args[2..][k + 1] == m;
          assert args[k + 2] == "-m" && args[k + 3] == m;
        } else if args[0] == "-m" {
          assert args[0] == "-m" && args[1] == m;
        }
      } else {
        ModelPathFromArguments(args[1..], cfg.(confirmCommands := true), stoi);
        if m != cfg.modelPath {
          var k :| 0 <= k < |args[1..]| - 1 && args[1..][k] == "-m" && args[1..][k + 1] == m;
          assert args[k + 1] == "-m" && args[k + 2] == m;
        }
      }
    }
  }

  /** Without -n, -ngl or --confirm on the command line their defaults are kept. */
  lemma {:induction false} DefaultsKept(args: seq<string>, cfg: FcConfig, stoi: string -> Option<int>)
    requires "-n" !in args && "-ngl" !in args && "--confirm" !in args
    requires ParseFrom(args, cfg, stoi).Proceed?
    decreases |args|
    ensures ParseFrom(args, cfg, stoi).config.nPredict == cfg.nPredict
    ensures ParseFrom(args, cfg, stoi).config.ngl == cfg.ngl
    ensures ParseFrom(args, cfg, stoi).config.confirmCommands == cfg.confirmCommands
  {
    if args != [] {
      assert args[0] in args;
      assert args[0] in ValueFlags;
      DefaultsKept(args[2..], SetValue(cfg, args[0], args[1], stoi).value, stoi);
    }
  }

  /** The defaults themselves: 99 GPU layers, 256 tokens, no confirmation. */
  lemma DefaultValues()
    ensures Defaults.ngl == 99 && Defaults.nPredict == 256 && !Defaults.confirmCommands
    ensures Defaults.modelPath == [] && Defaults.prompt == []
  {
  }

  /** A missing value is reported only for a value-taking flag read as the last argument. */
  lemma {:induction false} MissingValueOnlyAtEnd(args: seq<string>, cfg: FcConfig, stoi: string -> Option<int>, f: string)
    requires ParseFrom(args, cfg, stoi) == Exit(MissingValue(f))
    decreases |args|
    ensures f in ValueFlags && args != [] && args[|args| - 1] == f
  {
    if args[0] in ValueFlags && |args| >= 2 {
      MissingValueOnlyAtEnd(args[2..], SetValue(cfg, args[0], args[1], stoi).value, stoi, f);
    } else if args[0] == "--confirm" {
      MissingValueOnlyAtEnd(args[1..], cfg.(confirmCommands := true), stoi, f);
    }
  }

  /** A value-taking flag read as the last argument ends the program with status 1. */
  lemma TrailingValueFlag(f: string, cfg: FcConfig, stoi: string -> Option<int>)
    requires f in ValueFlags
    ensures ParseFrom([f], cfg, stoi) == Exit(MissingValue(f))
    ensures Status(ParseFrom([f], cfg, stoi).reason) == 1
  {
  }

  /**
   * Help ends parsing with status 0 wherever it is read, whatever follows,
   * and before the model and prompt checks.
   */
  lemma HelpWins(h: string, rest: seq<string>, cfg: FcConfig, stoi: string -> Option<int>)
    requires IsHelp(h)
    ensures ParseFrom([h] + rest, cfg, stoi) == Exit(ShowHelp)
  {
  }

  /** Status 0 comes only from a help flag on the command line. */
  lemma {:induction false} HelpOnlyFromFlag(args: seq<string>, cfg: FcConfig, stoi: string -> Option<int>)
    requires ParseFrom(args, cfg, stoi).Exit?
    requires Status(ParseFrom(args, cfg, stoi).reason) == 0
    decreases |args|
    ensures exists k :: 0 <= k < |args| && IsHelp(args[k])
  {
    if args[0] in ValueFlags {
      HelpOnlyFromFlag(args[2..], SetValue(cfg, args[0], args[1], stoi).value, stoi);
      var k :| 0 <= k < |args[2..]| && IsHelp(args[2..][k]);
      assert IsHelp(args[k + 2]);
    } else if args[0] == "--confirm" {
      HelpOnlyFromFlag(args[1..], cfg.(confirmCommands := true), stoi);
      var k :| 0 <= k < |args[1..]| && IsHelp(args[1..][k]);
      assert IsHelp(args[k + 1]);
    } else {
      assert IsHelp(args[0]);
    }
  }

  /** An argument that is no flag ends the program with status 1. */
  lemma UnknownRejected(a: string, rest: seq<string>, cfg: FcConfig, stoi: string -> Option<int>)
    requires a !in ValueFlags && a != "--confirm" && !IsHelp(a)
    ensures ParseFrom([a] + rest, cfg, stoi) == Exit(UnknownArgument(a))
  {
  }

  /** A value of -n or -ngl that stoi cannot convert ends the program with status 1. */
  lemma NonNumericRejected(f: string, v: string, rest: seq<string>, cfg: FcConfig, stoi: string -> Option<int>)
    requires IsNumeric(f) && stoi(v).None?
    ensures ParseFrom([f, v] + rest, cfg, stoi) == Exit(BadNumber(f))
  {
  }

  /**
   * A flag given twice in a row keeps its second value: the first one has no
   * effect at all (for -n and -ngl, once the first value converts).
   */
  lemma LaterValueWins(f: string, a: string, b: string, rest: seq<string>, cfg: FcConfig, stoi: string -> Option<int>)
    requires f in ValueFlags && (!IsNumeric(f) || stoi(a).Some?)
    ensures ParseFrom([f, a, f, b] + rest, cfg, stoi) == ParseFrom([f, b] + rest, cfg, stoi)
  {
    assert ([f, a, f, b] + rest)[2..] == [f, b] + rest;
    assert ([f, b] + rest)[2..] == rest;
    var c := SetValue(cfg, f, a, stoi).value;
    assert SetValue(c, f, b, stoi) == SetValue(cfg, f, b, stoi);
  }

  /**
   * The value read after the last occurrence of the value-taking flag `f`,
   * scanning the arguments the way the loop does (a value flag and its value
   * are read together); None when `f` is never read with a value.
   */
  function LastValue(args: seq<string>, f: string): Option<string>
    decreases |args|
  {
    if args == [] then None
    else if args[0] in ValueFlags && |args| >= 2 then
      match LastValue(args[2..], f)
      case Some(v) => Some(v)
      case None => if args[0] == f then Some(args[1]) else None
    else LastValue(args[1..], f)
  }

  function OrElse(o: Option<string>, d: string): string {
    if o.Some? then o.value else d
  }

  /**
   * Every setting that gets past the argument block is the value after the
   * flag's last occurrence, whatever lies in between, or the starting value
   * when the flag is not given.
   */
  lemma {:induction false} FinalValues(args: seq<string>, cfg: FcConfig, stoi: string -> Option<int>)
    requires ParseFrom(args, cfg, stoi).Proceed?
    decreases |args|
    ensures LastValue(args, "-n").Some? ==> stoi(LastValue(args, "-n").value).Some?
    ensures LastValue(args, "-ngl").Some? ==> stoi(LastValue(args, "-ngl").value).Some?
    ensures var r := ParseFrom(args, cfg, stoi).config;
            && r.modelPath == OrElse(LastValue(args, "-m"), cfg.modelPath)
            && r.prompt == OrElse(LastValue(args, "-p"), cfg.prompt)
            && r.chatTemplateFile == OrElse(LastValue(args, "--chat-template-file"), cfg.chatTemplateFile)
            && r.grammar == OrElse(LastValue(args, "--grammar"), cfg.grammar)
            && r.nPredict == (if LastValue(args, "-n").Some? then stoi(LastValue(args, "-n").value).value else cfg.nPredict)
            && r.ngl == (if LastValue(args, "-ngl").Some? then stoi(LastValue(args, "-ngl").value).value else cfg.ngl)
  {
    if args != [] {
      if args[0] in ValueFlags {
        var c := SetValue(cfg, args[0], args[1], stoi).value;
        FinalValues(args[2..], c, stoi);
      } else {
        FinalValues(args[1..], cfg.(confirmCommands := true), stoi);
      }
    }
  }

  /** A flag repeated with other settings in between: `-m a -p x -m b` uses model b. */
  lemma LaterModelAcrossOthers(a: string, x: string, b: string, rest: seq<string>, cfg: FcConfig, stoi: string -> Option<int>)
    requires ParseFrom(["-m", a, "-p", x, "-m", b] + rest, cfg, stoi).Proceed?
    requires "-m" !in rest
    ensures ParseFrom(["-m", a, "-p", x, "-m", b] + rest, cfg, stoi).config.modelPath == b
  {
    var args := ["-m", a, "-p", x, "-m", b] + rest;
    var tail := ["-m", b] + rest;
    NotReadWhenAbsent(rest, "-m");
    assert tail[2..] == rest;
    assert LastValue(tail, "-m") == Some(b);
    assert args[2..] == ["-p", x] + tail && (["-p", x] + tail)[2..] == tail;
    assert LastValue(args[2..], "-m") == Some(b);
    FinalValues(args, cfg, stoi);
  }

  /** A flag that does not occur is never read. */
  lemma {:induction false} NotReadWhenAbsent(args: seq<string>, f: string)
    requires f !in args
    decreases |args|
    ensures LastValue(args, f).None?
  {
    if args != [] {
      assert args[0] != f;
      if args[0] in ValueFlags && |args| >= 2 {
        assert forall k :: 2 <= k < |args| ==> args[2..][k - 2] == args[k];
        NotReadWhenAbsent(args[2..], f);
      } else {
        assert forall k :: 1 <= k < |args| ==> args[1..][k - 1] == args[k];
        NotReadWhenAbsent(args[1..], f);
      }
    }
  }

  /** --confirm takes no value: the argument after it is read as the next flag. */
  lemma ConfirmTakesNoValue(rest: seq<string>, cfg: FcConfig, stoi: string -> Option<int>)
    ensures ParseFrom(["--confirm"] + rest, cfg, stoi) == ParseFrom(rest, cfg.(confirmCommands := true), stoi)
  {
    assert (["--confirm"] + rest)[1..] == rest;
  }

  /** With neither -m nor -p the model is reported missing first. */
  lemma ModelCheckedFirst(stoi: string -> Option<int>)
    ensures ParseFrom([], Defaults, stoi) == Exit(MissingModel)
  {
  }
}
