/**
 * parse_config of the MCP client. The configuration always starts with a
 * default server; "--add-server NAME HOST PORT TYPE" appends one more when
 * four arguments follow it and skips past them; "--hide-instructions" turns
 * the banner off; every other argument is ignored. std::stoi on the port is
 * a parameter, and its exception is not caught (Aborted).
 */
module ClientCli {
  import opened Text

  datatype ServerConfig = ServerConfig(name: string, host: string, port: int, kind: string)

  datatype ClientConfig = ClientConfig(servers: seq<ServerConfig>, showInstructions: bool)

  const DefaultServer := ServerConfig("default-agent", "localhost", 8889, "llama-agent")

  const ClientDefaults := ClientConfig([DefaultServer], true)

  datatype ClientParse = Parsed(config: ClientConfig) | Aborted

  /** The outcome of parsing the remaining arguments `args` from `cfg`. */
  function ClientFrom(args: seq<string>, cfg: ClientConfig, stoi: string -> Option<int>): ClientParse
    decreases |args|
  {
    if args == [] then Parsed(cfg)
    else if args[0] == "--add-server" && |args| >= 5 then
      match stoi(args[3])
      case None => Aborted
      case Some(p) =>
        ClientFrom(args[5..], cfg.(servers := cfg.servers + [ServerConfig(args[1], args[2], p, args[4])]), stoi)
    else if args[0] == "--hide-instructions" then ClientFrom(args[1..], cfg.(showInstructions := false), stoi)
    else ClientFrom(args[1..], cfg, stoi)
  }

  method ParseClientConfig(argv: seq<string>, stoi: string -> Option<int>) returns (r: ClientParse)
    ensures r == ClientFrom(ArgsFrom(argv, 1), ClientDefaults, stoi)
  {
    var servers := [DefaultServer];
    var showInstructions := true;
    var i := 1;
    while i < |argv|
      invariant 1 <= i
      invariant ClientFrom(ArgsFrom(argv, i), ClientConfig(servers, showInstructions), stoi)
                == ClientFrom(ArgsFrom(argv, 1), ClientDefaults, stoi)
      decreases |argv| - i
    {
      assert ArgsFrom(argv, i) == [argv[i]] + argv[i + 1..];
      assert ArgsFrom(argv, i)[1..] == ArgsFrom(argv, i + 1);
      if argv[i] == "--add-server" && i + 4 < |argv| {
        assert ArgsFrom(argv, i)[5..] == ArgsFrom(argv, i + 5);
        match stoi(argv[i + 3])
        case None => return Aborted;
        case Some(port) =>
          servers := servers + [ServerConfig(argv[i + 1], argv[i + 2], port, argv[i + 4])];
        i := i + 4;
      } else if argv[i] == "--hide-instructions" {
        showInstructions := false;
      }
      i := i + 1;
    }
    return Parsed(ClientConfig(servers, showInstructions));
  }

  /** Parsing only appends: the servers configured so far stay, in order, at the front. */
  lemma {:induction false} ServersOnlyAppended(args: seq<string>, cfg: ClientConfig, stoi: string -> Option<int>)
    requires ClientFrom(args, cfg, stoi).Parsed?
    decreases |args|
    ensures cfg.servers <= ClientFrom(args, cfg, stoi).config.servers
  {
    if args != [] {
      if args[0] == "--add-server" && |args| >= 5 {
        var c := cfg.(servers := cfg.servers + [ServerConfig(args[1], args[2], stoi(args[3]).value, args[4])]);
        ServersOnlyAppended(args[5..], c, stoi);
      } else {
        ServersOnlyAppended(args[1..], if args[0] == "--hide-instructions" then cfg.(showInstructions := false) else cfg, stoi);
      }
    }
  }

  /** The default server is always the first one. */
  lemma DefaultServerFirst(argv: seq<string>, stoi: string -> Option<int>)
    requires ClientFrom(ArgsFrom(argv, 1), ClientDefaults, stoi).Parsed?
    ensures var servers := ClientFrom(ArgsFrom(argv, 1), ClientDefaults, stoi).config.servers;
            |servers| >= 1 && servers[0] == ServerConfig("default-agent", "localhost", 8889, "llama-agent")
  {
    ServersOnlyAppended(ArgsFrom(argv, 1), ClientDefaults, stoi);
  }

  /** Server `s` is the one an --add-server at position `k` of `args` describes. */
  predicate AddedAt(args: seq<string>, k: int, s: ServerConfig, stoi: string -> Option<int>) {
    && 0 <= k && k + 4 < |args| && args[k] == "--add-server"
    && s.name == args[k + 1] && s.host == args[k + 2] && s.kind == args[k + 4]
    && stoi(args[k + 3]) == Some(s.port)
  }

  ghost predicate FromSomeAddServer(args: seq<string>, s: ServerConfig, stoi: string -> Option<int>) {
    exists k :: AddedAt(args, k, s, stoi)
  }

  lemma AddedAtShift(args: seq<string>, d: nat, k: int, s: ServerConfig, stoi: string -> Option<int>)
    requires d <= |args| && AddedAt(args[d..], k, s, stoi)
    ensures AddedAt(args, k + d, s, stoi)
  {
    assert args[d..][k] == args[k + d] && args[d..][k + 1] == args[k + d + 1] && args[d..][k + 2] == args[k + d + 2];
    assert args[d..][k + 3] == args[k + d + 3] && args[d..][k + 4] == args[k + d + 4];
  }

  /** Every added server is made of the four arguments after an --add-server, in order. */
  lemma {:induction false} AddedServersFromArguments(args: seq<string>, cfg: ClientConfig, stoi: string -> Option<int>)
    requires ClientFrom(args, cfg, stoi).Parsed?
    decreases |args|
    ensures cfg.servers <= ClientFrom(args, cfg, stoi).config.servers
    ensures var servers := ClientFrom(args, cfg, stoi).config.servers;
            forall n :: |cfg.servers| <= n < |servers| ==> FromSomeAddServer(args, servers[n], stoi)
  {
    ServersOnlyAppended(args, cfg, stoi);
    if args != [] {
      var servers := ClientFrom(args, cfg, stoi).config.servers;
      var d: nat, c: ClientConfig;
      if args[0] == "--add-server" && |args| >= 5 {
        d, c := 5, cfg.(servers := cfg.servers + [ServerConfig(args[1], args[2], stoi(args[3]).value, args[4])]);
        assert AddedAt(args, 0, c.servers[|cfg.servers|], stoi);
      } else {
        d, c := 1, if args[0] == "--hide-instructions" then cfg.(showInstructions := false) else cfg;
      }
      assert ClientFrom(args, cfg, stoi) == ClientFrom(args[d..], c, stoi);
      AddedServersFromArguments(args[d..], c, stoi);
      assert c.servers <= servers;
      forall n | |cfg.servers| <= n < |servers|
        ensures FromSomeAddServer(args, servers[n], stoi)
      {
        if n < |c.servers| {
          assert d == 5 && servers[n] == c.servers[n];
          assert AddedAt(args, 0, servers[n], stoi);
        } else {
          assert FromSomeAddServer(args[d..], servers[n], stoi);
          var k :| AddedAt(args[d..], k, servers[n], stoi);
          AddedAtShift(args, d, k, servers[n], stoi);
        }
      }
    } else {
      assert ClientFrom(args, cfg, stoi) == Parsed(cfg);
    }
  }

  /** --add-server with four arguments after it appends exactly that server and goes on after them. */
  lemma AddServerAppendsOne(name: string, host: string, port: string, kind: string, rest: seq<string>,
                            cfg: ClientConfig, stoi: string -> Option<int>)
    requires stoi(port).Some?
    ensures ClientFrom(["--add-server", name, host, port, kind] + rest, cfg, stoi)
            == ClientFrom(rest, cfg.(servers := cfg.servers + [ServerConfig(name, host, stoi(port).value, kind)]), stoi)
  {
    assert (["--add-server", name, host, port, kind] + rest)[5..] == rest;
  }

  /** With fewer than four arguments after it, --add-server is skipped like any unknown argument. */
  lemma AddServerTooShortIgnored(rest: seq<string>, cfg: ClientConfig, stoi: string -> Option<int>)
    requires |rest| < 4
    ensures ClientFrom(["--add-server"] + rest, cfg, stoi) == ClientFrom(rest, cfg, stoi)
  {
    assert (["--add-server"] + rest)[1..] == rest;
  }

  /** Any argument other than --add-server and --hide-instructions is skipped. */
  lemma ClientIgnoresOthers(a: string, rest: seq<string>, cfg: ClientConfig, stoi: string -> Option<int>)
    requires a != "--add-server" && a != "--hide-instructions"
    ensures ClientFrom([a] + rest, cfg, stoi) == ClientFrom(rest, cfg, stoi)
  {
    assert ([a] + rest)[1..] == rest;
  }

  /** The banner is shown unless --hide-instructions is read; once hidden it stays hidden. */
  lemma {:induction false} InstructionsShown(args: seq<string>, cfg: ClientConfig, stoi: string -> Option<int>)
    requires ClientFrom(args, cfg, stoi).Parsed?
    decreases |args|
    ensures "--hide-instructions" !in args ==>
              ClientFrom(args, cfg, stoi).config.showInstructions == cfg.showInstructions
    ensures !cfg.showInstructions ==> !ClientFrom(args, cfg, stoi).config.showInstructions
  {
    if args != [] {
      assert args[0] in args;
      if args[0] == "--add-server" && |args| >= 5 {
        assert forall a :: a in args[5..] ==> a in args;
        var c := cfg.(servers := cfg.servers + [ServerConfig(args[1], args[2], stoi(args[3]).value, args[4])]);
        InstructionsShown(args[5..], c, stoi);
      } else {
        assert forall a :: a in args[1..] ==> a in args;
        InstructionsShown(args[1..], if args[0] == "--hide-instructions" then cfg.(showInstructions := false) else cfg, stoi);
      }
    }
  }

  /** --hide-instructions turns the banner off. */
  lemma HideInstructions(rest: seq<string>, cfg: ClientConfig, stoi: string -> Option<int>)
    requires ClientFrom(["--hide-instructions"] + rest, cfg, stoi).Parsed?
    ensures !ClientFrom(["--hide-instructions"] + rest, cfg, stoi).config.showInstructions
  {
    assert (["--hide-instructions"] + rest)[1..] == rest;
    InstructionsShown(rest, cfg.(showInstructions := false), stoi);
  }
}
