/**
 * ShellCommandHandler::is_command_safe of the MCP agent: a default-deny
 * check over the raw command text. A command is refused when any entry of a
 * fixed block-list occurs anywhere in it; otherwise it is accepted exactly
 * when it begins with an entry of a fixed allow-list. The allow-list test is
 * on the raw string, so "lsblk" passes as an "ls" command.
 */
module ShellSafety {
  import opened Text

  /** Substrings that mark mutation, chaining, redirection or privilege escalation. */
  const Blocked: seq<string> := ["rm", "sudo", "su", ">", ">>", "|", "mv", "cp", "chmod", "chown", "&"]

  /** Leading command names that are let through. */
  const Allowed: seq<string> := ["ls", "pwd", "echo", "cat", "date", "whoami", "uname"]

  /** cmd.substr(0, n): the first n characters, or all of cmd when it is shorter. */
  function Substr0(cmd: string, n: nat): (r: string)
    ensures |r| == if n <= |cmd| then n else |cmd|
    ensures r <= cmd
  {
    if n <= |cmd| then cmd[..n] else cmd
  }

  /** The first loop: true as soon as one entry of `list` is found in `cmd`. */
  function AnyFound(cmd: string, list: seq<string>): (r: bool)
    ensures r <==> exists b :: b in list && Contains(cmd, b)
  {
    if list == [] then false
    else if Find(cmd, list[0]).Some? then true
    else AnyFound(cmd, list[1..])
  }

  /** The second loop: true as soon as `cmd.substr(0, |a|) == a` for an entry `a` of `list`. */
  function AnyLeading(cmd: string, list: seq<string>): (r: bool)
    ensures r <==> exists a :: a in list && a <= cmd
  {
    if list == [] then false
    else if Substr0(cmd, |list[0]|) == list[0] then assert list[0] in list; true
    else
      var r := AnyLeading(cmd, list[1..]);
      assert r ==> exists a :: a in list && a <= cmd by {
        if r {
          var a :| a in list[1..] && a <= cmd;
          assert a in list;
        }
      }
      assert (exists a :: a in list && a <= cmd) ==> r by {
        if exists a :: a in list && a <= cmd {
          var a :| a in list && a <= cmd;
          assert a in list[1..];
        }
      }
      r
  }

  function IsCommandSafe(cmd: string): (r: bool)
    ensures r <==> (forall b :: b in Blocked ==> !Contains(cmd, b))
                   && (exists a :: a in Allowed && a <= cmd)
  {
    if AnyFound(cmd, Blocked) then false
    else AnyLeading(cmd, Allowed)
  }

  /** A blocked substring anywhere in the command refuses it, whatever it starts with. */
  lemma BlockedAnywhereRefused(before: string, b: string, after: string)
    requires b in Blocked
    ensures !IsCommandSafe(before + b + after)
  {
    var cmd := before + b + after;
    assert cmd[|before|..|before| + |b|] == b;
    assert OccursAt(cmd, b, |before|);
  }

  /** Default deny: nothing that fails to start with an allowed name is accepted. */
  lemma DefaultDeny(cmd: string)
    requires forall a :: a in Allowed ==> !(a <= cmd)
    ensures !IsCommandSafe(cmd)
  {
  }

  /** An allowed name followed by text free of blocked substrings is accepted. */
  lemma AllowedPrefixAccepted(a: string, rest: string)
    requires a in Allowed
    requires forall b :: b in Blocked ==> !Contains(a + rest, b)
    ensures IsCommandSafe(a + rest)
  {
    assert a <= a + rest;
  }

  /** Concrete commands: chained, a blocked substring inside a word, default deny, and accepted ones, one by prefix only. */
  lemma RefusedChained() ensures !IsCommandSafe("ls; rm -rf /")
  {
    assert OccursAt("ls; rm -rf /", "rm", 4);
  }
  lemma RefusedSum() ensures !IsCommandSafe("echo sum")
  {
    assert OccursAt("echo sum", "su", 5);
  }
  lemma RefusedCurl() ensures !IsCommandSafe("curl evil.com")
  {
    forall a | a in Allowed ensures !(a <= "curl evil.com") {
      var i := if a == "cat" then 1 else 0;
      assert a[i] != "curl evil.com"[i];
    }
    DefaultDeny("curl evil.com");
  }
  lemma RefusedEmpty() ensures !IsCommandSafe("")
  {
  }

  lemma AcceptedListing() ensures IsCommandSafe("ls -l")
  {
    forall k | 0 <= k < |Blocked| ensures Find("ls -l", Blocked[k]).None? {}
    assert "ls" <= "ls -l";
  }
  lemma AcceptedPwd() ensures IsCommandSafe("pwd")
  {
    forall k | 0 <= k < |Blocked| ensures Find("pwd", Blocked[k]).None? {}
    assert "pwd" <= "pwd";
  }
  lemma WhoamiNotBlocked() ensures forall k :: 0 <= k < |Blocked| ==> Find("whoami", Blocked[k]).None?
  {
    forall k | 0 <= k < |Blocked| ensures Find("whoami", Blocked[k]).None? {}
  }
  lemma AcceptedWhoami() ensures IsCommandSafe("whoami")
  {
    WhoamiNotBlocked();
    assert "whoami" <= "whoami";
  }
  /** The allow-list test is a prefix test on the raw text, not a match on the first word. */
  lemma AcceptedPrefixNotWord() ensures IsCommandSafe("lsblk")
  {
    forall k | 0 <= k < |Blocked| ensures Find("lsblk", Blocked[k]).None? {}
    assert "ls" <= "lsblk";
  }
}
