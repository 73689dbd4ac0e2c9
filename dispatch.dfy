/**
 * What simple-function-call does with the parsed reply: each tool call is
 * taken in the order the parser produced; only calls named "shell_command"
 * are acted on; with confirmation enabled a line is read from the terminal
 * and only "y" or "Y" lets the command run. A reply without tool calls but
 * with content is shown as the response.
 *
 * The JSON parse of a call's arguments together with reading its "command"
 * member is the parameter `commandOf` (None when either throws), and
 * execute_shell_command is the parameter `execute`. The confirmation lines
 * are the sequence `replies`, read in order; once they run out getline
 * fails and the reply is the empty string.
 */
module ToolDispatch {
  import opened Text

  datatype ToolCall = ToolCall(name: string, arguments: string)

  /** What happened to one tool call. */
  datatype CallEvent =
    | Ignored                              // not shell_command
    | ArgumentError                        // "Error parsing arguments", then on to the next call
    | Cancelled(command: string)           // the reply was not "y" or "Y"
    | Ran(command: string, output: string)

  predicate IsShell(c: ToolCall) {
    c.name == "shell_command"
  }

  predicate Approves(reply: string) {
    reply == "y" || reply == "Y"
  }

  /** Whether handling this call reads a confirmation line. */
  predicate Prompts(c: ToolCall, confirm: bool, commandOf: string -> Option<string>) {
    confirm && IsShell(c) && commandOf(c.arguments).Some?
  }

  /** The confirmation lines read while handling the first `n` calls. */
  function PromptsBefore(calls: seq<ToolCall>, n: nat, confirm: bool, commandOf: string -> Option<string>): (p: nat)
    requires n <= |calls|
    ensures p <= n
  {
    if n == 0 then 0
    else PromptsBefore(calls, n - 1, confirm, commandOf) + (if Prompts(calls[n - 1], confirm, commandOf) then 1 else 0)
  }

  /** The `i`-th line read from the terminal, or "" once input has run out. */
  function ReplyAt(replies: seq<string>, i: nat): string {
    if i < |replies| then replies[i] else ""
  }

  /**
   * The decision for one call, given the confirmation line it would read.
   * A command runs exactly when the call is shell_command, its arguments
   * give a command, and confirmation is off or approved; the command run is
   * the one the arguments carry.
   */
  function Decide(c: ToolCall, confirm: bool, reply: string, commandOf: string -> Option<string>,
                  execute: string -> string): (ev: CallEvent)
    ensures ev.Ran? <==> IsShell(c) && commandOf(c.arguments).Some? && (!confirm || Approves(reply))
    ensures ev.Ran? ==> ev.command == commandOf(c.arguments).value && ev.output == execute(ev.command)
    ensures ev.Cancelled? <==> Prompts(c, confirm, commandOf) && !Approves(reply)
    ensures ev.ArgumentError? <==> IsShell(c) && commandOf(c.arguments).None?
    ensures ev == Ignored <==> !IsShell(c)
  {
    if !IsShell(c) then Ignored
    else match commandOf(c.arguments)
      case None => ArgumentError
      case Some(command) =>
        if confirm && !Approves(reply) then Cancelled(command)
        else Ran(command, execute(command))
  }

  /** What happens to call `k` of the list: its decision with the confirmation line it reads. */
  function EventAt(calls: seq<ToolCall>, k: nat, confirm: bool, replies: seq<string>,
                   commandOf: string -> Option<string>, execute: string -> string): CallEvent
    requires k < |calls|
  {
    Decide(calls[k], confirm, ReplyAt(replies, PromptsBefore(calls, k, confirm, commandOf)), commandOf, execute)
  }

  /**
   * The loop over the parsed tool calls. One event per call, in order;
   * each decided with the next unread confirmation line. The content is
   * shown only when there are no tool calls.
   */
  method DispatchToolCalls(calls: seq<ToolCall>, content: string, confirm: bool, replies: seq<string>,
                           commandOf: string -> Option<string>, execute: string -> string)
    returns (events: seq<CallEvent>, shown: Option<string>)
    ensures |events| == |calls|
    ensures forall k :: 0 <= k < |calls| ==> events[k] == EventAt(calls, k, confirm, replies, commandOf, execute)
    ensures shown.Some? <==> calls == [] && content != []
    ensures shown.Some? ==> shown.value == content
  {
    events := [];
    shown := None;
    if calls != [] {
      var read := 0;
      for k := 0 to |calls|
        invariant |events| == k
        invariant read == PromptsBefore(calls, k, confirm, commandOf)
        invariant forall j :: 0 <= j < k ==> events[j] == EventAt(calls, j, confirm, replies, commandOf, execute)
      {
        var call := calls[k];
        ghost var reply := ReplyAt(replies, read);
        var event;
        if call.name == "shell_command" {
          var command := commandOf(call.arguments);
          if command.None? {
            event := ArgumentError;
          } else {
            var approved := true;
            if confirm {
              var response := ReplyAt(replies, read);
              read := read + 1;
              approved := response == "y" || response == "Y";
            }
            if approved {
              event := Ran(command.value, execute(command.value));
            } else {
              event := Cancelled(command.value);
            }
          }
        } else {
          event := Ignored;
        }
        assert event == EventAt(calls, k, confirm, replies, commandOf, execute);
        assert read == PromptsBefore(calls, k + 1, confirm, commandOf);
        events := events + [event];
      }
    } else if content != [] {
      shown := Some(content);
    }
  }

  /** With confirmation off, every shell_command call whose arguments give a command is run, and nothing is read. */
  lemma NoConfirmationRunsAll(calls: seq<ToolCall>, replies: seq<string>, commandOf: string -> Option<string>,
                              execute: string -> string, k: nat)
    requires k < |calls| && IsShell(calls[k]) && commandOf(calls[k].arguments).Some?
    ensures EventAt(calls, k, false, replies, commandOf, execute)
            == Ran(commandOf(calls[k].arguments).value, execute(commandOf(calls[k].arguments).value))
  {
  }

  /** Once the confirmation lines run out, every further prompted call is cancelled. */
  lemma ExhaustedRepliesCancel(calls: seq<ToolCall>, replies: seq<string>,
                                                  commandOf: string -> Option<string>, execute: string -> string, k: nat)
    requires k < |calls| && Prompts(calls[k], true, commandOf)
    requires PromptsBefore(calls, k, true, commandOf) >= |replies|
    ensures EventAt(calls, k, true, replies, commandOf, execute) == Cancelled(commandOf(calls[k].arguments).value)
  {
  }

  /** Each prompted call reads a line of its own: the lines are consumed one per prompt, in order. */
  lemma {:induction false} PromptsAreCounted(calls: seq<ToolCall>, confirm: bool, commandOf: string -> Option<string>,
                                             j: nat, k: nat)
    requires j < k <= |calls| && Prompts(calls[j], confirm, commandOf)
    decreases k
    ensures PromptsBefore(calls, j, confirm, commandOf) < PromptsBefore(calls, k, confirm, commandOf)
  {
    if k - 1 > j {
      PromptsAreCounted(calls, confirm, commandOf, j, k - 1);
    }
  }

  /** With confirmation off no line is ever read. */
  lemma {:induction false} NothingReadWithoutConfirmation(calls: seq<ToolCall>, confirm: bool, commandOf: string -> Option<string>, n: nat)
    requires n <= |calls|
    decreases n
    ensures !confirm ==> PromptsBefore(calls, n, confirm, commandOf) == 0
  {
    if n > 0 {
      NothingReadWithoutConfirmation(calls, confirm, commandOf, n - 1);
    }
  }
}
