/**
 * clean_llm_response of the MCP agent: every chat-template marker is erased
 * from the model's text, one marker kind after another in a fixed order, and
 * the result is trimmed of " \n\r\t" at both ends.
 */
module ResponseCleaning {
  import opened Text

  /** The markers, in the order they are erased. */
  const Markers: seq<string> := ["<|im_start|>", "<|im_end|>", "<|assistant|>", "<|user|>", "assistant\n", "user\n"]

  lemma MarkersNonEmpty()
    ensures forall i :: 0 <= i < |Markers| ==> Markers[i] != []
  {
  }

  /** std::string::erase(pos, n): drop the `n` characters starting at `pos`. */
  function Erase(x: string, pos: nat, n: nat): (r: string)
    requires pos + n <= |x|
    ensures |r| == |x| - n
    ensures r[..pos] == x[..pos] && r[pos..] == x[pos + n..]
  {
    x[..pos] + x[pos + n..]
  }

  /** The inner while-loop: erase the first occurrence of `marker` until none is left. */
  function RemoveAll(s: string, marker: string): (r: string)
    requires marker != []
    decreases |s|
    ensures |r| <= |s|
    ensures !Contains(r, marker)
  {
    match Find(s, marker)
    case None => s
    case Some(pos) => RemoveAll(Erase(s, pos, |marker|), marker)
  }

  /** The outer for-loop over the markers, in order. */
  function StripMarkers(s: string, ms: seq<string>): (r: string)
    requires forall i :: 0 <= i < |ms| ==> ms[i] != []
    decreases |ms|
    ensures |r| <= |s|
    ensures ms != [] ==> !Contains(r, ms[|ms| - 1])
  {
    if ms == [] then s
    else if |ms| == 1 then RemoveAll(s, ms[0])
    else StripMarkers(RemoveAll(s, ms[0]), ms[1..])
  }

  /**
   * The cleaned response: no longer than the input, trimmed at both ends,
   * and free of the last marker erased.
   */
  function Clean(s: string): (r: string)
    ensures |r| <= |s|
    ensures r == [] || (!IsTrimSpace(r[0]) && !IsTrimSpace(r[|r| - 1]))
    ensures !Contains(r, "user\n")
  {
    MarkersNonEmpty();
    var stripped := StripMarkers(s, Markers);
    TrimKeepsAbsence(stripped, "user\n");
    Trim(stripped)
  }

  method CleanLlmResponse(response: string) returns (result: string)
    ensures result == Clean(response)
  {
    MarkersNonEmpty();
    result := response;
    for k := 0 to |Markers|
      invariant StripMarkers(result, Markers[k..]) == StripMarkers(response, Markers)
    {
      var marker := Markers[k];
      ghost var target := RemoveAll(result, marker);
      var pos := Find(result, marker);
      while pos.Some?
        invariant RemoveAll(result, marker) == target
        invariant pos == Find(result, marker)
        decreases |result|
      {
        result := Erase(result, pos.value, |marker|);
        pos := Find(result, marker);
      }
      assert Markers[k..][1..] == Markers[k + 1..];
    }
    result := Trim(result);
  }

  // ---------------------------------------------------------------------
  // A response made only of markers and whitespace cleans to nothing.
  // ---------------------------------------------------------------------

  /** A piece of model output that carries no content: a marker or one trimmed whitespace character. */
  predicate IsFiller(t: string) {
    t in Markers || (|t| == 1 && IsTrimSpace(t[0]))
  }

  /** `m[d..]` agrees with `t` from index `j + d` for as far as `t` reaches. */
  predicate Overlaps(t: string, m: string, j: nat, d: nat)
    requires d <= |m|
    decreases |m| - d
  {
    d == |m| || j + d >= |t| || (t[j + d] == m[d] && Overlaps(t, m, j, d + 1))
  }

  /** No occurrence of `m` can begin at index `j` or later inside `t`, whatever follows `t`. */
  predicate NoStartWithin(t: string, m: string, j: nat)
    decreases |t| - j
  {
    j >= |t| || (!Overlaps(t, m, j, 0) && NoStartWithin(t, m, j + 1))
  }

  lemma {:induction false} OccurrenceOverlaps(t: string, rest: string, m: string, k: nat, d: nat)
    requires OccursAt(t + rest, m, k) && d <= |m|
    decreases |m| - d
    ensures Overlaps(t, m, k, d)
  {
    if d < |m| && k + d < |t| {
      assert (t + rest)[k..k + |m|][d] == m[d];
      OccurrenceOverlaps(t, rest, m, k, d + 1);
    }
  }

  lemma {:induction false} NoStartWithinSound(t: string, rest: string, m: string, j: nat, k: nat)
    requires NoStartWithin(t, m, j) && j <= k < |t|
    decreases k - j
    ensures !OccursAt(t + rest, m, k)
  {
    if k == j {
      if OccursAt(t + rest, m, k) {
        OccurrenceOverlaps(t, rest, m, k, 0);
      }
    } else {
      NoStartWithinSound(t, rest, m, j + 1, k);
    }
  }

  /** An occurrence in `s` is an occurrence in `t + s`, shifted by `|t|`, and back. */
  lemma ShiftOccurrence(t: string, s: string, m: string, p: nat)
    ensures OccursAt(t + s, m, |t| + p) <==> OccursAt(s, m, p)
  {
    if p + |m| <= |s| {
      assert (t + s)[|t| + p..|t| + p + |m|] == s[p..p + |m|];
    }
  }

  /** Find returns the first occurrence, and npos when there is none. */
  lemma FindIsFirst(x: string, m: string, q: nat)
    requires OccursAt(x, m, q)
    requires forall i: nat :: i < q ==> !OccursAt(x, m, i)
    ensures Find(x, m) == Some(q)
  {
    var r := Find(x, m);
    assert r.Some?;
    assert !(r.value < q) && !(q < r.value);
  }

  lemma FindNone(x: string, m: string)
    requires forall i: nat :: !OccursAt(x, m, i)
    ensures Find(x, m) == None
  {
  }

  /** Find on `t + s` when no occurrence can begin inside `t`: the search moves into `s`. */
  lemma FindSkipsPrefix(t: string, s: string, m: string)
    requires NoStartWithin(t, m, 0)
    ensures Find(s, m).None? ==> Find(t + s, m).None?
    ensures Find(s, m).Some? ==> Find(t + s, m) == Some(|t| + Find(s, m).value)
  {
    match Find(s, m)
    case None =>
      forall i: nat ensures !OccursAt(t + s, m, i) {
        if i < |t| {
          NoStartWithinSound(t, s, m, 0, i);
        } else {
          ShiftOccurrence(t, s, m, i - |t|);
        }
      }
      FindNone(t + s, m);
    case Some(p) =>
      ShiftOccurrence(t, s, m, p);
      forall i: nat | i < |t| + p ensures !OccursAt(t + s, m, i) {
        if i < |t| {
          NoStartWithinSound(t, s, m, 0, i);
        } else {
          ShiftOccurrence(t, s, m, i - |t|);
        }
      }
      FindIsFirst(t + s, m, |t| + p);
  }

  lemma {:induction false} RemoveAllSkipsPrefix(t: string, s: string, m: string)
    requires m != [] && NoStartWithin(t, m, 0)
    decreases |s|, 1
    ensures RemoveAll(t + s, m) == t + RemoveAll(s, m)
  {
    FindSkipsPrefix(t, s, m);
    if Find(s, m).Some? {
      RemoveAllSkipsPrefixAt(t, s, m, Find(s, m).value);
    }
  }

  /** The inductive step of RemoveAllSkipsPrefix: the first occurrence in `s` is at `p`. */
  lemma {:induction false} RemoveAllSkipsPrefixAt(t: string, s: string, m: string, p: nat)
    requires m != [] && NoStartWithin(t, m, 0)
    requires Find(s, m) == Some(p) && Find(t + s, m) == Some(|t| + p)
    decreases |s|, 0
    ensures RemoveAll(t + s, m) == t + RemoveAll(s, m)
  {
    var s' := Erase(s, p, |m|);
    RemoveAllStep(t + s, m, |t| + p);
    EraseAfterPrefix(t, s, p, |m|);
    RemoveAllSkipsPrefix(t, s', m);
    RemoveAllStep(s, m, p);
  }

  /** One turn of the erase loop. */
  lemma RemoveAllStep(x: string, m: string, pos: nat)
    requires m != [] && Find(x, m) == Some(pos)
    ensures pos + |m| <= |x|
    ensures RemoveAll(x, m) == RemoveAll(Erase(x, pos, |m|), m)
  {
  }

  /** Erasing inside `s` leaves a prefix `t` in place. */
  lemma EraseAfterPrefix(t: string, s: string, p: nat, n: nat)
    requires p + n <= |s|
    ensures Erase(t + s, |t| + p, n) == t + Erase(s, p, n)
  {
    assert (t + s)[..|t| + p] == t + s[..p];
    assert (t + s)[|t| + p + n..] == s[p + n..];
  }

  lemma RemoveAllDropsLeading(m: string, s: string)
    requires m != []
    ensures RemoveAll(m + s, m) == RemoveAll(s, m)
  {
    assert OccursAt(m + s, m, 0);
    assert Erase(m + s, 0, |m|) == s;
  }

  /** The tokens of `ts` other than `m`, in order. */
  function Without(ts: seq<string>, m: string): (r: seq<string>)
    ensures forall t :: t in r <==> t in ts && t != m
  {
    if ts == [] then []
    else (if ts[0] == m then [] else [ts[0]]) + Without(ts[1..], m)
  }

  /** Erasing a marker from a run of fillers erases exactly its tokens. */
  lemma {:induction false} RemoveAllFillers(ts: seq<string>, m: string)
    requires m in Markers
    requires forall t :: t in ts ==> IsFiller(t)
    ensures RemoveAll(Concat(ts), m) == Concat(Without(ts, m))
  {
    MarkersNonEmpty();
    if ts != [] {
      assert ts[0] in ts;
      RemoveAllFillers(ts[1..], m);
      var w := Without(ts[1..], m);
      if ts[0] == m {
        assert Without(ts, m) == w;
        RemoveAllDropsLeading(m, Concat(ts[1..]));
      } else {
        assert Without(ts, m) == [ts[0]] + w;
        assert ([ts[0]] + w)[1..] == w;
        FillerNoStart(ts[0], m);
        RemoveAllSkipsPrefix(ts[0], Concat(ts[1..]), m);
      }
    }
  }

  /** No marker can begin inside a different marker, whatever follows it. */
  lemma NoStartInImStart()
    ensures NoStartWithin("<|im_start|>", "<|im_end|>", 0)
    ensures NoStartWithin("<|im_start|>", "<|assistant|>", 0)
    ensures NoStartWithin("<|im_start|>", "<|user|>", 0)
    ensures NoStartWithin("<|im_start|>", "assistant\n", 0)
    ensures NoStartWithin("<|im_start|>", "user\n", 0)
  {
    ImEndNotInImStart(); AssistantNotInImStart(); UserNotInImStart(); AssistantLineNotInImStart(); UserLineNotInImStart();
  }

  lemma NoStartInImEnd()
    ensures NoStartWithin("<|im_end|>", "<|im_start|>", 0)
    ensures NoStartWithin("<|im_end|>", "<|assistant|>", 0)
    ensures NoStartWithin("<|im_end|>", "<|user|>", 0)
    ensures NoStartWithin("<|im_end|>", "assistant\n", 0)
    ensures NoStartWithin("<|im_end|>", "user\n", 0)
  {
    ImStartNotInImEnd(); AssistantNotInImEnd(); UserNotInImEnd(); AssistantLineNotInImEnd(); UserLineNotInImEnd();
  }

  lemma NoStartInAssistant()
    ensures NoStartWithin("<|assistant|>", "<|im_start|>", 0)
    ensures NoStartWithin("<|assistant|>", "<|im_end|>", 0)
    ensures NoStartWithin("<|assistant|>", "<|user|>", 0)
    ensures NoStartWithin("<|assistant|>", "assistant\n", 0)
    ensures NoStartWithin("<|assistant|>", "user\n", 0)
  {
    ImStartNotInAssistant(); ImEndNotInAssistant(); UserNotInAssistant(); AssistantLineNotInAssistant(); UserLineNotInAssistant();
  }

  lemma NoStartInUser()
    ensures NoStartWithin("<|user|>", "<|im_start|>", 0)
    ensures NoStartWithin("<|user|>", "<|im_end|>", 0)
    ensures NoStartWithin("<|user|>", "<|assistant|>", 0)
    ensures NoStartWithin("<|user|>", "assistant\n", 0)
    ensures NoStartWithin("<|user|>", "user\n", 0)
  {
    ImStartNotInUser(); ImEndNotInUser(); AssistantNotInUser(); AssistantLineNotInUser(); UserLineNotInUser();
  }

  lemma NoStartInAssistantLine()
    ensures NoStartWithin("assistant\n", "<|im_start|>", 0)
    ensures NoStartWithin("assistant\n", "<|im_end|>", 0)
    ensures NoStartWithin("assistant\n", "<|assistant|>", 0)
    ensures NoStartWithin("assistant\n", "<|user|>", 0)
    ensures NoStartWithin("assistant\n", "user\n", 0)
  {
    ImStartNotInAssistantLine(); ImEndNotInAssistantLine(); AssistantNotInAssistantLine(); UserNotInAssistantLine(); UserLineNotInAssistantLine();
  }

  lemma NoStartInUserLine()
    ensures NoStartWithin("user\n", "<|im_start|>", 0)
    ensures NoStartWithin("user\n", "<|im_end|>", 0)
    ensures NoStartWithin("user\n", "<|assistant|>", 0)
    ensures NoStartWithin("user\n", "<|user|>", 0)
    ensures NoStartWithin("user\n", "assistant\n", 0)
  {
    ImStartNotInUserLine(); ImEndNotInUserLine(); AssistantNotInUserLine(); UserNotInUserLine(); AssistantLineNotInUserLine();
  }

  // One pair of markers per lemma, each checked on the literals by unfolding NoStartWithin.
  // The pairs are spelled out separately because unfolding all thirty
  // literal comparisons in one proof is far more than the solver handles at
  // once; each pair alone is a few small character comparisons.

  lemma ImEndNotInImStart()
    ensures NoStartWithin("<|im_start|>", "<|im_end|>", 0)
  {
    assert !Overlaps("<|im_start|>", "<|im_end|>", 0, 0);
    assert NoStartWithin("<|im_start|>", "<|im_end|>", 8);
    assert NoStartWithin("<|im_start|>", "<|im_end|>", 4);
  }

  lemma AssistantNotInImStart()
    ensures NoStartWithin("<|im_start|>", "<|assistant|>", 0)
  {
    assert !Overlaps("<|im_start|>", "<|assistant|>", 0, 0);
    assert NoStartWithin("<|im_start|>", "<|assistant|>", 8);
    assert NoStartWithin("<|im_start|>", "<|assistant|>", 4);
  }

  lemma UserNotInImStart()
    ensures NoStartWithin("<|im_start|>", "<|user|>", 0)
  {
    assert !Overlaps("<|im_start|>", "<|user|>", 0, 0);
    assert NoStartWithin("<|im_start|>", "<|user|>", 8);
    assert NoStartWithin("<|im_start|>", "<|user|>", 4);
  }

  lemma AssistantLineNotInImStart()
    ensures NoStartWithin("<|im_start|>", "assistant\n", 0)
  {
    assert !Overlaps("<|im_start|>", "assistant\n", 7, 0);
    assert NoStartWithin("<|im_start|>", "assistant\n", 8);
    assert NoStartWithin("<|im_start|>", "assistant\n", 4);
  }

  lemma UserLineNotInImStart()
    ensures NoStartWithin("<|im_start|>", "user\n", 0)
  {
    assert NoStartWithin("<|im_start|>", "user\n", 8);
    assert NoStartWithin("<|im_start|>", "user\n", 4);
  }

  lemma ImStartNotInImEnd()
    ensures NoStartWithin("<|im_end|>", "<|im_start|>", 0)
  {
    assert !Overlaps("<|im_end|>", "<|im_start|>", 0, 0);
    assert NoStartWithin("<|im_end|>", "<|im_start|>", 8);
    assert NoStartWithin("<|im_end|>", "<|im_start|>", 4);
  }

  lemma AssistantNotInImEnd()
    ensures NoStartWithin("<|im_end|>", "<|assistant|>", 0)
  {
    assert !Overlaps("<|im_end|>", "<|assistant|>", 0, 0);
    assert NoStartWithin("<|im_end|>", "<|assistant|>", 8);
    assert NoStartWithin("<|im_end|>", "<|assistant|>", 4);
  }

  lemma UserNotInImEnd()
    ensures NoStartWithin("<|im_end|>", "<|user|>", 0)
  {
    assert !Overlaps("<|im_end|>", "<|user|>", 0, 0);
    assert NoStartWithin("<|im_end|>", "<|user|>", 8);
    assert NoStartWithin("<|im_end|>", "<|user|>", 4);
  }

  lemma AssistantLineNotInImEnd()
    ensures NoStartWithin("<|im_end|>", "assistant\n", 0)
  {
    assert NoStartWithin("<|im_end|>", "assistant\n", 8);
    assert NoStartWithin("<|im_end|>", "assistant\n", 4);
  }

  lemma UserLineNotInImEnd()
    ensures NoStartWithin("<|im_end|>", "user\n", 0)
  {
    assert NoStartWithin("<|im_end|>", "user\n", 8);
    assert NoStartWithin("<|im_end|>", "user\n", 4);
  }

  lemma ImStartNotInAssistant()
    ensures NoStartWithin("<|assistant|>", "<|im_start|>", 0)
  {
    assert !Overlaps("<|assistant|>", "<|im_start|>", 0, 0);
    assert NoStartWithin("<|assistant|>", "<|im_start|>", 12);
    assert NoStartWithin("<|assistant|>", "<|im_start|>", 8);
    assert NoStartWithin("<|assistant|>", "<|im_start|>", 4);
  }

  lemma ImEndNotInAssistant()
    ensures NoStartWithin("<|assistant|>", "<|im_end|>", 0)
  {
    assert !Overlaps("<|assistant|>", "<|im_end|>", 0, 0);
    assert NoStartWithin("<|assistant|>", "<|im_end|>", 12);
    assert NoStartWithin("<|assistant|>", "<|im_end|>", 8);
    assert NoStartWithin("<|assistant|>", "<|im_end|>", 4);
  }

  lemma UserNotInAssistant()
    ensures NoStartWithin("<|assistant|>", "<|user|>", 0)
  {
    assert !Overlaps("<|assistant|>", "<|user|>", 0, 0);
    assert NoStartWithin("<|assistant|>", "<|user|>", 12);
    assert NoStartWithin("<|assistant|>", "<|user|>", 8);
    assert NoStartWithin("<|assistant|>", "<|user|>", 4);
  }

  lemma AssistantLineNotInAssistant()
    ensures NoStartWithin("<|assistant|>", "assistant\n", 0)
  {
    assert !Overlaps("<|assistant|>", "assistant\n", 2, 0);
    assert !Overlaps("<|assistant|>", "assistant\n", 8, 0);
    assert NoStartWithin("<|assistant|>", "assistant\n", 12);
    assert NoStartWithin("<|assistant|>", "assistant\n", 8);
    assert NoStartWithin("<|assistant|>", "assistant\n", 4);
  }

  lemma UserLineNotInAssistant()
    ensures NoStartWithin("<|assistant|>", "user\n", 0)
  {
    assert NoStartWithin("<|assistant|>", "user\n", 12);
    assert NoStartWithin("<|assistant|>", "user\n", 8);
    assert NoStartWithin("<|assistant|>", "user\n", 4);
  }

  lemma ImStartNotInUser()
    ensures NoStartWithin("<|user|>", "<|im_start|>", 0)
  {
    assert !Overlaps("<|user|>", "<|im_start|>", 0, 0);
    assert NoStartWithin("<|user|>", "<|im_start|>", 4);
  }

  lemma ImEndNotInUser()
    ensures NoStartWithin("<|user|>", "<|im_end|>", 0)
  {
    assert !Overlaps("<|user|>", "<|im_end|>", 0, 0);
    assert NoStartWithin("<|user|>", "<|im_end|>", 4);
  }

  lemma AssistantNotInUser()
    ensures NoStartWithin("<|user|>", "<|assistant|>", 0)
  {
    assert !Overlaps("<|user|>", "<|assistant|>", 0, 0);
    assert NoStartWithin("<|user|>", "<|assistant|>", 4);
  }

  lemma AssistantLineNotInUser()
    ensures NoStartWithin("<|user|>", "assistant\n", 0)
  {
    assert NoStartWithin("<|user|>", "assistant\n", 4);
  }

  lemma UserLineNotInUser()
    ensures NoStartWithin("<|user|>", "user\n", 0)
  {
    assert !Overlaps("<|user|>", "user\n", 2, 0);
    assert NoStartWithin("<|user|>", "user\n", 4);
  }

  lemma ImStartNotInAssistantLine()
    ensures NoStartWithin("assistant\n", "<|im_start|>", 0)
  {
    assert NoStartWithin("assistant\n", "<|im_start|>", 8);
    assert NoStartWithin("assistant\n", "<|im_start|>", 4);
  }

  lemma ImEndNotInAssistantLine()
    ensures NoStartWithin("assistant\n", "<|im_end|>", 0)
  {
    assert NoStartWithin("assistant\n", "<|im_end|>", 8);
    assert NoStartWithin("assistant\n", "<|im_end|>", 4);
  }

  lemma AssistantNotInAssistantLine()
    ensures NoStartWithin("assistant\n", "<|assistant|>", 0)
  {
    assert NoStartWithin("assistant\n", "<|assistant|>", 8);
    assert NoStartWithin("assistant\n", "<|assistant|>", 4);
  }

  lemma UserNotInAssistantLine()
    ensures NoStartWithin("assistant\n", "<|user|>", 0)
  {
    assert NoStartWithin("assistant\n", "<|user|>", 8);
    assert NoStartWithin("assistant\n", "<|user|>", 4);
  }

  lemma UserLineNotInAssistantLine()
    ensures NoStartWithin("assistant\n", "user\n", 0)
  {
    assert NoStartWithin("assistant\n", "user\n", 8);
    assert NoStartWithin("assistant\n", "user\n", 4);
  }

  lemma ImStartNotInUserLine()
    ensures NoStartWithin("user\n", "<|im_start|>", 0)
  {
    assert NoStartWithin("user\n", "<|im_start|>", 4);
  }

  lemma ImEndNotInUserLine()
    ensures NoStartWithin("user\n", "<|im_end|>", 0)
  {
    assert NoStartWithin("user\n", "<|im_end|>", 4);
  }

  lemma AssistantNotInUserLine()
    ensures NoStartWithin("user\n", "<|assistant|>", 0)
  {
    assert NoStartWithin("user\n", "<|assistant|>", 4);
  }

  lemma UserNotInUserLine()
    ensures NoStartWithin("user\n", "<|user|>", 0)
  {
    assert NoStartWithin("user\n", "<|user|>", 4);
  }

  lemma AssistantLineNotInUserLine()
    ensures NoStartWithin("user\n", "assistant\n", 0)
  {
    assert NoStartWithin("user\n", "assistant\n", 4);
  }

  /** No marker can begin inside another filler. */
  lemma FillerNoStart(t: string, m: string)
    requires IsFiller(t) && m in Markers && t != m
    ensures NoStartWithin(t, m, 0)
  {
    if t == "<|im_start|>" {
      NoStartInImStart();
    } else if t == "<|im_end|>" {
      NoStartInImEnd();
    } else if t == "<|assistant|>" {
      NoStartInAssistant();
    } else if t == "<|user|>" {
      NoStartInUser();
    } else if t == "assistant\n" {
      NoStartInAssistantLine();
    } else if t == "user\n" {
      NoStartInUserLine();
    } else {
      assert m[0] == '<' || m[0] == 'a' || m[0] == 'u';
      assert !Overlaps(t, m, 0, 0);
    }
  }

  lemma {:induction false} StripFillers(ts: seq<string>, ms: seq<string>)
    requires forall m :: m in ms ==> m in Markers
    requires forall t :: t in ts ==> IsFiller(t)
    decreases |ms|
    ensures forall i :: 0 <= i < |ms| ==> ms[i] != []
    ensures exists us :: StripMarkers(Concat(ts), ms) == Concat(us)
                         && forall u :: u in us ==> u in ts && u !in ms
  {
    MarkersNonEmpty();
    if ms == [] {
      assert StripMarkers(Concat(ts), ms) == Concat(ts);
    } else {
      RemoveAllFillers(ts, ms[0]);
      var ws := Without(ts, ms[0]);
      StripFillers(ws, ms[1..]);
      if |ms| == 1 {
        assert StripMarkers(Concat(ts), ms) == Concat(ws);
      } else {
        var us :| StripMarkers(Concat(ws), ms[1..]) == Concat(us)
                  && forall u :: u in us ==> u in ws && u !in ms[1..];
        assert StripMarkers(Concat(ts), ms) == Concat(us);
      }
    }
  }

  lemma {:induction false} ConcatOfSpaces(us: seq<string>)
    requires forall u :: u in us ==> |u| == 1 && IsTrimSpace(u[0])
    ensures forall k :: 0 <= k < |Concat(us)| ==> IsTrimSpace(Concat(us)[k])
  {
    if us != [] {
      assert us[0] in us;
      ConcatOfSpaces(us[1..]);
      assert Concat(us) == us[0] + Concat(us[1..]);
      forall k | 0 <= k < |Concat(us)| ensures IsTrimSpace(Concat(us)[k]) {
        if k > 0 {
          assert Concat(us)[k] == Concat(us[1..])[k - 1];
        }
      }
    }
  }

  /** A response made only of template markers and whitespace, in any order, cleans to the empty string. */
  lemma FillerOnlyCleansToEmpty(ts: seq<string>)
    requires forall t :: t in ts ==> IsFiller(t)
    ensures Clean(Concat(ts)) == []
  {
    StripFillers(ts, Markers);
    var us :| StripMarkers(Concat(ts), Markers) == Concat(us)
              && forall u :: u in us ==> u in ts && u !in Markers;
    ConcatOfSpaces(us);
  }

  // ---------------------------------------------------------------------
  // Erasing a later marker can splice an earlier one back together.
  // ---------------------------------------------------------------------

  /**
   * "<|im_<|im_end|>start|>" holds no "<|im_start|>" when that marker's pass
   * runs; the "<|im_end|>" pass then joins the halves around it, and the
   * earlier marker survives into the result.
   */
  lemma SplicedMarkerSurvives()
    ensures Clean("<|im_<|im_end|>start|>") == "<|im_start|>"
  {
    MarkersNonEmpty();
    SpliceFirstPass();
    SpliceSecondPass();
    SpliceLaterPasses();
    assert StripMarkers("<|im_<|im_end|>start|>", Markers[1..]) == StripMarkers("<|im_start|>", Markers[2..]);
    TrimOfTrimmed("<|im_start|>");
  }

  lemma SpliceFirstPass()
    ensures RemoveAll("<|im_<|im_end|>start|>", "<|im_start|>") == "<|im_<|im_end|>start|>"
  {
    assert NoStartWithin("<|im_<|im_end|>start|>", "<|im_start|>", 18);
    assert NoStartWithin("<|im_<|im_end|>start|>", "<|im_start|>", 14);
    assert NoStartWithin("<|im_<|im_end|>start|>", "<|im_start|>", 10);
    assert NoStartWithin("<|im_<|im_end|>start|>", "<|im_start|>", 6);
    assert !Overlaps("<|im_<|im_end|>start|>", "<|im_start|>", 5, 0);
    assert !Overlaps("<|im_<|im_end|>start|>", "<|im_start|>", 0, 0);
    NotFound("<|im_<|im_end|>start|>", "<|im_start|>");
  }

  lemma SpliceSecondPass()
    ensures RemoveAll("<|im_<|im_end|>start|>", "<|im_end|>") == "<|im_start|>"
  {
    assert "<|im_<|im_end|>start|>"[5..15] == "<|im_end|>";
    assert OccursAt("<|im_<|im_end|>start|>", "<|im_end|>", 5);
    forall i: nat | i < 5 ensures !OccursAt("<|im_<|im_end|>start|>", "<|im_end|>", i) {
      var d := if i == 0 then 5 else 0;
      assert "<|im_<|im_end|>start|>"[i + d] != "<|im_end|>"[d];
    }
    FindIsFirst("<|im_<|im_end|>start|>", "<|im_end|>", 5);
    RemoveAllStep("<|im_<|im_end|>start|>", "<|im_end|>", 5);
    assert Erase("<|im_<|im_end|>start|>", 5, 10) == "<|im_<|im_end|>start|>"[..5] + "<|im_<|im_end|>start|>"[15..];
    assert "<|im_<|im_end|>start|>"[..5] + "<|im_<|im_end|>start|>"[15..] == "<|im_start|>";
    NoStartInImStart();
    NotFound("<|im_start|>", "<|im_end|>");
  }

  lemma SpliceLaterPasses()
    ensures forall i :: 0 <= i < |Markers[2..]| ==> Markers[2..][i] != []
    ensures StripMarkers("<|im_start|>", Markers[2..]) == "<|im_start|>"
  {
    MarkersNonEmpty();
    NoStartInImStart();
    NotFound("<|im_start|>", "<|assistant|>");
    NotFound("<|im_start|>", "<|user|>");
    NotFound("<|im_start|>", "assistant\n");
    NotFound("<|im_start|>", "user\n");
    assert Markers[2..] == ["<|assistant|>", "<|user|>", "assistant\n", "user\n"];
    StripAbsent("<|im_start|>", Markers[2..]);
  }

  /** With no occurrence of `m` in `x`, find returns npos. */
  lemma NotFound(x: string, m: string)
    requires m != [] && NoStartWithin(x, m, 0)
    ensures Find(x, m) == None
  {
    forall i: nat ensures !OccursAt(x, m, i) {
      if i < |x| {
        NoStartWithinSound(x, [], m, 0, i);
        assert x + [] == x;
      }
    }
    FindNone(x, m);
  }

  /** No marker occurs in `s`, stated so that it can be checked on a literal character by character. */
  predicate MarkerFree(s: string) {
    NoStartWithin(s, "<|im_start|>", 0) && NoStartWithin(s, "<|im_end|>", 0)
    && NoStartWithin(s, "<|assistant|>", 0) && NoStartWithin(s, "<|user|>", 0)
    && NoStartWithin(s, "assistant\n", 0) && NoStartWithin(s, "user\n", 0)
  }

  /** No occurrence of `m` can begin where its first character does not appear. */
  lemma {:induction false} NoStartByFirst(s: string, m: string, j: nat)
    requires m != []
    requires forall i :: j <= i < |s| ==> s[i] != m[0]
    decreases |s| - j
    ensures NoStartWithin(s, m, j)
  {
    if j < |s| {
      NoStartByFirst(s, m, j + 1);
    }
  }

  /** Every marker begins with '<', 'a' or 'u'; text without those characters holds none. */
  lemma MarkerFreeByLetters(s: string)
    requires forall i :: 0 <= i < |s| ==> s[i] != '<' && s[i] != 'a' && s[i] != 'u'
    ensures MarkerFree(s)
  {
    NoStartByFirst(s, "<|im_start|>", 0);
    NoStartByFirst(s, "<|im_end|>", 0);
    NoStartByFirst(s, "<|assistant|>", 0);
    NoStartByFirst(s, "<|user|>", 0);
    NoStartByFirst(s, "assistant\n", 0);
    NoStartByFirst(s, "user\n", 0);
  }

  /** Text without markers and without surrounding whitespace comes through cleaning unchanged. */
  lemma CleanOfPlain(s: string)
    requires MarkerFree(s)
    requires s == [] || (!IsTrimSpace(s[0]) && !IsTrimSpace(s[|s| - 1]))
    ensures Clean(s) == s
  {
    MarkersNonEmpty();
    forall k | 0 <= k < |Markers| ensures Find(s, Markers[k]) == None {
      NotFound(s, Markers[k]);
    }
    StripAbsent(s, Markers);
    TrimOfTrimmed(s);
  }

  /** Markers that do not occur leave the text unchanged. */
  lemma {:induction false} StripAbsent(s: string, ms: seq<string>)
    requires forall i :: 0 <= i < |ms| ==> ms[i] != [] && Find(s, ms[i]) == None
    decreases |ms|
    ensures StripMarkers(s, ms) == s
  {
    if |ms| > 1 {
      StripAbsent(s, ms[1..]);
    }
  }
}
