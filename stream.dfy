/**
  The fold of one completion stream into a turn (chat_open_ai.go, the
  `for stream.Next()` loop of Chat). The accumulator of the client library is
  abstract: each event already says what the accumulator reports for that chunk.
*/
module Stream {
  import opened Base

  /** A tool call as the turn returns it. */
  datatype ToolCall = ToolCall(id: string, name: string, arguments: string)

  /** A tool call the accumulator reports as just finished, with its stream index. */
  datatype FinishedToolCall = FinishedToolCall(index: nat, id: string, name: string, arguments: string)

  /**
    One chunk of the stream:
    `delta` is None when the chunk carries no choice, else the content delta of its first choice;
    `finishedContent` is the content the accumulator reports as just finished on this chunk;
    `finishedToolCall` is the tool call it reports as just finished on this chunk.
  */
  datatype Event = Event(
    delta: Option<string>,
    finishedContent: Option<string>,
    finishedToolCall: Option<FinishedToolCall>)

  /** The returned form of a finished tool call: its index is dropped. */
  function AsToolCall(f: FinishedToolCall): (c: ToolCall)
    ensures c.id == f.id && c.name == f.name && c.arguments == f.arguments
  {
    ToolCall(f.id, f.name, f.arguments)
  }

  /** Every content delta of the stream, concatenated. */
  function Deltas(events: seq<Event>): string
  {
    if events == [] then ""
    else
      var last := events[|events| - 1];
      Deltas(events[..|events| - 1]) + (match last.delta case None => "" case Some(d) => d)
  }

  /** The content of the latest "content finished" report, if any. */
  function LastFinished(events: seq<Event>): Option<string>
  {
    if events == [] then None
    else if events[|events| - 1].finishedContent.Some? then events[|events| - 1].finishedContent
    else LastFinished(events[..|events| - 1])
  }

  /** The finished tool calls, in the order of their reports. */
  function FinishedCalls(events: seq<Event>): seq<ToolCall>
  {
    if events == [] then []
    else
      var last := events[|events| - 1];
      FinishedCalls(events[..|events| - 1]) +
        (match last.finishedToolCall case None => [] case Some(f) => [AsToolCall(f)])
  }

  /** Whether some chunk carried a choice, so that the accumulator holds one. */
  predicate AnyChoice(events: seq<Event>)
  {
    exists k :: 0 <= k < |events| && events[k].delta.Some?
  }

  /** The content of the turn: the latest finished content, or, if nothing was
      reported finished, the concatenation of all deltas. */
  function TurnContent(events: seq<Event>): string
  {
    match LastFinished(events)
    case Some(c) => c
    case None => Deltas(events)
  }

  /** The fold as Chat runs it. The flag `finished` stays set once content has
      been reported finished, and from that chunk on deltas are not appended. */
  method FoldStream(events: seq<Event>) returns (result: string, toolCalls: seq<ToolCall>, choices: bool)
    ensures result == TurnContent(events)
    ensures toolCalls == FinishedCalls(events)
    ensures choices == AnyChoice(events)
  {
    result, toolCalls, choices := "", [], false;
    var finished := false;
    var i := 0;
    while i < |events|
      invariant 0 <= i <= |events|
      invariant finished == LastFinished(events[..i]).Some?
      invariant result == TurnContent(events[..i])
      invariant toolCalls == FinishedCalls(events[..i])
      invariant choices == AnyChoice(events[..i])
    {
      var chunk := events[i];
      assert events[..i + 1][..i] == events[..i];
      choices := choices || chunk.delta.Some?;
      if chunk.finishedContent.Some? {
        finished := true;
        result := chunk.finishedContent.value;
      }
      if chunk.finishedToolCall.Some? {
        var tool := chunk.finishedToolCall.value;
        toolCalls := toolCalls + [ToolCall(tool.id, tool.name, tool.arguments)];
      }
      if chunk.delta.Some? {
        if !finished {
          result := result + chunk.delta.value;
        }
      }
      i := i + 1;
    }
    assert events[..i] == events;
  }

  /** LastFinished is the report no later report follows, and None exactly when
      nothing was reported finished. */
  lemma {:induction false} LastFinishedIsLatest(events: seq<Event>)
    ensures LastFinished(events).None? <==>
      forall k :: 0 <= k < |events| ==> events[k].finishedContent.None?
    ensures LastFinished(events).Some? ==>
      exists k :: 0 <= k < |events| && events[k].finishedContent == LastFinished(events) &&
        forall j :: k < j < |events| ==> events[j].finishedContent.None?
  {
    if events != [] {
      var init := events[..|events| - 1];
      LastFinishedIsLatest(init);
      if events[|events| - 1].finishedContent.None? && LastFinished(init).Some? {
        var k :| 0 <= k < |init| && init[k].finishedContent == LastFinished(init) &&
          forall j :: k < j < |init| ==> init[j].finishedContent.None?;
        assert events[k] == init[k];
      }
      if events[|events| - 1].finishedContent.None? {
        assert forall k :: 0 <= k < |init| ==> events[k] == init[k];
      }
    }
  }

  /** Without a "content finished" report the content is the concatenation of every delta. */
  lemma NoFinishGivesAllDeltas(events: seq<Event>)
    requires forall k :: 0 <= k < |events| ==> events[k].finishedContent.None?
    ensures TurnContent(events) == Deltas(events)
  {
    LastFinishedIsLatest(events);
  }

  /** With one, the content is the latest report's content. */
  lemma FinishGivesLatestReport(events: seq<Event>, k: nat, c: string)
    requires k < |events| && events[k].finishedContent == Some(c)
    requires forall j :: k < j < |events| ==> events[j].finishedContent.None?
    ensures TurnContent(events) == c
  {
    LastFinishedIsLatest(events);
    var k' :| 0 <= k' < |events| && events[k'].finishedContent == LastFinished(events) &&
      forall j :: k' < j < |events| ==> events[j].finishedContent.None?;
    assert k' == k;
  }

  /** Rewriting any delta changes no "finished" report. */
  lemma {:induction false} LastFinishedIgnoresDeltas(events: seq<Event>, j: nat, d: Option<string>)
    requires j < |events|
    ensures LastFinished(events[j := events[j].(delta := d)]) == LastFinished(events)
  {
    var changed := events[j := events[j].(delta := d)];
    var n := |events| - 1;
    assert changed[n].finishedContent == events[n].finishedContent;
    if j < n {
      assert changed[..n] == events[..n][j := events[j].(delta := d)];
      LastFinishedIgnoresDeltas(events[..n], j, d);
    } else {
      assert changed[..n] == events[..n];
    }
  }

  /** Deltas on or after the chunk that finished the content are never appended:
      rewriting one leaves the content as it was. */
  lemma DeltaAfterFinishIgnored(events: seq<Event>, k: nat, j: nat, d: Option<string>)
    requires k <= j < |events|
    requires events[k].finishedContent.Some?
    ensures TurnContent(events[j := events[j].(delta := d)]) == TurnContent(events)
  {
    LastFinishedIgnoresDeltas(events, j, d);
    LastFinishedIsLatest(events);
  }

  /** The tool calls of a concatenation: those of the first part, then those of
      the second, so calls come out in the order they finished. */
  lemma {:induction false} FinishedCallsAppend(a: seq<Event>, b: seq<Event>)
    ensures FinishedCalls(a + b) == FinishedCalls(a) + FinishedCalls(b)
  {
    if b == [] {
      assert a + b == a;
    } else {
      assert (a + b)[..|a + b| - 1] == a + b[..|b| - 1];
      FinishedCallsAppend(a, b[..|b| - 1]);
    }
  }

  /** A call is returned exactly when some chunk reported it finished. */
  lemma {:induction false} FinishedCallsAreReported(events: seq<Event>, c: ToolCall)
    ensures c in FinishedCalls(events) <==>
      exists k :: 0 <= k < |events| && events[k].finishedToolCall.Some? &&
        AsToolCall(events[k].finishedToolCall.value) == c
  {
    if events != [] {
      var init := events[..|events| - 1];
      FinishedCallsAreReported(init, c);
      assert forall k :: 0 <= k < |init| ==> events[k] == init[k];
      if c in FinishedCalls(init) {
        var k :| 0 <= k < |init| && init[k].finishedToolCall.Some? &&
          AsToolCall(init[k].finishedToolCall.value) == c;
        assert events[k] == init[k];
      }
    }
  }

  /** Fragments "Hel" and "lo", a chunk reporting "Hello" finished, then a
      trailing fragment "!": the turn's content is "Hello". */
  lemma TrailingFragmentExample()
    ensures TurnContent([
      Event(Some("Hel"), None, None),
      Event(Some("lo"), None, None),
      Event(Some(""), Some("Hello"), None),
      Event(Some("!"), None, None)]) == "Hello"
  {
  }
}
