/**
 * Reconstruction of full-state responses from the server-sent-event stream
 * (customApiContentGenerator.ts, the read loop of generateContentStreamInternal).
 *
 * The pure functions below say what one line, a list of lines and one read do;
 * the class `StreamReconstructor` holds the loop's three variables and is proved
 * to follow them. The main theorem is that where the reads split the text does
 * not matter: only the complete lines of the concatenated text are handled.
 */
module StreamReconstruction {
  import opened Wrappers
  import opened JsonModel
  import opened TextUtil
  import opened Canonical
  import opened ResponseTranslation

  const DataPrefix: string := "data: "
  const DoneSentinel: string := "[DONE]"

  datatype DeltaCall = DeltaCall(name: Option<string>, arguments: Option<string>)
  datatype Delta = Delta(role: Option<string>, content: Option<string>, functionCall: Option<DeltaCall>)
  datatype StreamChoice = StreamChoice(index: int, delta: Delta, finishReason: Option<string>)
  /** One decoded event payload. */
  datatype StreamChunk = StreamChunk(id: string, model: string, choices: seq<StreamChoice>)

  /**
   * `decodeChunk` is `JSON.parse` of a payload read as a stream chunk: `None` when
   * parsing throws or a choice has no `delta`. `parse` is `JSON.parse` of arguments.
   */
  datatype StreamCodec = StreamCodec(decodeChunk: string -> Option<StreamChunk>, parse: string -> Option<Json>)

  /** The function call assembled so far. */
  datatype CallAccumulator = CallAccumulator(name: string, arguments: string)
  /** The text and the function call assembled so far. */
  datatype Accumulators = Accumulators(content: string, call: Option<CallAccumulator>)

  const NoAccumulation: Accumulators := Accumulators("", None)

  datatype Stepped = Stepped(acc: Accumulators, snapshot: Option<Response>)
  datatype Processed = Processed(acc: Accumulators, snapshots: seq<Response>)
  /** The loop's state between reads: the unterminated tail and the accumulators. */
  datatype StreamState = StreamState(buffer: string, acc: Accumulators)
  datatype Fed = Fed(state: StreamState, snapshots: seq<Response>)

  const InitialState: StreamState := StreamState("", NoAccumulation)

  /**
   * The accumulators only grow: the text and the arguments are only extended, a
   * call once started stays, and its name, once set, is never cleared.
   */
  ghost predicate Grows(a: Accumulators, b: Accumulators)
  {
    && a.content <= b.content
    && (a.call.Some? ==>
          && b.call.Some?
          && a.call.value.arguments <= b.call.value.arguments
          && (b.call.value.name == a.call.value.name || b.call.value.name != ""))
  }

  lemma GrowsTransitive(a: Accumulators, b: Accumulators, c: Accumulators)
    requires Grows(a, b) && Grows(b, c)
    ensures Grows(a, c)
  {
  }

  /** The accumulators after one delta. */
  function Accumulate(acc: Accumulators, delta: Delta): (r: Accumulators)
    ensures Grows(acc, r)
    ensures delta.content.Some? ==> r.content == acc.content + delta.content.value
    ensures delta.content.None? ==> r.content == acc.content
    ensures delta.functionCall.None? ==> r.call == acc.call
    ensures delta.functionCall.Some? ==>
      var base := acc.call.GetOr(CallAccumulator("", ""));
      var dc := delta.functionCall.value;
      && r.call.Some?
      && r.call.value.name == (if dc.name.Some? && dc.name.value != "" then dc.name.value else base.name)
      && r.call.value.arguments == base.arguments + dc.arguments.GetOr("")
  {
    var content :=
      if delta.content.Some? && delta.content.value != "" then acc.content + delta.content.value
      else acc.content;
    var call :=
      match delta.functionCall
      case None => acc.call
      case Some(dc) =>
        var base := acc.call.GetOr(CallAccumulator("", ""));
        var name := if dc.name.Some? && dc.name.value != "" then dc.name.value else base.name;
        var arguments :=
          if dc.arguments.Some? && dc.arguments.value != "" then base.arguments + dc.arguments.value
          else base.arguments;
        Some(CallAccumulator(name, arguments));
    assert delta.content == Some("") ==> acc.content + delta.content.value == acc.content;
    assert delta.functionCall.Some? && delta.functionCall.value.arguments.GetOr("") == "" ==>
      acc.call.GetOr(CallAccumulator("", "")).arguments + "" == acc.call.GetOr(CallAccumulator("", "")).arguments;
    Accumulators(content, call)
  }

  /** The call reported in a snapshot: only once it has a name. */
  predicate HasNamedCall(acc: Accumulators)
  {
    acc.call.Some? && acc.call.value.name != ""
  }

  /** The parsed arguments of the call: `{}` while no argument text has arrived. */
  function CallArguments(parse: string -> Option<Json>, call: CallAccumulator): Option<Json>
  {
    if call.arguments == "" then Some(EmptyObject) else parse(call.arguments)
  }

  /**
   * The snapshot of the whole state so far: a text part when there is text, a call
   * part when the call has a name. `None` when the arguments so far are not JSON.
   */
  function Snapshot(parse: string -> Option<Json>, acc: Accumulators, finishReason: Option<string>): (r: Option<Response>)
    ensures r.None? <==> HasNamedCall(acc) && CallArguments(parse, acc.call.value).None?
    ensures r.Some? ==>
      && |r.value.candidates| == 1
      && r.value.candidates[0].role == "model"
      && r.value.candidates[0].index == 0
      && r.value.candidates[0].finishReason == finishReason
      && r.value.usageMetadata.None?
      && r.value.candidates[0].parts ==
           (if acc.content != "" then [TextPart(acc.content)] else []) +
           (if HasNamedCall(acc)
            then [CallPart(FunctionCall(acc.call.value.name, CallArguments(parse, acc.call.value).value))]
            else [])
      && ResponseText(r.value) == (if acc.content != "" then Some(acc.content) else None)
      && ResponseFunctionCalls(r.value) ==
           (if HasNamedCall(acc)
            then Some([FunctionCall(acc.call.value.name, CallArguments(parse, acc.call.value).value)])
            else None)
  {
    var textParts := if acc.content != "" then [TextPart(acc.content)] else [];
    assert PresentCalls(textParts) == [] by {
      if textParts != [] {
        assert textParts[..0] == [];
      }
    }
    if !HasNamedCall(acc) then
      Some(Response([Candidate("model", textParts, finishReason, 0)], None))
    else
      match CallArguments(parse, acc.call.value)
      case None => None
      case Some(args) =>
        var parts := textParts + [CallPart(FunctionCall(acc.call.value.name, args))];
        assert parts[..|parts| - 1] == textParts;
        assert PresentCalls(parts) == [FunctionCall(acc.call.value.name, args)];
        Some(Response([Candidate("model", parts, finishReason, 0)], None))
  }

  /** The payload of a data line. */
  function Payload(line: string): string
    requires StartsWith(line, DataPrefix)
  {
    line[|DataPrefix|..]
  }

  /**
   * A line that changes nothing and yields nothing: not a data line, the `[DONE]`
   * sentinel, a payload that does not decode, or a chunk without choices.
   */
  predicate Ignored(codec: StreamCodec, line: string)
  {
    || !StartsWith(line, DataPrefix)
    || Payload(line) == DoneSentinel
    || codec.decodeChunk(Payload(line)).None?
    || |codec.decodeChunk(Payload(line)).value.choices| == 0
  }

  /** The first choice of a line that is not ignored. */
  function FirstChoice(codec: StreamCodec, line: string): StreamChoice
    requires !Ignored(codec, line)
  {
    codec.decodeChunk(Payload(line)).value.choices[0]
  }

  /**
   * One complete line. An ignored line changes nothing. Otherwise the first choice's
   * delta is accumulated and the snapshot of the new state is yielded, unless the
   * arguments are not yet JSON, in which case the update stays and nothing is yielded.
   */
  function Step(codec: StreamCodec, acc: Accumulators, line: string): (r: Stepped)
    ensures Grows(acc, r.acc)
    ensures Ignored(codec, line) ==> r == Stepped(acc, None)
    ensures !Ignored(codec, line) ==>
      && r.acc == Accumulate(acc, FirstChoice(codec, line).delta)
      && (r.snapshot.None? <==> HasNamedCall(r.acc) && CallArguments(codec.parse, r.acc.call.value).None?)
      && r.snapshot == Snapshot(codec.parse, r.acc, FirstChoice(codec, line).finishReason)
  {
    if Ignored(codec, line) then Stepped(acc, None)
    else
      var choice := FirstChoice(codec, line);
      var acc' := Accumulate(acc, choice.delta);
      Stepped(acc', Snapshot(codec.parse, acc', choice.finishReason))
  }

  /** The lines handled in order, each yielding at most one snapshot. */
  function ProcessLines(codec: StreamCodec, acc: Accumulators, lines: seq<string>): Processed
  {
    if |lines| == 0 then Processed(acc, [])
    else
      var p := ProcessLines(codec, acc, lines[..|lines| - 1]);
      var s := Step(codec, p.acc, lines[|lines| - 1]);
      Processed(s.acc, p.snapshots + (if s.snapshot.Some? then [s.snapshot.value] else []))
  }

  /** The lines of a text that a newline terminates. */
  function CompleteLines(s: string): seq<string>
  {
    var pieces := Split(s, '\n');
    pieces[..|pieces| - 1]
  }

  /** The text after the last newline. */
  function Remainder(s: string): (r: string)
    ensures '\n' !in r
  {
    var pieces := Split(s, '\n');
    SplitPiecesHaveNoSeparator(s, '\n');
    pieces[|pieces| - 1]
  }

  /** One read: the carried text and the chunk are split; the tail is carried, the lines handled. */
  function FeedSpec(codec: StreamCodec, st: StreamState, chunk: string): Fed
  {
    var text := st.buffer + chunk;
    var p := ProcessLines(codec, st.acc, CompleteLines(text));
    Fed(StreamState(Remainder(text), p.acc), p.snapshots)
  }

  /** The reads handled in order. */
  function FeedAll(codec: StreamCodec, st: StreamState, chunks: seq<string>): Fed
  {
    if chunks == [] then Fed(st, [])
    else
      var f := FeedAll(codec, st, chunks[..|chunks| - 1]);
      var g := FeedSpec(codec, f.state, chunks[|chunks| - 1]);
      Fed(g.state, f.snapshots + g.snapshots)
  }

  /** The concatenation of the reads. */
  function Concat(chunks: seq<string>): string
  {
    if chunks == [] then "" else Concat(chunks[..|chunks| - 1]) + chunks[|chunks| - 1]
  }

  /** Handling two lists of lines one after the other is handling their concatenation. */
  lemma {:induction false} ProcessLinesAppend(codec: StreamCodec, acc: Accumulators, a: seq<string>, b: seq<string>)
    ensures var pa := ProcessLines(codec, acc, a);
      var pb := ProcessLines(codec, pa.acc, b);
      ProcessLines(codec, acc, a + b) == Processed(pb.acc, pa.snapshots + pb.snapshots)
  {
    if b == [] {
      assert a + b == a;
    } else {
      var init := b[..|b| - 1];
      ProcessLinesAppend(codec, acc, a, init);
      assert (a + b)[..|a + b| - 1] == a + init;
      assert (a + b)[|a + b| - 1] == b[|b| - 1];
    }
  }

  /** The accumulators only grow over any number of lines. */
  lemma {:induction false} ProcessLinesGrows(codec: StreamCodec, acc: Accumulators, lines: seq<string>)
    ensures Grows(acc, ProcessLines(codec, acc, lines).acc)
  {
    if lines != [] {
      var p := ProcessLines(codec, acc, lines[..|lines| - 1]);
      ProcessLinesGrows(codec, acc, lines[..|lines| - 1]);
      GrowsTransitive(acc, p.acc, Step(codec, p.acc, lines[|lines| - 1]).acc);
    }
  }

  /**
   * A malformed or ignorable line inside a stream changes nothing: the lines after
   * it are handled exactly as if it were absent.
   */
  lemma IgnoredLineIsTransparent(codec: StreamCodec, acc: Accumulators, a: seq<string>, line: string, b: seq<string>)
    requires Ignored(codec, line)
    ensures ProcessLines(codec, acc, a + [line] + b) == ProcessLines(codec, acc, a + b)
  {
    ProcessLinesAppend(codec, acc, a + [line], b);
    ProcessLinesAppend(codec, acc, a, [line]);
    ProcessLinesAppend(codec, acc, a, b);
    assert [line][..0] == [];
  }

  /** The text of a line's delta, or nothing for a line that contributes no text. */
  function DeltaText(codec: StreamCodec, line: string): string
  {
    if Ignored(codec, line) then "" else FirstChoice(codec, line).delta.content.GetOr("")
  }

  /** The concatenated delta texts of the lines. */
  function DeltaTexts(codec: StreamCodec, lines: seq<string>): string
  {
    if lines == [] then "" else DeltaTexts(codec, lines[..|lines| - 1]) + DeltaText(codec, lines[|lines| - 1])
  }

  /** The accumulated text is the starting text followed by every line's delta text, in order. */
  lemma {:induction false} AccumulatedTextIsDeltaTexts(codec: StreamCodec, acc: Accumulators, lines: seq<string>)
    ensures ProcessLines(codec, acc, lines).acc.content == acc.content + DeltaTexts(codec, lines)
  {
    if lines != [] {
      AccumulatedTextIsDeltaTexts(codec, acc, lines[..|lines| - 1]);
    }
  }

  /**
   * A handled last line whose arguments so far parse yields the snapshot of the whole
   * state: its text is everything accumulated, not the last delta alone.
   */
  lemma LastSnapshotIsWholeState(codec: StreamCodec, acc: Accumulators, lines: seq<string>)
    requires |lines| > 0 && !Ignored(codec, lines[|lines| - 1])
    requires var final := ProcessLines(codec, acc, lines).acc;
      !(HasNamedCall(final) && CallArguments(codec.parse, final.call.value).None?)
    ensures var p := ProcessLines(codec, acc, lines);
      var text := acc.content + DeltaTexts(codec, lines);
      && |p.snapshots| > 0
      && Some(p.snapshots[|p.snapshots| - 1]) ==
           Snapshot(codec.parse, p.acc, FirstChoice(codec, lines[|lines| - 1]).finishReason)
      && ResponseText(p.snapshots[|p.snapshots| - 1]) == (if text != "" then Some(text) else None)
  {
    AccumulatedTextIsDeltaTexts(codec, acc, lines);
  }

  /** Two text deltas "Hel" and "lo" yield two snapshots, the second reading "Hello". */
  lemma TextDeltasAccumulate(codec: StreamCodec, first: string, second: string)
    requires !Ignored(codec, first) && FirstChoice(codec, first).delta == Delta(None, Some("Hel"), None)
    requires !Ignored(codec, second) && FirstChoice(codec, second).delta == Delta(None, Some("lo"), None)
    ensures var p := ProcessLines(codec, NoAccumulation, [first, second]);
      && |p.snapshots| == 2
      && ResponseText(p.snapshots[0]) == Some("Hel")
      && ResponseText(p.snapshots[1]) == Some("Hello")
  {
    assert [first, second][..1] == [first];
    assert [first][..0] == [];
    assert "" + "Hel" == "Hel";
    assert ProcessLines(codec, NoAccumulation, [first]).acc == Accumulators("Hel", None);
    LastSnapshotIsWholeState(codec, NoAccumulation, [first]);
    assert ProcessLines(codec, NoAccumulation, [first, second]).acc == Accumulators("Hello", None);
    assert DeltaTexts(codec, [first, second]) == "Hel" + "lo";
    LastSnapshotIsWholeState(codec, NoAccumulation, [first, second]);
  }

  /**
   * Fusing two lists of pieces, given `sry`, the fusion of the first list's last
   * piece with the second list: the first list's other pieces, then `sry`.
   */
  lemma FuseAfterLastPiece(sx: seq<string>, sy: seq<string>, sry: seq<string>)
    requires |sx| >= 1 && |sy| >= 1
    requires sry == Fuse([sx[|sx| - 1]], sy)
    ensures Fuse(sx, sy) == sx[..|sx| - 1] + sry
    ensures Fuse(sx, sy)[..|Fuse(sx, sy)| - 1] == sx[..|sx| - 1] + sry[..|sry| - 1]
    ensures Fuse(sx, sy)[|Fuse(sx, sy)| - 1] == sry[|sry| - 1]
  {
    assert sry == [sx[|sx| - 1] + sy[0]] + sy[1..];
  }

  /** Splitting `x + y` is splitting `x`, then splitting its remainder followed by `y`. */
  lemma SplitThroughRemainder(x: string, y: string)
    ensures var sx := Split(x, '\n');
      Split(x + y, '\n') == sx[..|sx| - 1] + Split(Remainder(x) + y, '\n')
  {
    var sx, sy := Split(x, '\n'), Split(y, '\n');
    var r := Remainder(x);
    SplitAppend(x, y, '\n');
    SplitAppend(r, y, '\n');
    SplitWithoutSeparator(r, '\n');
    FuseAfterLastPiece(sx, sy, Split(r + y, '\n'));
  }

  /** Fusing a text with no newline into the following text. */
  lemma CompleteLinesAppend(x: string, y: string)
    ensures CompleteLines(x + y) == CompleteLines(x) + CompleteLines(Remainder(x) + y)
    ensures Remainder(x + y) == Remainder(Remainder(x) + y)
  {
    SplitThroughRemainder(x, y);
    var sx := Split(x, '\n');
    var sxy := Split(x + y, '\n');
    var sry := Split(Remainder(x) + y, '\n');
    assert sxy == sx[..|sx| - 1] + sry;
    assert sxy[..|sxy| - 1] == sx[..|sx| - 1] + sry[..|sry| - 1];
    assert sxy[|sxy| - 1] == sry[|sry| - 1];
  }

  /** Text with no newline completes no line. */
  lemma NoNewlineNoLine(x: string)
    requires '\n' !in x
    ensures CompleteLines(x) == [] && Remainder(x) == x
  {
    SplitWithoutSeparator(x, '\n');
  }

  /**
   * Chunk boundaries do not matter: two reads give the state and the snapshots
   * that one read of their concatenation gives.
   */
  lemma ChunkBoundaries(codec: StreamCodec, st: StreamState, a: string, b: string)
    requires '\n' !in st.buffer
    ensures var f := FeedSpec(codec, st, a);
      var g := FeedSpec(codec, f.state, b);
      FeedSpec(codec, st, a + b) == Fed(g.state, f.snapshots + g.snapshots)
  {
    var x := st.buffer + a;
    assert st.buffer + (a + b) == x + b;
    CompleteLinesAppend(x, b);
    ProcessLinesAppend(codec, st.acc, CompleteLines(x), CompleteLines(Remainder(x) + b));
  }

  /** Any sequence of reads gives what one read of all the text gives. */
  lemma {:induction false} FeedAllIsOneFeed(codec: StreamCodec, st: StreamState, chunks: seq<string>)
    requires '\n' !in st.buffer
    ensures FeedAll(codec, st, chunks) == FeedSpec(codec, st, Concat(chunks))
  {
    if chunks == [] {
      NoNewlineNoLine(st.buffer);
      assert st.buffer + "" == st.buffer;
    } else {
      var init := chunks[..|chunks| - 1];
      FeedAllIsOneFeed(codec, st, init);
      ChunkBoundaries(codec, st, Concat(init), chunks[|chunks| - 1]);
    }
  }

  /**
   * What a whole stream yields: the complete lines of all the text, handled in
   * order from empty accumulators. Text after the last newline is never handled.
   */
  lemma StreamOutcome(codec: StreamCodec, chunks: seq<string>)
    ensures FeedAll(codec, InitialState, chunks).snapshots ==
      ProcessLines(codec, NoAccumulation, CompleteLines(Concat(chunks))).snapshots
    ensures FeedAll(codec, InitialState, chunks).state.buffer == Remainder(Concat(chunks))
  {
    FeedAllIsOneFeed(codec, InitialState, chunks);
    assert "" + Concat(chunks) == Concat(chunks);
  }

  /** An unterminated last line adds no snapshot and changes no accumulator. */
  lemma UnterminatedTailIsDropped(codec: StreamCodec, chunks: seq<string>, tail: string)
    requires '\n' !in tail
    ensures FeedAll(codec, InitialState, chunks + [tail]).snapshots == FeedAll(codec, InitialState, chunks).snapshots
    ensures FeedAll(codec, InitialState, chunks + [tail]).state.acc == FeedAll(codec, InitialState, chunks).state.acc
  {
    var text := Concat(chunks);
    assert (chunks + [tail])[..|chunks|] == chunks;
    assert Concat(chunks + [tail]) == text + tail;
    StreamOutcome(codec, chunks);
    FeedAllIsOneFeed(codec, InitialState, chunks + [tail]);
    FeedAllIsOneFeed(codec, InitialState, chunks);
    CompleteLinesAppend(text, tail);
    NoNewlineNoLine(Remainder(text) + tail);
    assert "" + text == text;
    assert "" + (text + tail) == text + tail;
    assert CompleteLines(text + tail) == CompleteLines(text);
  }

  /** The loop of generateContentStreamInternal, one object per stream. */
  class StreamReconstructor {
    const codec: StreamCodec
    var buffer: string
    var accumulatedContent: string
    var accumulatedFunctionCall: Option<CallAccumulator>

    /** The carried text never holds a newline: every complete line has been handled. */
    ghost predicate Valid()
      reads this
    {
      '\n' !in buffer
    }

    function State(): StreamState
      reads this
    {
      StreamState(buffer, Accumulators(accumulatedContent, accumulatedFunctionCall))
    }

    constructor (codec: StreamCodec)
      ensures Valid() && this.codec == codec && State() == InitialState
    {
      this.codec := codec;
      buffer := "";
      accumulatedContent := "";
      accumulatedFunctionCall := None;
    }

    /** The body of the inner `for` loop, for one complete line. */
    method HandleLine(line: string) returns (snapshot: Option<Response>)
      modifies this
      ensures buffer == old(buffer)
      ensures var s := Step(codec, old(State()).acc, line);
        State().acc == s.acc && snapshot == s.snapshot
    {
      snapshot := None;
      if StartsWith(line, DataPrefix) {
        var data := line[|DataPrefix|..];
        if data != DoneSentinel {
          var chunk := codec.decodeChunk(data);
          if chunk.Some? && |chunk.value.choices| > 0 {
            var choice := chunk.value.choices[0];
            ApplyDelta(choice.delta);
            snapshot := Snapshot(codec.parse, Accumulators(accumulatedContent, accumulatedFunctionCall), choice.finishReason);
          }
        }
      }
    }

    /** The accumulator updates for one delta: content appended, call name replaced, arguments appended. */
    method ApplyDelta(delta: Delta)
      modifies this
      ensures buffer == old(buffer)
      ensures State().acc == Accumulate(old(State()).acc, delta)
    {
      if delta.content.Some? && delta.content.value != "" {
        accumulatedContent := accumulatedContent + delta.content.value;
      }
      if delta.functionCall.Some? {
        var dc := delta.functionCall.value;
        if accumulatedFunctionCall.None? {
          accumulatedFunctionCall := Some(CallAccumulator("", ""));
        }
        if dc.name.Some? && dc.name.value != "" {
          accumulatedFunctionCall := Some(accumulatedFunctionCall.value.(name := dc.name.value));
        }
        if dc.arguments.Some? && dc.arguments.value != "" {
          var args := accumulatedFunctionCall.value.arguments + dc.arguments.value;
          accumulatedFunctionCall := Some(accumulatedFunctionCall.value.(arguments := args));
        }
      }
    }

    /** One successful `reader.read()`: append, split, carry the tail, handle the lines. */
    method Feed(chunk: string) returns (snapshots: seq<Response>)
      requires Valid()
      modifies this
      ensures Valid()
      ensures Fed(State(), snapshots) == FeedSpec(codec, old(State()), chunk)
    {
      buffer := buffer + chunk;
      var lines := Split(buffer, '\n');
      ghost var complete := CompleteLines(buffer);
      buffer := lines[|lines| - 1];
      assert buffer == Remainder(old(buffer) + chunk);
      ghost var acc0 := old(State()).acc;
      snapshots := [];
      for i := 0 to |lines| - 1
        invariant buffer == lines[|lines| - 1]
        invariant var p := ProcessLines(codec, acc0, complete[..i]);
          State().acc == p.acc && snapshots == p.snapshots
      {
        assert complete[..i + 1][..i] == complete[..i];
        var snapshot := HandleLine(lines[i]);
        if snapshot.Some? {
          snapshots := snapshots + [snapshot.value];
        }
      }
      assert complete[..|lines| - 1] == complete;
    }
  }

  /**
   * The outer `while (true)` loop over the reads of a stream body, collecting the
   * snapshots it yields; the result depends only on the concatenated text.
   */
  method ReadStream(codec: StreamCodec, chunks: seq<string>) returns (snapshots: seq<Response>)
    ensures snapshots == FeedAll(codec, InitialState, chunks).snapshots
    ensures snapshots == ProcessLines(codec, NoAccumulation, CompleteLines(Concat(chunks))).snapshots
  {
    var reconstructor := new StreamReconstructor(codec);
    snapshots := [];
    for n := 0 to |chunks|
      invariant reconstructor.Valid() && reconstructor.codec == codec
      invariant var f := FeedAll(codec, InitialState, chunks[..n]);
        reconstructor.State() == f.state && snapshots == f.snapshots
    {
      assert chunks[..n + 1][..n] == chunks[..n];
      var yielded := reconstructor.Feed(chunks[n]);
      snapshots := snapshots + yielded;
    }
    assert chunks[..|chunks|] == chunks;
    StreamOutcome(codec, chunks);
  }
}
