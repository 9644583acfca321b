/**
 * The chat client's side of a streamed agent reply: cutting the decoded text into
 * event blocks, parsing each block's `data:` lines, keeping only text deltas, and
 * the fallback used when the reply carried no delta at all.
 */
module ClientStream {
  import opened Text
  import opened Values
  import opened SseFraming
  import opened ResponseText
  import AgentStream

  /* ---------- one event block ---------- */

  /** The payload a line contributes: the text after `data:`, left-stripped; comments and other lines contribute none. */
  function DataOf(line: string): (r: Option<string>)
    ensures r.Some? ==> StartsWith(StripChar(line, '\r'), "data:")
  {
    var l := StripChar(line, '\r');
    if l == [] || StartsWith(l, ":") then None
    else if StartsWith(l, "data:") then Some(LStrip(l[5..]))
    else None
  }

  /** The data payloads of the lines, in order. */
  function DataLines(lines: seq<string>): seq<string>
  {
    if lines == [] then []
    else
      var last := DataOf(lines[|lines| - 1]);
      DataLines(lines[..|lines| - 1]) + (if last.Some? then [last.value] else [])
  }

  /**
   * The text a block asks to parse: none for a blank block; otherwise its data
   * payloads joined with no separator and stripped, or the whole block stripped when
   * it has no data line; none if that is empty.
   */
  function SseData(raw: string): (r: Option<string>)
    ensures Blank(raw) ==> r.None?
    ensures r.Some? ==> Trimmed(r.value)
  {
    if Blank(raw) then None
    else
      var dataLines := DataLines(SplitLines(raw));
      var data := Strip(if dataLines != [] then Concat(dataLines) else raw);
      if data == [] then None else Some(data)
  }

  /** The text of a non-blank block, in terms of its data payloads. */
  lemma SseDataOfLines(raw: string, dataLines: seq<string>)
    requires !Blank(raw) && dataLines == DataLines(SplitLines(raw))
    ensures var text := if dataLines != [] then Strip(Concat(dataLines)) else Strip(raw);
            SseData(raw) == if text == [] then None else Some(text)
  {
  }

  /** A non-blank block without any `data:` line is parsed whole, stripped. */
  lemma WholeBlockWithoutData(raw: string)
    requires !Blank(raw) && DataLines(SplitLines(raw)) == []
    ensures SseData(raw) == Some(Strip(raw))
  {
  }

  /** The value of a block: None when there is nothing to parse, the JSON value, or the text itself when it is not JSON. */
  function ParseSseSpec(raw: string, loads: string -> Result<Value>): Value
  {
    match SseData(raw)
    case None => Null
    case Some(data) =>
      match loads(data)
      case Ok(v) => v
      case Err(_) => Str(data)
  }

  /** A blank block, or one whose data is blank, parses to None. */
  lemma BlankBlockIsNone(raw: string, loads: string -> Result<Value>)
    requires Blank(raw) || (DataLines(SplitLines(raw)) != [] && Blank(Concat(DataLines(SplitLines(raw)))))
    ensures ParseSseSpec(raw, loads) == Null
  {
  }

  /** Text that is not JSON is returned as the stripped text itself. */
  lemma NonJsonIsText(raw: string, loads: string -> Result<Value>)
    requires SseData(raw).Some? && loads(SseData(raw).value).Err?
    ensures ParseSseSpec(raw, loads) == Str(SseData(raw).value)
    ensures ParseSseSpec(raw, loads).s != [] && !IsSpace(ParseSseSpec(raw, loads).s[0])
  {
  }

  /** Goes through the lines once, keeping the payload of every `data:` line. */
  method CollectDataLines(lines: seq<string>) returns (dataLines: seq<string>)
    ensures dataLines == DataLines(lines)
  {
    dataLines := [];
    var i := 0;
    while i < |lines|
      invariant 0 <= i <= |lines|
      invariant dataLines == DataLines(lines[..i])
    {
      var eventLine := StripChar(lines[i], '\r');
      assert lines[..i + 1][..i] == lines[..i];
      assert lines[..i + 1][i] == lines[i];
      if eventLine != [] && !StartsWith(eventLine, ":") && StartsWith(eventLine, "data:") {
        dataLines := dataLines + [LStrip(eventLine[5..])];
      }
      i := i + 1;
    }
    assert lines[..i] == lines;
  }

  /** The text a block asks to parse, from its data lines collected one by one. */
  method EventData(raw: string) returns (data: Option<string>)
    ensures data == SseData(raw)
  {
    if raw == [] || Strip(raw) == [] {
      assert Blank(raw);
      return None;
    }
    assert !Blank(raw);
    var dataLines := CollectDataLines(SplitLines(raw));
    var text := if dataLines != [] then Strip(Concat(dataLines)) else Strip(raw);
    data := if text == [] then None else Some(text);
    SseDataOfLines(raw, dataLines);
  }

  /** Collects the data, then parses it, keeping text that is not JSON as it is. */
  method ParseSseEvent(raw: string, loads: string -> Result<Value>) returns (r: Value)
    ensures r == ParseSseSpec(raw, loads)
  {
    var data := EventData(raw);
    if data.None? {
      return Null;
    }
    var parsed := loads(data.value);
    r := if parsed.Ok? then parsed.value else Str(data.value);
  }

  /** A `data:` line adds its left-stripped payload after the earlier ones. */
  lemma DataLineAppends(lines: seq<string>, payload: string)
    requires '\r' !in payload
    ensures DataLines(lines + ["data:" + payload]) == DataLines(lines) + [LStrip(payload)]
  {
    var line := "data:" + payload;
    var all := lines + [line];
    assert all[..|all| - 1] == lines && all[|all| - 1] == line;
    assert '\r' !in line;
    assert StripChar(line, '\r') == line;
    assert line[0] == 'd' && !StartsWith(line, ":");
    assert line[..5] == "data:";
    assert line[5..] == payload;
    assert DataOf(line) == Some(LStrip(payload));
  }

  /** A comment line adds nothing. */
  lemma CommentLineSkipped(lines: seq<string>, comment: string)
    requires '\r' !in comment
    ensures DataLines(lines + [":" + comment]) == DataLines(lines)
  {
    var line := ":" + comment;
    var all := lines + [line];
    assert all[..|all| - 1] == lines;
    assert '\r' !in line;
    assert line[..1] == ":";
  }

  /* ---------- deltas ---------- */

  const TerminalTypes: set<string> := {"end", "done", "responsecompleted", "responsecomplete"}

  /** An end-of-stream type, in any letter case. */
  predicate IsTerminal(eventType: string)
  {
    Lower(eventType) in TerminalTypes
  }

  /** "text-delta" is not an end-of-stream type (it is longer than some and shorter than the others). */
  lemma TextDeltaNotTerminal()
    ensures !IsTerminal("text-delta")
  {
    TenCharsNotTerminal("text-delta");
  }

  /** No end-of-stream type is ten characters long, in any letter case. */
  lemma TenCharsNotTerminal(eventType: string)
    requires |eventType| == 10
    ensures !IsTerminal(eventType)
  {
    assert |Lower(eventType)| == 10;
  }

  /** The event type a payload declares: `type`, else `eventType`. */
  function EventType(payload: Entries): Value
  {
    Or(GetOr(payload, "type", Null), GetOr(payload, "eventType", Null))
  }

  /**
   * The incremental text of a parsed block: the `delta` string of a dict whose type is
   * exactly "text-delta"; nothing for end-of-stream types (any letter case) and for anything else.
   */
  function ExtractDelta(payload: Value): string
  {
    if !payload.Map? then ""
    else
      var eventType := EventType(payload.entries);
      if eventType.Str? && IsTerminal(eventType.s) then ""
      else if eventType == Str("text-delta") && GetOr(payload.entries, "delta", Null).Str? then GetOr(payload.entries, "delta", Null).s
      else ""
  }

  /** A delta only ever comes from the `delta` string of a "text-delta" dict. */
  lemma DeltaSource(payload: Value)
    requires ExtractDelta(payload) != ""
    ensures payload.Map? && EventType(payload.entries) == Str("text-delta")
    ensures GetOr(payload.entries, "delta", Null) == Str(ExtractDelta(payload))
  {
    TextDeltaNotTerminal();
  }

  /** End-of-stream events, in any letter case, carry no delta. */
  lemma TerminalHasNoDelta(payload: Value)
    requires payload.Map? && EventType(payload.entries).Str? && IsTerminal(EventType(payload.entries).s)
    ensures ExtractDelta(payload) == ""
  {
  }

  /** A "text-delta" dict yields its `delta` string. */
  lemma TextDeltaYieldsDelta(payload: Value)
    requires payload.Map? && EventType(payload.entries) == Str("text-delta")
    requires GetOr(payload.entries, "delta", Null).Str?
    ensures ExtractDelta(payload) == GetOr(payload.entries, "delta", Null).s
  {
    TextDeltaNotTerminal();
  }

  /** The text delta the agent emits reaches the client unchanged. */
  lemma AgentDeltaDecoded(text: string)
    ensures ExtractDelta(AgentStream.ToWire(AgentStream.TextDelta(Str(text)))) == text
  {
    var tail := Item("delta", Str(text), []);
    var w := AgentStream.ToWire(AgentStream.TextDelta(Str(text)));
    assert w == Map(Item("type", Str("text-delta"), tail));
    assert EventType(w.entries) == Str("text-delta") by {
      GetItem("type", Str("text-delta"), tail, "type");
    }
    assert GetOr(w.entries, "delta", Null) == Str(text) by {
      GetItem("type", Str("text-delta"), tail, "delta");
      GetItem("delta", Str(text), [], "delta");
    }
    TextDeltaYieldsDelta(w);
  }

  /** Tool, message, completion, stop and pass-through events carry no delta for the client. */
  lemma OtherAgentEventsIgnored(e: AgentStream.StreamEvent)
    requires e.ToolUse? || e.MessageEvent? || e.Complete? || e.ForceStop? || e.Passthrough?
    ensures ExtractDelta(AgentStream.ToWire(e)) == ""
  {
    var w := AgentStream.ToWire(e).entries;
    assert w[0].0 == "type" && w[0].1 != Str("text-delta") && Truthy(w[0].1);
    assert GetOr(w, "type", Null) == w[0].1;
    assert EventType(w) == w[0].1;
  }

  /** What one cut frame yields: its delta when that is not empty. */
  function FrameDelta(frame: string, loads: string -> Result<Value>): (r: seq<string>)
    ensures |r| <= 1 && (r != [] ==> r[0] != "")
  {
    var d := ExtractDelta(ParseSseSpec(frame, loads));
    if d != "" then [d] else []
  }

  /** The deltas of a run of cut frames, empty ones dropped. */
  function FrameDeltas(cuts: seq<Cut>, loads: string -> Result<Value>): (r: seq<string>)
    ensures |r| <= |cuts|
    ensures forall k :: 0 <= k < |r| ==> r[k] != ""
  {
    if cuts == [] then []
    else
      var first := FrameDelta(cuts[0].frame, loads);
      var rest := FrameDeltas(cuts[1..], loads);
      NonEmptyJoin(first, rest);
      first + rest
  }

  /** Joining two runs of non-empty deltas gives a run of non-empty deltas. */
  lemma NonEmptyJoin(a: seq<string>, b: seq<string>)
    requires forall k :: 0 <= k < |a| ==> a[k] != ""
    requires forall k :: 0 <= k < |b| ==> b[k] != ""
    ensures forall k :: 0 <= k < |a + b| ==> (a + b)[k] != ""
  {
  }

  /** The delta of the text left over after the last delimiter, when it is not blank. */
  function LeftoverDelta(rest: string, loads: string -> Result<Value>): (r: seq<string>)
    ensures |r| <= 1 && (r != [] ==> r[0] != "" && !Blank(rest))
  {
    if Blank(rest) then [] else FrameDelta(rest, loads)
  }

  /* ---------- the whole reply ---------- */

  /** What a reply yields when no delta came through, as the source is written. */
  function FallbackAsWritten(body: string, validUtf8: bool, loads: string -> Result<Value>,
                             dumps: Value -> Result<string>): (r: Result<Option<string>>)
    ensures !validUtf8 ==> r.Err?
  {
    if !validUtf8 then Err("UnicodeDecodeError: 'utf-8' codec can't decode the reply")
    else
      match loads(body)
      case Err(_) => Ok(if body != "" then Some(body) else None)
      case Ok(payload) =>
        match ResponseTextSpec(payload, dumps)
        case Err(e) => Err(e)
        case Ok(text) => Ok(if text != "" then Some(text) else None)
  }

  /**
   * The fallback as evidently intended: text that cannot be decoded strictly is
   * treated like text that is not JSON, so the leniently decoded body is shown.
   */
  function Fallback(body: string, validUtf8: bool, loads: string -> Result<Value>,
                    dumps: Value -> Result<string>): (r: Result<Option<string>>)
    ensures !validUtf8 ==> r == Ok(if body != "" then Some(body) else None)
    ensures validUtf8 ==> r == FallbackAsWritten(body, validUtf8, loads, dumps)
    ensures r.Ok? && r.value.Some? ==> r.value.value != ""
  {
    if !validUtf8 then Ok(if body != "" then Some(body) else None)
    else FallbackAsWritten(body, validUtf8, loads, dumps)
  }

  /** An undecodable reply with text in it raises as written, and shows that text once corrected. */
  lemma UndecodableReplyRaises(loads: string -> Result<Value>, dumps: Value -> Result<string>)
    ensures FallbackAsWritten("ok", false, loads, dumps).Err?
    ensures Fallback("ok", false, loads, dumps) == Ok(Some("ok"))
  {
  }

  /** The deltas a reply's text carries: those of every cut frame, then that of a non-blank leftover. */
  function StreamDeltas(all: string, loads: string -> Result<Value>): seq<string>
  {
    FrameDeltas(Frames(all).0, loads) + LeftoverDelta(Frames(all).1, loads)
  }

  /** What is yielded given the deltas and the fallback's outcome, which only matters when no delta came and bytes arrived. */
  function WithFallback(deltas: seq<string>, receivedBytes: bool, fallback: Result<Option<string>>): (seq<string>, Option<string>)
  {
    if deltas == [] && receivedBytes then
      match fallback
      case Err(e) => ([], Some(e))
      case Ok(None) => ([], None)
      case Ok(Some(text)) => ([text], None)
    else (deltas, None)
  }

  /**
   * Everything a reply yields, from the decoded text pieces: the deltas of every
   * cut frame, the delta of a non-blank leftover, and, when none of those carried
   * text but bytes arrived, the fallback text.
   */
  function StreamSpec(pieces: seq<string>, receivedBytes: bool, validUtf8: bool,
                      loads: string -> Result<Value>, dumps: Value -> Result<string>): (r: (seq<string>, Option<string>))
  {
    var all := Concat(pieces);
    WithFallback(StreamDeltas(all, loads), receivedBytes, Fallback(all, validUtf8, loads, dumps))
  }

  /** The same, with the fallback as the source is written. */
  function StreamSpecAsWritten(pieces: seq<string>, receivedBytes: bool, validUtf8: bool,
                               loads: string -> Result<Value>, dumps: Value -> Result<string>): (seq<string>, Option<string>)
  {
    var all := Concat(pieces);
    WithFallback(StreamDeltas(all, loads), receivedBytes, FallbackAsWritten(all, validUtf8, loads, dumps))
  }

  /** When the reply decodes strictly, the corrected stream yields exactly what the written one does. */
  lemma StreamAgreesWhenDecodable(pieces: seq<string>, receivedBytes: bool,
                                  loads: string -> Result<Value>, dumps: Value -> Result<string>)
    ensures StreamSpec(pieces, receivedBytes, true, loads, dumps) == StreamSpecAsWritten(pieces, receivedBytes, true, loads, dumps)
  {
  }

  /**
   * A reply that carried bytes but no delta and does not decode strictly: as written
   * the generator fails, corrected it shows the leniently decoded text.
   */
  lemma UndecodableStream(pieces: seq<string>, loads: string -> Result<Value>, dumps: Value -> Result<string>)
    requires StreamDeltas(Concat(pieces), loads) == []
    ensures StreamSpecAsWritten(pieces, true, false, loads, dumps).1.Some?
    ensures StreamSpec(pieces, true, false, loads, dumps)
            == (if Concat(pieces) != "" then [Concat(pieces)] else [], None)
  {
  }

  /** Deltas of a concatenation of cut runs are the concatenated deltas. */
  lemma {:induction false} FrameDeltasAppend(a: seq<Cut>, b: seq<Cut>, loads: string -> Result<Value>)
    ensures FrameDeltas(a + b, loads) == FrameDeltas(a, loads) + FrameDeltas(b, loads)
  {
    if a == [] {
      assert a + b == b;
    } else {
      assert (a + b)[0] == a[0] && (a + b)[1..] == a[1..] + b;
      FrameDeltasAppend(a[1..], b, loads);
    }
  }

  /** A concatenation of non-empty strings is empty only when there are none. */
  lemma ConcatNonEmpty(parts: seq<string>)
    requires parts != [] && parts[0] != ""
    ensures Concat(parts) != ""
  {
  }

  /** The deltas of a text with a match: the first frame's delta, if any, then those of what follows. */
  lemma DeltasFirst(b: string, loads: string -> Result<Value>)
    requires FindDelim(b, 0).Some?
    ensures var (i, e) := FindDelim(b, 0).value;
            FrameDeltas(Frames(b).0, loads) == FrameDelta(b[..i], loads) + FrameDeltas(Frames(b[e..]).0, loads)
            && Frames(b).1 == Frames(b[e..]).1
  {
    var (i, e) := FindDelim(b, 0).value;
    FramesFirst(b);
    var cuts := Frames(b).0;
    assert cuts[0].frame == b[..i] && cuts[1..] == Frames(b[e..]).0;
  }

  /** Yielding the first frame's delta leaves the deltas still owed for what follows it. */
  lemma DeltasAfterFirst(b: string, yielded: seq<string>, loads: string -> Result<Value>)
    requires FindDelim(b, 0).Some?
    ensures var (i, e) := FindDelim(b, 0).value;
            (yielded + FrameDelta(b[..i], loads)) + FrameDeltas(Frames(b[e..]).0, loads)
              == yielded + FrameDeltas(Frames(b).0, loads)
            && Frames(b).1 == Frames(b[e..]).1
  {
    var (i, e) := FindDelim(b, 0).value;
    DeltasFirst(b, loads);
    Associate(yielded, FrameDelta(b[..i], loads), FrameDeltas(Frames(b[e..]).0, loads));
  }

  lemma Associate(a: seq<string>, b: seq<string>, c: seq<string>)
    ensures (a + b) + c == a + (b + c)
  {
  }

  /** Parses one frame and keeps its delta when it has one. */
  method ParseFrame(frame: string, loads: string -> Result<Value>) returns (deltas: seq<string>)
    ensures deltas == FrameDelta(frame, loads)
  {
    var payload := ParseSseEvent(frame, loads);
    var delta := ExtractDelta(payload);
    deltas := if delta != "" then [delta] else [];
  }

  /** Cuts the first frame off the buffer and yields its delta, if it has one. */
  method CutFirst(buffer: string, yielded: seq<string>, accumulated: string, loads: string -> Result<Value>)
    returns (left: string, yielded': seq<string>, accumulated': string)
    requires FindDelim(buffer, 0).Some?
    requires accumulated == Concat(yielded)
    ensures |left| < |buffer|
    ensures yielded' + FrameDeltas(Frames(left).0, loads) == yielded + FrameDeltas(Frames(buffer).0, loads)
    ensures Frames(left).1 == Frames(buffer).1
    ensures accumulated' == Concat(yielded')
  {
    var (start, end) := FindDelim(buffer, 0).value;
    DeltasAfterFirst(buffer, yielded, loads);
    var deltas := ParseFrame(buffer[..start], loads);
    left := buffer[end..];
    ConcatSplit(yielded, deltas);
    accumulated' := accumulated + Concat(deltas);
    yielded' := yielded + deltas;
  }

  /**
   * Cuts every complete frame off the buffer, yielding each non-empty delta and
   * adding it to the running text; what is left holds no delimiter.
   */
  method Drain(buffer: string, yielded: seq<string>, accumulated: string, loads: string -> Result<Value>)
    returns (left: string, yielded': seq<string>, accumulated': string)
    requires accumulated == Concat(yielded)
    ensures left == Frames(buffer).1
    ensures yielded' == yielded + FrameDeltas(Frames(buffer).0, loads)
    ensures accumulated' == Concat(yielded')
  {
    left, yielded', accumulated' := buffer, yielded, accumulated;
    while FindDelim(left, 0).Some?
      invariant yielded' + FrameDeltas(Frames(left).0, loads) == yielded + FrameDeltas(Frames(buffer).0, loads)
      invariant Frames(left).1 == Frames(buffer).1
      invariant accumulated' == Concat(yielded')
      decreases |left|
    {
      left, yielded', accumulated' := CutFirst(left, yielded', accumulated', loads);
    }
    assert Frames(left) == ([], left);
    assert yielded' + [] == yielded';
  }

  /** Parses what is left after the last delimiter, unless it is blank. */
  method Leftover(buffer: string, yielded: seq<string>, accumulated: string, loads: string -> Result<Value>)
    returns (yielded': seq<string>, accumulated': string)
    requires accumulated == Concat(yielded)
    ensures yielded' == yielded + LeftoverDelta(buffer, loads)
    ensures accumulated' == Concat(yielded')
  {
    yielded', accumulated' := yielded, accumulated;
    if !Blank(buffer) {
      var deltas := ParseFrame(buffer, loads);
      ConcatSplit(yielded, deltas);
      accumulated' := accumulated + Concat(deltas);
      yielded' := yielded + deltas;
    }
  }

  /** Draining a buffer and carrying its remainder into the next text owes exactly the deltas of the whole. */
  lemma DrainThenRest(whole: string, rest: string, yielded: seq<string>, loads: string -> Result<Value>)
    ensures (yielded + FrameDeltas(Frames(whole).0, loads)) + FrameDeltas(Frames(Frames(whole).1 + rest).0, loads)
              == yielded + FrameDeltas(Frames(whole + rest).0, loads)
    ensures Frames(Frames(whole).1 + rest).1 == Frames(whole + rest).1
  {
    FramesPrefix(whole, rest);
    FrameDeltasAppend(Frames(whole).0, Frames(Frames(whole).1 + rest).0, loads);
    Associate(yielded, FrameDeltas(Frames(whole).0, loads), FrameDeltas(Frames(Frames(whole).1 + rest).0, loads));
  }

  /** The pieces left to read, from piece `i` on, are that piece followed by the rest. */
  lemma PendingSplit(pieces: seq<string>, i: nat)
    requires i < |pieces|
    ensures Concat(pieces[i..]) == pieces[i] + Concat(pieces[i + 1..])
  {
    assert pieces[i..][0] == pieces[i] && pieces[i..][1..] == pieces[i + 1..];
  }

  /** Reading piece `i` and draining the buffer keeps what is yielded on course for the whole text. */
  lemma ReadStep(pieces: seq<string>, i: nat, buffer: string, yielded: seq<string>, all: string,
                 loads: string -> Result<Value>)
    requires i < |pieces|
    requires yielded + FrameDeltas(Frames(buffer + Concat(pieces[i..])).0, loads) == FrameDeltas(Frames(all).0, loads)
    requires Frames(buffer + Concat(pieces[i..])).1 == Frames(all).1
    ensures var whole := buffer + pieces[i];
            (yielded + FrameDeltas(Frames(whole).0, loads))
              + FrameDeltas(Frames(Frames(whole).1 + Concat(pieces[i + 1..])).0, loads)
              == FrameDeltas(Frames(all).0, loads)
    ensures Frames(Frames(buffer + pieces[i]).1 + Concat(pieces[i + 1..])).1 == Frames(all).1
  {
    var rest := Concat(pieces[i + 1..]);
    PendingSplit(pieces, i);
    var whole := buffer + pieces[i];
    assert buffer + Concat(pieces[i..]) == whole + rest;
    DrainThenRest(whole, rest, yielded, loads);
  }

  /**
   * Receives the pieces one by one, appending each to the buffer and draining it.
   * Afterwards what was yielded is exactly the deltas of every frame of the whole
   * text, and the buffer is what follows the last delimiter.
   */
  method ReadPieces(pieces: seq<string>, loads: string -> Result<Value>)
    returns (buffer: string, yielded: seq<string>, accumulated: string)
    ensures buffer == Frames(Concat(pieces)).1
    ensures yielded == FrameDeltas(Frames(Concat(pieces)).0, loads)
    ensures accumulated == Concat(yielded)
  {
    ghost var all := Concat(pieces);
    ghost var pending := all;
    buffer, yielded, accumulated := "", [], "";
    var i := 0;
    assert pieces[0..] == pieces;
    assert buffer + pending == all;
    while i < |pieces|
      invariant 0 <= i <= |pieces|
      invariant pending == Concat(pieces[i..])
      invariant FindDelim(buffer, 0).None?
      invariant yielded + FrameDeltas(Frames(buffer + pending).0, loads) == FrameDeltas(Frames(all).0, loads)
      invariant Frames(buffer + pending).1 == Frames(all).1
      invariant accumulated == Concat(yielded)
    {
      ReadStep(pieces, i, buffer, yielded, all, loads);
      buffer, yielded, accumulated := Drain(buffer + pieces[i], yielded, accumulated, loads);
      pending := Concat(pieces[i + 1..]);
      i := i + 1;
    }
    assert buffer + pending == buffer;
    assert Frames(buffer) == ([], buffer);
    assert yielded + [] == yielded;
  }

  /**
   * The client loop. `pieces` is the incremental decoder's output for each received
   * chunk followed by its final flush, so their concatenation is the whole reply
   * decoded leniently; `validUtf8` tells whether a strict decode of the bytes succeeds.
   * What is yielded depends only on the concatenation, not on how it was chunked, and
   * the running `accumulated` text is always the concatenation of what was yielded.
   */
  method StreamBedrockAgent(pieces: seq<string>, receivedBytes: bool, validUtf8: bool,
                            loads: string -> Result<Value>, dumps: Value -> Result<string>)
    returns (yielded: seq<string>, failure: Option<string>)
    ensures (yielded, failure) == StreamSpec(pieces, receivedBytes, validUtf8, loads, dumps)
  {
    var buffer, accumulated;
    buffer, yielded, accumulated := ReadPieces(pieces, loads);
    yielded, accumulated := Leftover(buffer, yielded, accumulated, loads);
    failure := None;
    if accumulated == "" && receivedBytes {
      assert yielded == [] by {
        if yielded != [] {
          assert yielded[0] != "";
          ConcatNonEmpty(yielded);
        }
      }
      var body := Concat(pieces);
      var fallback := Fallback(body, validUtf8, loads, dumps);
      if fallback.Err? {
        failure := Some(fallback.error);
      } else if fallback.value.Some? {
        yielded := [fallback.value.value];
      }
    }
  }

  /* ---------- the request ---------- */

  const ArnMissing: string := "AGENTCORE_RUNTIME_ARN is not configured in the environment."
  const StreamMissing: string := "Agent runtime did not return a response stream."

  /** The request body: the prompt, and the actor (user id, else email) when there is one. */
  function StreamRequest(runtimeArn: Option<string>, message: string, userId: Value, email: Value): (r: Result<Entries>)
    ensures !Given(runtimeArn) ==> r == Err(ArnMissing)
    ensures r.Ok? ==> Get(r.value, "prompt") == Some(Str(message))
    ensures r.Ok? ==> (HasKey(r.value, "actor_id") <==> Truthy(Or(userId, email)))
    ensures r.Ok? && Truthy(userId) ==> Get(r.value, "actor_id") == Some(userId)
    ensures r.Ok? && Truthy(Or(userId, email)) ==> Get(r.value, "actor_id") == Some(Or(userId, email))
    ensures Given(runtimeArn) ==> r.Ok?
    ensures r.Ok? ==> forall k :: HasKey(r.value, k) ==> k in {"prompt", "actor_id"}
  {
    if !Given(runtimeArn) then Err(ArnMissing)
    else
      var actorId := Or(userId, email);
      var payload := [("prompt", Str(message))];
      if Truthy(actorId) then Ok(Put(payload, "actor_id", actorId)) else Ok(payload)
  }

  /** The reply's stream, which must be present. */
  function ResponseStream(response: Entries): (r: Result<Value>)
    ensures r.Err? <==> GetOr(response, "response", Null) == Null
  {
    var stream := GetOr(response, "response", Null);
    if stream == Null then Err(StreamMissing) else Ok(stream)
  }
}
