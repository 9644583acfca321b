/**
 * The agent-side stream normaliser: every raw event of the agent's stream becomes
 * exactly one tagged JSON-ready event, while a one-field accumulator (the message
 * text so far) is appended to by text deltas, replaced by whole messages and read
 * back by the final and completion events.
 */
module AgentStream {
  import opened Text
  import opened Values

  /** A value made only of strings, numbers, booleans, None, lists and dicts. */
  predicate Plain(v: Value)
    decreases v
  {
    match v
    case List(items) => forall i :: 0 <= i < |items| ==> Plain(items[i])
    case Map(entries) => forall e :: e in entries ==> Plain(e.1)
    case Other(_, _, _) => false
    case _ => true
  }

  /**
   * Best-effort conversion to a JSON-ready value: scalars stay, lists and dicts are
   * converted item by item keeping keys, order and length, anything else becomes its `str`.
   */
  function Stringify(v: Value): (r: Value)
    ensures Plain(r)
    ensures (v.Str? || v.Int? || v.Float? || v.Bool? || v.Null?) ==> r == v
    ensures v.Other? ==> r == Str(v.display)
    ensures v.List? ==> r.List? && |r.items| == |v.items|
    ensures v.Map? ==> r.Map? && |r.entries| == |v.entries|
                       && forall i :: 0 <= i < |v.entries| ==> r.entries[i].0 == v.entries[i].0
    decreases v
  {
    match v
    case List(items) => List(seq(|items|, i requires 0 <= i < |items| => Stringify(items[i])))
    case Map(entries) => Map(seq(|entries|, i requires 0 <= i < |entries| => (entries[i].0, Stringify(entries[i].1))))
    case Other(_, _, d) => Str(d)
    case _ => v
  }

  /** A value that is already JSON-ready is left exactly as it is. */
  lemma {:induction false} StringifyPlain(v: Value)
    requires Plain(v)
    ensures Stringify(v) == v
    decreases v
  {
    match v
    case List(items) =>
      forall i | 0 <= i < |items| ensures Stringify(items[i]) == items[i] {
        StringifyPlain(items[i]);
      }
      assert Stringify(v).items == items;
    case Map(entries) =>
      forall i | 0 <= i < |entries| ensures Stringify(entries[i].1) == entries[i].1 {
        var (k, x) := entries[i];
        assert entries[i] in entries;
        assert x < entries[i];
        StringifyPlain(x);
      }
      assert Stringify(v).entries == entries;
    case _ =>
  }

  /** Converting twice is converting once. */
  lemma StringifyIdempotent(v: Value)
    ensures Stringify(Stringify(v)) == Stringify(v)
  {
    StringifyPlain(Stringify(v));
  }

  /** The text one content block contributes: its string `text` when the block is a dict. */
  function BlockText(block: Value): string
  {
    if block.Map? && GetOr(block.entries, "text", Null).Str? then GetOr(block.entries, "text", Null).s else ""
  }

  /** The in-order concatenation of the string `text` fields of the dict blocks. */
  function BlocksText(content: seq<Value>): string
  {
    if content == [] then "" else BlocksText(content[..|content| - 1]) + BlockText(content[|content| - 1])
  }

  /** Blocks without string text contribute nothing, so only text blocks matter. */
  lemma {:induction false} BlocksTextEmpty(content: seq<Value>)
    requires forall i :: 0 <= i < |content| ==> BlockText(content[i]) == ""
    ensures BlocksText(content) == ""
  {
    if content != [] {
      BlocksTextEmpty(content[..|content| - 1]);
    }
  }

  /** The text of the first `i + 1` blocks is that of the first `i` followed by block `i`'s. */
  lemma BlocksTextPrefix(content: seq<Value>, i: nat)
    requires i < |content|
    ensures BlocksText(content[..i + 1]) == BlocksText(content[..i]) + BlockText(content[i])
  {
    assert content[..i + 1][..i] == content[..i];
  }

  /** Collects the text parts in a loop and joins them with no separator. */
  method ContentBlocksToText(content: seq<Value>) returns (r: string)
    ensures r == BlocksText(content)
  {
    var parts: seq<string> := [];
    var i := 0;
    while i < |content|
      invariant 0 <= i <= |content|
      invariant Concat(parts) == BlocksText(content[..i])
    {
      BlocksTextPrefix(content, i);
      var block := content[i];
      if block.Map? {
        var text := GetOr(block.entries, "text", Null);
        if text.Str? {
          ConcatAppend(parts, text.s);
          parts := parts + [text.s];
        }
      }
      i := i + 1;
    }
    assert content[..i] == content;
    r := Concat(parts);
  }

  /** The text of a final agent result and, when present, its metrics. */
  datatype FormattedResponse = FormattedResponse(message: string, metrics: Option<Value>)

  const ParseFailurePrefix: string := "応答の解析に失敗しました: "

  /** A content block's `text` attribute when it is truthy. */
  function TruthyText(block: Value): Option<Value>
  {
    match GetAttr(block, "text")
    case Some(t) => if Truthy(t) then Some(t) else None
    case None => None
  }

  /** A block whose truthy `text` is not a string: adding it to the message text raises. */
  predicate NonStringText(block: Value)
  {
    TruthyText(block).Some? && !TruthyText(block).value.Str?
  }

  /** The in-order concatenation of the blocks' truthy string `text` attributes. */
  function AddedTexts(blocks: seq<Value>): string
  {
    if blocks == [] then ""
    else
      var t := TruthyText(blocks[0]);
      (if t.Some? && t.value.Str? then t.value.s else "") + AddedTexts(blocks[1..])
  }

  /** The message of the `TypeError` raised by adding a non-string to a string. */
  function ConcatError(v: Value): string
  {
    "can only concatenate str (not \"" + TypeName(v) + "\") to str"
  }

  /** `message_text += text` over the blocks' truthy `text` attributes, starting from `acc`. */
  function AttrTexts(blocks: seq<Value>, acc: string): Result<string>
    decreases |blocks|
  {
    if blocks == [] then Ok(acc)
    else if NonStringText(blocks[0]) then Err(ConcatError(TruthyText(blocks[0]).value))
    else
      var added := if TruthyText(blocks[0]).Some? then TruthyText(blocks[0]).value.s else "";
      AttrTexts(blocks[1..], acc + added)
  }

  /** The loop succeeds exactly when no block's truthy `text` is a non-string. */
  lemma {:induction false} AttrTextsSucceed(blocks: seq<Value>, acc: string)
    ensures AttrTexts(blocks, acc).Ok? <==> forall i :: 0 <= i < |blocks| ==> !NonStringText(blocks[i])
    decreases |blocks|
  {
    if blocks != [] && !NonStringText(blocks[0]) {
      var added := if TruthyText(blocks[0]).Some? then TruthyText(blocks[0]).value.s else "";
      AttrTextsSucceed(blocks[1..], acc + added);
      assert forall i :: 0 < i < |blocks| ==> blocks[i] == blocks[1..][i - 1];
    }
  }

  /** On success the loop yields `acc` followed by the truthy texts in order. */
  lemma {:induction false} AttrTextsValue(blocks: seq<Value>, acc: string)
    ensures AttrTexts(blocks, acc).Ok? ==> AttrTexts(blocks, acc).value == acc + AddedTexts(blocks)
    decreases |blocks|
  {
    if blocks != [] && !NonStringText(blocks[0]) {
      var added := if TruthyText(blocks[0]).Some? then TruthyText(blocks[0]).value.s else "";
      AttrTextsValue(blocks[1..], acc + added);
      assert acc + added + AddedTexts(blocks[1..]) == acc + (added + AddedTexts(blocks[1..]));
    }
  }

  /** On failure the error is the one the first non-string truthy `text` raises. */
  lemma {:induction false} AttrTextsFirstError(blocks: seq<Value>, acc: string)
    ensures AttrTexts(blocks, acc).Err?
            ==> exists i :: 0 <= i < |blocks| && NonStringText(blocks[i])
                  && (forall j :: 0 <= j < i ==> !NonStringText(blocks[j]))
                  && AttrTexts(blocks, acc).error == ConcatError(TruthyText(blocks[i]).value)
    decreases |blocks|
  {
    if blocks != [] && !NonStringText(blocks[0]) {
      var added := if TruthyText(blocks[0]).Some? then TruthyText(blocks[0]).value.s else "";
      var rest := blocks[1..];
      AttrTextsFirstError(rest, acc + added);
      var r := AttrTexts(rest, acc + added);
      if r.Err? {
        var k :| 0 <= k < |rest| && NonStringText(rest[k])
                 && (forall j :: 0 <= j < k ==> !NonStringText(rest[j]))
                 && r.error == ConcatError(TruthyText(rest[k]).value);
        assert blocks[k + 1] == rest[k];
        assert forall j :: 0 < j < k + 1 ==> blocks[j] == rest[j - 1];
      }
    }
  }

  /** The object whose text is extracted: the result's `message` attribute, else the result itself. */
  function MessageOf(result: Value): Value
  {
    match GetAttr(result, "message")
    case Some(m) => m
    case None => result
  }

  /** The `content` list of the message a result carries, when it has one. */
  function ContentBlocks(result: Value): Option<seq<Value>>
  {
    var content := GetAttr(MessageOf(result), "content");
    if !MessageOf(result).Str? && content.Some? && content.value.List? then Some(content.value.items) else None
  }

  /**
   * The text of a final result: a string message as is; a message whose `content` is
   * a list, its blocks' texts in order, or the parse-failure notice with the error;
   * any other message, its `str`.
   */
  function ResponseMessage(result: Value): (text: string)
    ensures MessageOf(result).Str? ==> text == MessageOf(result).s
  {
    var message := MessageOf(result);
    if message.Str? then message.s
    else
      match ContentBlocks(result)
      case Some(items) =>
        (match AttrTexts(items, "")
         case Ok(t) => t
         case Err(e) => ParseFailurePrefix + e)
      case None => PyStr(message)
  }

  /** A message whose `content` is a list of blocks without non-string texts yields those texts in order. */
  lemma ResponseMessageBlocks(result: Value)
    requires ContentBlocks(result).Some?
    requires forall i :: 0 <= i < |ContentBlocks(result).value| ==> !NonStringText(ContentBlocks(result).value[i])
    ensures ResponseMessage(result) == AddedTexts(ContentBlocks(result).value)
  {
    AttrTextsSucceed(ContentBlocks(result).value, "");
    AttrTextsValue(ContentBlocks(result).value, "");
  }

  /**
   * When block `i` is the first whose truthy `text` is not a string, the text is the
   * parse-failure notice followed by the error that block raises.
   */
  lemma ResponseMessageParseFailure(result: Value, i: nat)
    requires ContentBlocks(result).Some?
    requires i < |ContentBlocks(result).value| && NonStringText(ContentBlocks(result).value[i])
    requires forall j :: 0 <= j < i ==> !NonStringText(ContentBlocks(result).value[j])
    ensures ResponseMessage(result) == ParseFailurePrefix + ConcatError(TruthyText(ContentBlocks(result).value[i]).value)
  {
    var items := ContentBlocks(result).value;
    AttrTextsSucceed(items, "");
    AttrTextsFirstError(items, "");
    var r := AttrTexts(items, "");
    var k :| 0 <= k < |items| && NonStringText(items[k])
             && (forall j :: 0 <= j < k ==> !NonStringText(items[j]))
             && r.error == ConcatError(TruthyText(items[k]).value);
    assert !(k < i) && !(i < k);
  }

  /** A message that is neither a string nor carries a `content` list yields its `str`. */
  lemma ResponseMessageFallback(result: Value)
    requires !MessageOf(result).Str? && ContentBlocks(result).None?
    ensures ResponseMessage(result) == PyStr(MessageOf(result))
  {
  }

  /** `getattr(obj, name, default)` as a value. */
  function AttrOr(obj: Value, name: string, default: Value): Value
  {
    match GetAttr(obj, name)
    case Some(v) => v
    case None => default
  }

  /**
   * The formatted final result: the text, and when the `metrics` attribute is truthy
   * a dict of its `accumulated_usage` (default `{}`) and the `latencyMs` of its
   * `accumulated_metrics` (default `{}`); calling `get` on a non-dict raises.
   */
  function FormatResponse(result: Value): (r: Result<FormattedResponse>)
    ensures r.Ok? ==> r.value.message == ResponseMessage(result)
    ensures (GetAttr(result, "metrics").None? || !Truthy(GetAttr(result, "metrics").value))
            ==> r == Ok(FormattedResponse(ResponseMessage(result), None))
  {
    var text := ResponseMessage(result);
    var metrics := GetAttr(result, "metrics");
    if metrics.Some? && Truthy(metrics.value) then
      var usage := AttrOr(metrics.value, "accumulated_usage", Map([]));
      var accumulated := AttrOr(metrics.value, "accumulated_metrics", Map([]));
      if accumulated.Map? then
        Ok(FormattedResponse(text, Some(Map([("usage", usage), ("latency_ms", GetOr(accumulated.entries, "latencyMs", Null))]))))
      else Err("'" + TypeName(accumulated) + "' object has no attribute 'get'")
    else Ok(FormattedResponse(text, None))
  }

  /**
   * With truthy metrics, the result carries `usage` and `latency_ms` taken from the
   * metrics object, and fails exactly when `accumulated_metrics` is not a dict.
   */
  lemma FormatResponseMetrics(result: Value)
    requires GetAttr(result, "metrics").Some? && Truthy(GetAttr(result, "metrics").value)
    ensures var metrics := GetAttr(result, "metrics").value;
            var accumulated := AttrOr(metrics, "accumulated_metrics", Map([]));
            accumulated.Map? ==> FormatResponse(result) == Ok(FormattedResponse(ResponseMessage(result), Some(Map([
                                   ("usage", AttrOr(metrics, "accumulated_usage", Map([]))),
                                   ("latency_ms", GetOr(accumulated.entries, "latencyMs", Null))]))))
    ensures var accumulated := AttrOr(GetAttr(result, "metrics").value, "accumulated_metrics", Map([]));
            !accumulated.Map? ==> FormatResponse(result) == Err("'" + TypeName(accumulated) + "' object has no attribute 'get'")
  {
  }

  /** The tagged outputs of the normaliser. */
  datatype StreamEvent =
    | TextDelta(delta: Value)
    | ToolUse(tool: Value)
    | MessageEvent(message: Value)
    | Final(text: string, metrics: Option<Value>)
    | Complete(carried: Option<string>)
    | ForceStop(reason: Value)
    | ErrorEvent(fields: Entries)
    | Passthrough(payload: Value)

  /** The dict each tagged output is sent as, keys in the order the source builds them. */
  function ToWire(e: StreamEvent): (w: Value)
    ensures w.Map?
  {
    match e
    case TextDelta(d) => Map([("type", Str("text-delta")), ("delta", d)])
    case ToolUse(t) => Map([("type", Str("tool")), ("tool", t)])
    case MessageEvent(m) => Map([("type", Str("message")), ("message", m)])
    case Final(m, metrics) =>
      Map([("message", Str(m))] + (if metrics.Some? then [("metrics", metrics.value)] else []) + [("type", Str("final"))])
    case Complete(m) => Map([("type", Str("complete"))] + (if m.Some? then [("message", Str(m.value))] else []))
    case ForceStop(r) => Map([("type", Str("force_stop")), ("reason", r)])
    case ErrorEvent(fields) => Map(PutAll([("type", Str("error"))], fields))
    case Passthrough(p) => Map([("type", Str("event")), ("payload", p)])
  }

  /** The value under `key` when it is a dict whose `content` is a list. */
  predicate IsMessageEvent(m: Entries)
  {
    HasKey(m, "message") && GetOr(m, "message", Null).Map?
  }

  /**
   * The tagged output for one raw event given the accumulated message `acc`: the
   * checks run in a fixed order and the first that matches decides.
   */
  function Normalize(event: Value, acc: string): (r: Result<StreamEvent>)
    ensures r.Err? ==> event.Map? && HasKey(event.entries, "result")
  {
    if !event.Map? then Ok(Passthrough(Stringify(event)))
    else
      var m := event.entries;
      if HasKey(m, "data") then Ok(TextDelta(Stringify(GetOr(m, "data", Null))))
      else if Truthy(GetOr(m, "current_tool_use", Null)) then Ok(ToolUse(Stringify(GetOr(m, "current_tool_use", Null))))
      else if IsMessageEvent(m) then Ok(MessageEvent(Stringify(GetOr(m, "message", Null))))
      else if HasKey(m, "result") then
        match FormatResponse(GetOr(m, "result", Null))
        case Err(e) => Err(e)
        case Ok(f) => Ok(Final(if acc != "" && f.message == "" then acc else f.message, f.metrics))
      else if Truthy(GetOr(m, "complete", Null)) then Ok(Complete(if acc != "" then Some(acc) else None))
      else if Truthy(GetOr(m, "force_stop", Null)) then
        Ok(ForceStop(Stringify(Or(GetOr(m, "force_stop_reason", Null), GetOr(m, "force_stop", Null)))))
      else if HasKey(m, "error") then Ok(ErrorEvent(Stringify(event).entries))
      else Ok(Passthrough(Stringify(event)))
  }

  /** The accumulated message after one raw event. */
  function Accumulate(event: Value, acc: string): (r: string)
    ensures !event.Map? ==> r == acc
  {
    if !event.Map? then acc
    else
      var m := event.entries;
      if HasKey(m, "data") then
        (var chunk := GetOr(m, "data", Null); if chunk.Str? then acc + chunk.s else acc)
      else if Truthy(GetOr(m, "current_tool_use", Null)) then acc
      else if IsMessageEvent(m) then
        var content := GetOr(GetOr(m, "message", Null).entries, "content", List([]));
        if content.List? && BlocksText(content.items) != "" then BlocksText(content.items) else acc
      else acc
  }

  /** The accumulator the normaliser threads through one stream. */
  class StreamState {
    var message: string

    constructor ()
      ensures message == ""
    {
      message := "";
    }
  }

  /** One normalisation step: the output dict, and the accumulator updated in place. */
  method FormatStreamEvent(event: Value, state: StreamState) returns (out: Result<Value>)
    modifies state
    ensures Normalize(event, old(state.message)).Ok? ==> out == Ok(ToWire(Normalize(event, old(state.message)).value))
    ensures Normalize(event, old(state.message)).Err? ==> out == Err(Normalize(event, old(state.message)).error)
    ensures state.message == Accumulate(event, old(state.message))
  {
    if !event.Map? {
      return Ok(ToWire(Passthrough(Stringify(event))));
    }
    var m := event.entries;
    if HasKey(m, "data") {
      var chunk := GetOr(m, "data", Null);
      if chunk.Str? {
        state.message := state.message + chunk.s;
      }
      return Ok(ToWire(TextDelta(Stringify(chunk))));
    }
    var currentTool := GetOr(m, "current_tool_use", Null);
    if Truthy(currentTool) {
      return Ok(ToWire(ToolUse(Stringify(currentTool))));
    }
    if HasKey(m, "message") && GetOr(m, "message", Null).Map? {
      var content := GetOr(GetOr(m, "message", Null).entries, "content", List([]));
      if content.List? {
        var accumulated := ContentBlocksToText(content.items);
        if accumulated != "" {
          state.message := accumulated;
        }
      }
      return Ok(ToWire(MessageEvent(Stringify(GetOr(m, "message", Null)))));
    }
    if HasKey(m, "result") {
      var formatted := FormatResponse(GetOr(m, "result", Null));
      if formatted.Err? {
        return Err(formatted.error);
      }
      var text := formatted.value.message;
      if state.message != "" && text == "" {
        text := state.message;
      }
      return Ok(ToWire(Final(text, formatted.value.metrics)));
    }
    if Truthy(GetOr(m, "complete", Null)) {
      var message := if state.message != "" then Some(state.message) else None;
      return Ok(ToWire(Complete(message)));
    }
    if Truthy(GetOr(m, "force_stop", Null)) {
      var reason := Or(GetOr(m, "force_stop_reason", Null), GetOr(m, "force_stop", Null));
      return Ok(ToWire(ForceStop(Stringify(reason))));
    }
    if HasKey(m, "error") {
      return Ok(ToWire(ErrorEvent(Stringify(event).entries)));
    }
    return Ok(ToWire(Passthrough(Stringify(event))));
  }

  /** A non-dict event is passed through converted and leaves the accumulator alone. */
  lemma NonDictEvent(event: Value, acc: string)
    requires !event.Map?
    ensures Normalize(event, acc) == Ok(Passthrough(Stringify(event)))
    ensures Accumulate(event, acc) == acc
  {
  }

  /**
   * A `data` key wins over every other key: the output is a text delta of the
   * converted chunk, and the accumulator grows by exactly the chunk when it is a string.
   */
  lemma DataWins(event: Value, acc: string)
    requires event.Map? && HasKey(event.entries, "data")
    ensures Normalize(event, acc) == Ok(TextDelta(Stringify(GetOr(event.entries, "data", Null))))
    ensures GetOr(event.entries, "data", Null).Str? ==> Accumulate(event, acc) == acc + GetOr(event.entries, "data", Null).s
    ensures !GetOr(event.entries, "data", Null).Str? ==> Accumulate(event, acc) == acc
    ensures StartsWith(Accumulate(event, acc), acc)
  {
    var r := Accumulate(event, acc);
    assert r[..|acc|] == acc;
  }

  /**
   * A `message` dict (with no `data` and no truthy tool use) replaces the accumulator
   * with the concatenated block texts, and only when that text is non-empty.
   */
  lemma MessageReplaces(event: Value, acc: string)
    requires event.Map? && !HasKey(event.entries, "data")
    requires !Truthy(GetOr(event.entries, "current_tool_use", Null))
    requires IsMessageEvent(event.entries)
    ensures Normalize(event, acc).Ok? && Normalize(event, acc).value.MessageEvent?
    ensures var content := GetOr(GetOr(event.entries, "message", Null).entries, "content", List([]));
            Accumulate(event, acc) == (if content.List? && BlocksText(content.items) != "" then BlocksText(content.items) else acc)
  {
  }

  /** Only `data` and `message` events change the accumulator. */
  lemma OnlyDataAndMessageAccumulate(event: Value, acc: string)
    requires event.Map? && !HasKey(event.entries, "data") && !IsMessageEvent(event.entries)
    ensures Accumulate(event, acc) == acc
  {
  }

  /**
   * A `result` event is tagged final; when the extracted text is empty and the
   * accumulator is not, the accumulator's text is sent instead.
   */
  lemma ResultBackfill(event: Value, acc: string)
    requires event.Map? && !HasKey(event.entries, "data")
    requires !Truthy(GetOr(event.entries, "current_tool_use", Null)) && !IsMessageEvent(event.entries)
    requires HasKey(event.entries, "result")
    requires FormatResponse(GetOr(event.entries, "result", Null)).Ok?
    ensures Normalize(event, acc).Ok? && Normalize(event, acc).value.Final?
    ensures ResponseMessage(GetOr(event.entries, "result", Null)) == "" && acc != ""
            ==> Normalize(event, acc).value.text == acc
    ensures ResponseMessage(GetOr(event.entries, "result", Null)) != ""
            ==> Normalize(event, acc).value.text == ResponseMessage(GetOr(event.entries, "result", Null))
    ensures GetOr(ToWire(Normalize(event, acc).value).entries, "type", Null) == Str("final")
  {
    var f := FormatResponse(GetOr(event.entries, "result", Null)).value;
    var w := ToWire(Normalize(event, acc).value).entries;
    assert w[|w| - 1] == ("type", Str("final"));
    assert forall i :: 0 <= i < |w| - 1 ==> w[i].0 != "type";
  }

  /** A completion carries a `message` field exactly when the accumulator is non-empty. */
  lemma CompleteCarriesMessage(event: Value, acc: string)
    requires event.Map? && !HasKey(event.entries, "data")
    requires !Truthy(GetOr(event.entries, "current_tool_use", Null)) && !IsMessageEvent(event.entries)
    requires !HasKey(event.entries, "result") && Truthy(GetOr(event.entries, "complete", Null))
    ensures Normalize(event, acc).Ok? && Normalize(event, acc).value.Complete?
    ensures HasKey(ToWire(Normalize(event, acc).value).entries, "message") <==> acc != ""
    ensures acc != "" ==> GetOr(ToWire(Normalize(event, acc).value).entries, "message", Null) == Str(acc)
  {
    var w := ToWire(Normalize(event, acc).value).entries;
    if acc != "" {
      assert w[1] == ("message", Str(acc));
    } else {
      assert w == [("type", Str("complete"))];
    }
  }

  /**
   * A truthy `current_tool_use` (with no `data`) is sent as a tool event carrying the
   * converted tool, and leaves the accumulator alone.
   */
  lemma ToolBranch(event: Value, acc: string)
    requires event.Map? && !HasKey(event.entries, "data")
    requires Truthy(GetOr(event.entries, "current_tool_use", Null))
    ensures Normalize(event, acc) == Ok(ToolUse(Stringify(GetOr(event.entries, "current_tool_use", Null))))
    ensures ToWire(Normalize(event, acc).value)
            == Map([("type", Str("tool")), ("tool", Stringify(GetOr(event.entries, "current_tool_use", Null)))])
    ensures Accumulate(event, acc) == acc
  {
  }

  /**
   * A dict that matches none of the recognised shapes is passed through whole,
   * converted, under the `event` tag, and leaves the accumulator alone.
   */
  lemma DictCatchAll(event: Value, acc: string)
    requires event.Map? && !HasKey(event.entries, "data")
    requires !Truthy(GetOr(event.entries, "current_tool_use", Null)) && !IsMessageEvent(event.entries)
    requires !HasKey(event.entries, "result") && !Truthy(GetOr(event.entries, "complete", Null))
    requires !Truthy(GetOr(event.entries, "force_stop", Null)) && !HasKey(event.entries, "error")
    ensures Normalize(event, acc) == Ok(Passthrough(Stringify(event)))
    ensures Accumulate(event, acc) == acc
  {
  }

  /** A stop's reason is `force_stop_reason` when truthy, else the `force_stop` value. */
  lemma ForceStopReason(event: Value, acc: string)
    requires event.Map? && !HasKey(event.entries, "data")
    requires !Truthy(GetOr(event.entries, "current_tool_use", Null)) && !IsMessageEvent(event.entries)
    requires !HasKey(event.entries, "result") && !Truthy(GetOr(event.entries, "complete", Null))
    requires Truthy(GetOr(event.entries, "force_stop", Null))
    ensures Truthy(GetOr(event.entries, "force_stop_reason", Null))
            ==> Normalize(event, acc) == Ok(ForceStop(Stringify(GetOr(event.entries, "force_stop_reason", Null))))
    ensures !Truthy(GetOr(event.entries, "force_stop_reason", Null))
            ==> Normalize(event, acc) == Ok(ForceStop(Stringify(GetOr(event.entries, "force_stop", Null))))
  {
  }

  /** The value the last item with key `k` carries: what a dict built by assigning the items in order holds. */
  function LastGet(items: Entries, k: string): (r: Option<Value>)
    ensures r.Some? <==> HasKey(items, k)
  {
    if items == [] then None
    else
      var rest := LastGet(items[1..], k);
      assert forall i :: 0 < i < |items| ==> items[i] == items[1..][i - 1];
      assert HasKey(items[1..], k) ==> HasKey(items, k);
      if rest.Some? then rest else if items[0].0 == k then Some(items[0].1) else None
  }

  /** Assigning items in order: a key the items carry ends with its last value, every other key keeps its own. */
  lemma {:induction false} PutAllGet(m: Entries, items: Entries, k: string)
    ensures Get(PutAll(m, items), k) == if HasKey(items, k) then LastGet(items, k) else Get(m, k)
    decreases |items|
  {
    if items != [] {
      PutAllGet(Put(m, items[0].0, items[0].1), items[1..], k);
      assert forall i :: 0 < i < |items| ==> items[i] == items[1..][i - 1];
      assert HasKey(items[1..], k) ==> HasKey(items, k);
    }
  }

  /** Two item lists with the same keys position by position have the same key set. */
  lemma SameKeys(a: Entries, b: Entries, k: string)
    requires |a| == |b| && forall i :: 0 <= i < |a| ==> a[i].0 == b[i].0
    ensures HasKey(a, k) <==> HasKey(b, k)
  {
    if HasKey(a, k) {
      var i :| 0 <= i < |a| && a[i].0 == k;
      assert b[i].0 == k;
    }
    if HasKey(b, k) {
      var i :| 0 <= i < |b| && b[i].0 == k;
      assert a[i].0 == k;
    }
  }

  /** An event that reaches the error branch is sent as its converted entries. */
  lemma ErrorBranch(event: Value, acc: string)
    requires event.Map? && !HasKey(event.entries, "data")
    requires !Truthy(GetOr(event.entries, "current_tool_use", Null)) && !IsMessageEvent(event.entries)
    requires !HasKey(event.entries, "result") && !Truthy(GetOr(event.entries, "complete", Null))
    requires !Truthy(GetOr(event.entries, "force_stop", Null)) && HasKey(event.entries, "error")
    ensures Normalize(event, acc) == Ok(ErrorEvent(Stringify(event).entries))
  {
  }

  /**
   * An error event sends every entry of the event converted, after `"type": "error"`;
   * an event's own `type` overrides the tag.
   */
  lemma ErrorEventFields(event: Value, k: string)
    requires event.Map?
    ensures HasKey(event.entries, k) ==> Get(ToWire(ErrorEvent(Stringify(event).entries)).entries, k) == LastGet(Stringify(event).entries, k)
    ensures !HasKey(event.entries, "type") ==> Get(ToWire(ErrorEvent(Stringify(event).entries)).entries, "type") == Some(Str("error"))
  {
    var fields := Stringify(event).entries;
    SameKeys(fields, event.entries, k);
    SameKeys(fields, event.entries, "type");
    PutAllGet([("type", Str("error"))], fields, k);
    PutAllGet([("type", Str("error"))], fields, "type");
  }

  /** What running a whole stream yields: the outputs, the exception that ended it early, the final accumulator. */
  datatype Run = Run(outputs: seq<Value>, failure: Option<string>, message: string)

  /** The normaliser applied to each event in turn, the accumulator threaded through. */
  function RunFrom(events: seq<Value>, acc: string): (r: Run)
    ensures r.failure.None? ==> |r.outputs| == |events|
    ensures |r.outputs| <= |events|
    decreases |events|
  {
    if events == [] then Run([], None, acc)
    else
      match Normalize(events[0], acc)
      case Err(e) => Run([], Some(e), acc)
      case Ok(ev) =>
        var rest := RunFrom(events[1..], Accumulate(events[0], acc));
        Run([ToWire(ev)] + rest.outputs, rest.failure, rest.message)
  }

  /** An event that is a dict with a string `data` chunk. */
  predicate TextChunkEvent(e: Value)
  {
    e.Map? && HasKey(e.entries, "data") && GetOr(e.entries, "data", Null).Str?
  }

  function ChunkText(e: Value): string
    requires TextChunkEvent(e)
  {
    GetOr(e.entries, "data", Null).s
  }

  /** The `data` chunks of a stream of text chunk events, in order. */
  function ChunkTexts(events: seq<Value>): (r: seq<string>)
    requires forall i :: 0 <= i < |events| ==> TextChunkEvent(events[i])
    ensures |r| == |events|
    decreases |events|
  {
    if events == [] then [] else [ChunkText(events[0])] + ChunkTexts(events[1..])
  }

  /**
   * A stream of text chunks produces one text delta per chunk, fails nowhere, and
   * leaves in the accumulator the starting text followed by all the chunks in order.
   */
  lemma {:induction false} TextStreamAccumulates(events: seq<Value>, acc: string)
    requires forall i :: 0 <= i < |events| ==> TextChunkEvent(events[i])
    ensures RunFrom(events, acc).failure.None?
    ensures RunFrom(events, acc).message == acc + Concat(ChunkTexts(events))
    ensures forall i :: 0 <= i < |events| ==>
              RunFrom(events, acc).outputs[i] == ToWire(TextDelta(Str(ChunkText(events[i]))))
    decreases |events|
  {
    if events != [] {
      var e := events[0];
      var next := acc + ChunkText(e);
      assert Normalize(e, acc) == Ok(TextDelta(Str(ChunkText(e))));
      assert Accumulate(e, acc) == next;
      var tail := events[1..];
      TextStreamAccumulates(tail, next);
      var rest := RunFrom(tail, next);
      var outputs := RunFrom(events, acc).outputs;
      assert outputs == [ToWire(TextDelta(Str(ChunkText(e))))] + rest.outputs;
      forall i | 0 <= i < |events|
        ensures outputs[i] == ToWire(TextDelta(Str(ChunkText(events[i]))))
      {
        if i > 0 {
          assert events[i] == tail[i - 1];
        }
      }
    }
  }
}
