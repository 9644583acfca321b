/**
 * How the chat client pulls user-visible text out of an agent payload: a depth-first
 * walk that collects string values stored under text-like keys, then a join of the
 * non-blank pieces, with the JSON dump of the payload as the fallback.
 */
module ResponseText {
  import opened Text
  import opened Values

  /** The keys (compared lower-cased) whose string values are collected. */
  const TextKeys: set<string> := {"text", "content", "outputtext", "message", "delta"}

  predicate IsTextKey(key: string)
  {
    Lower(key) in TextKeys
  }

  /** The strings found under text-like keys, in traversal order. */
  function CollectTexts(v: Value): seq<string>
    decreases v
  {
    match v
    case Map(entries) => CollectEntries(entries)
    case List(items) => CollectItems(items)
    case _ => []
  }

  function CollectItems(items: seq<Value>): seq<string>
    decreases items
  {
    if items == [] then [] else CollectTexts(items[0]) + CollectItems(items[1..])
  }

  /** What one dict item contributes: its string when the key is text-like, else what its value holds. */
  function CollectEntries(entries: Entries): seq<string>
    decreases entries
  {
    if entries == [] then []
    else
      var (k, x) := entries[0];
      assert x < entries[0];
      (if x.Str? && IsTextKey(k) then [x.s] else CollectTexts(x)) + CollectEntries(entries[1..])
  }

  /** The walk over a list visits the items in order: collecting a concatenation concatenates. */
  lemma {:induction false} CollectItemsAppend(a: seq<Value>, b: seq<Value>)
    ensures CollectItems(a + b) == CollectItems(a) + CollectItems(b)
  {
    if a == [] {
      assert a + b == b;
    } else {
      assert (a + b)[0] == a[0] && (a + b)[1..] == a[1..] + b;
      CollectItemsAppend(a[1..], b);
    }
  }

  lemma {:induction false} CollectEntriesAppend(a: Entries, b: Entries)
    ensures CollectEntries(a + b) == CollectEntries(a) + CollectEntries(b)
  {
    if a == [] {
      assert a + b == b;
    } else {
      assert (a + b)[0] == a[0] && (a + b)[1..] == a[1..] + b;
      CollectEntriesAppend(a[1..], b);
    }
  }

  /** A single dict item contributes its string under a text-like key, else what its value holds. */
  lemma CollectOneEntry(k: string, x: Value)
    ensures CollectEntries([(k, x)]) == if x.Str? && IsTextKey(k) then [x.s] else CollectTexts(x)
  {
    assert [(k, x)][1..] == [];
  }

  lemma CollectOneItem(x: Value)
    ensures CollectItems([x]) == CollectTexts(x)
  {
    assert [x][1..] == [];
  }

  /** The walk itself, appending to the list it is given as it goes. */
  method Collect(value: Value, texts: seq<string>) returns (out: seq<string>)
    ensures out == texts + CollectTexts(value)
    decreases value, 2
  {
    if value.Map? {
      out := CollectDict(value, texts);
    } else if value.List? {
      out := CollectList(value, texts);
    } else {
      out := texts;
    }
  }

  /** The walk over a dict's items, in order. */
  method CollectDict(value: Value, texts: seq<string>) returns (out: seq<string>)
    requires value.Map?
    ensures out == texts + CollectEntries(value.entries)
    decreases value, 1
  {
    out := texts;
    var entries := value.entries;
    var i := 0;
    while i < |entries|
      invariant 0 <= i <= |entries|
      invariant out == texts + CollectEntries(entries[..i])
    {
      var (key, nested) := entries[i];
      assert entries[i] in entries;
      assert nested < entries[i];
      out := CollectItem(key, nested, out);
      CollectEntriesAppend(entries[..i], [(key, nested)]);
      assert entries[..i + 1] == entries[..i] + [(key, nested)];
      i := i + 1;
    }
    assert entries[..i] == entries;
  }

  /** The walk over a list's items, in order. */
  method CollectList(value: Value, texts: seq<string>) returns (out: seq<string>)
    requires value.List?
    ensures out == texts + CollectItems(value.items)
    decreases value, 1
  {
    out := texts;
    var items := value.items;
    var i := 0;
    while i < |items|
      invariant 0 <= i <= |items|
      invariant out == texts + CollectItems(items[..i])
    {
      assert items[i] in items;
      CollectItemsAppend(items[..i], [items[i]]);
      CollectOneItem(items[i]);
      assert items[..i + 1] == items[..i] + [items[i]];
      out := Collect(items[i], out);
      i := i + 1;
    }
    assert items[..i] == items;
  }

  /** One dict item of the walk: its string under a text-like key, else the walk of its value. */
  method CollectItem(key: string, nested: Value, texts: seq<string>) returns (out: seq<string>)
    ensures out == texts + CollectEntries([(key, nested)])
    decreases nested, 3
  {
    CollectOneEntry(key, nested);
    if nested.Str? && IsTextKey(key) {
      out := texts + [nested.s];
    } else {
      out := Collect(nested, texts);
    }
  }

  /** The pieces kept for display: each text stripped, blank ones dropped, order kept. */
  function StrippedPieces(texts: seq<string>): (r: seq<string>)
    ensures |r| <= |texts|
    ensures forall k :: 0 <= k < |r| ==> Trimmed(r[k])
  {
    if texts == [] then []
    else
      var rest := StrippedPieces(texts[1..]);
      var piece := Strip(texts[0]);
      if piece == [] then rest else TrimmedCons(piece, rest); [piece] + rest
  }

  lemma TrimmedCons(piece: string, rest: seq<string>)
    requires Trimmed(piece) && forall k :: 0 <= k < |rest| ==> Trimmed(rest[k])
    ensures forall k :: 0 <= k < |rest| + 1 ==> Trimmed(([piece] + rest)[k])
  {
  }

  /** Nothing is kept exactly when every text is blank. */
  lemma {:induction false} StrippedPiecesEmpty(texts: seq<string>)
    ensures StrippedPieces(texts) == [] <==> forall k :: 0 <= k < |texts| ==> Blank(texts[k])
  {
    if texts != [] {
      StrippedPiecesEmpty(texts[1..]);
      assert forall k :: 0 < k < |texts| ==> texts[k] == texts[1..][k - 1];
    }
  }

  /** A join of non-empty pieces starts with the first piece's first character and ends with the last's last. */
  lemma {:induction false} JoinEnds(sep: string, parts: seq<string>)
    requires parts != [] && forall k :: 0 <= k < |parts| ==> parts[k] != []
    ensures Join(sep, parts) != []
    ensures Join(sep, parts)[0] == parts[0][0]
    ensures Join(sep, parts)[|Join(sep, parts)| - 1] == parts[|parts| - 1][|parts[|parts| - 1]| - 1]
  {
    if |parts| > 1 {
      JoinEnds(sep, parts[1..]);
      var tail := Join(sep, parts[1..]);
      assert Join(sep, parts) == parts[0] + sep + tail;
    }
  }

  /** The text shown: the stripped non-blank pieces, one per line. */
  function MergeTexts(texts: seq<string>): string
  {
    var pieces := StrippedPieces(texts);
    if pieces == [] then [] else Join("\n", pieces)
  }

  /** The merged text is empty exactly when every text is blank. */
  lemma MergedEmpty(texts: seq<string>)
    ensures MergeTexts(texts) == [] <==> forall k :: 0 <= k < |texts| ==> Blank(texts[k])
  {
    var pieces := StrippedPieces(texts);
    StrippedPiecesEmpty(texts);
    if pieces != [] {
      JoinEnds("\n", pieces);
    }
  }

  /** Merged text that is not empty has no surrounding whitespace. */
  lemma MergedTrimmed(texts: seq<string>)
    ensures var merged := MergeTexts(texts);
            merged != [] ==> !IsSpace(merged[0]) && !IsSpace(merged[|merged| - 1])
  {
    var pieces := StrippedPieces(texts);
    if pieces != [] {
      JoinEnds("\n", pieces);
    }
  }

  /** The user-visible text of a payload: the merged texts, else the payload's JSON dump (which may raise). */
  function ResponseTextSpec(payload: Value, dumps: Value -> Result<string>): (r: Result<string>)
  {
    var merged := MergeTexts(CollectTexts(payload));
    if merged != "" then Ok(merged) else dumps(payload)
  }

  /** Collects by walking, then merges; falls back to the dump. */
  method ExtractTextFromAgentResponse(payload: Value, dumps: Value -> Result<string>) returns (r: Result<string>)
    ensures r == ResponseTextSpec(payload, dumps)
    ensures r.Ok? && r.value != "" && r != dumps(payload) ==> !IsSpace(r.value[0])
  {
    var texts := Collect(payload, []);
    assert texts == CollectTexts(payload);
    var merged := MergeTexts(texts);
    MergedTrimmed(texts);
    if merged != "" {
      return Ok(merged);
    }
    r := dumps(payload);
  }

  /**
   * The text of one streamed event: as above, except that a dict or list whose text
   * is nothing but its own dump shows nothing; a dump that raises leaves the text as it is.
   */
  function EventText(payload: Value, dumps: Value -> Result<string>): (r: Result<string>)
    ensures ResponseTextSpec(payload, dumps).Err? ==> r == ResponseTextSpec(payload, dumps)
    ensures !(payload.Map? || payload.List?) ==> r == ResponseTextSpec(payload, dumps)
  {
    match ResponseTextSpec(payload, dumps)
    case Err(e) => Err(e)
    case Ok(text) =>
      if payload.Map? || payload.List? then
        match dumps(payload)
        case Err(_) => Ok(text)
        case Ok(payloadJson) => if payloadJson == text then Ok("") else Ok(text)
      else Ok(text)
  }

  /** A dict or list without any text shows nothing as an event. */
  lemma EventWithoutText(payload: Value, dumps: Value -> Result<string>)
    requires payload.Map? || payload.List?
    requires dumps(payload).Ok?
    requires forall k :: 0 <= k < |CollectTexts(payload)| ==> Blank(CollectTexts(payload)[k])
    ensures EventText(payload, dumps) == Ok("")
  {
    MergedEmpty(CollectTexts(payload));
  }

  /** A dict or list with text shows that text unless it happens to equal the dump. */
  lemma EventWithText(payload: Value, dumps: Value -> Result<string>)
    requires payload.Map? || payload.List?
    requires exists k :: 0 <= k < |CollectTexts(payload)| && !Blank(CollectTexts(payload)[k])
    requires dumps(payload) != Ok(MergeTexts(CollectTexts(payload)))
    ensures EventText(payload, dumps) == Ok(MergeTexts(CollectTexts(payload)))
    ensures EventText(payload, dumps).value != ""
  {
    MergedEmpty(CollectTexts(payload));
  }

  /** A string under a text-like key (in any letter case) is collected as it is. */
  lemma TextKeyCollected(key: string, text: string)
    requires IsTextKey(key)
    ensures CollectTexts(Map([(key, Str(text))])) == [text]
  {
    var entries := [(key, Str(text))];
    assert entries[1..] == [];
    assert CollectEntries(entries) == [text] + CollectEntries([]);
  }

  /** Under any other key, or when not a string, the value is searched instead. */
  lemma OtherKeySearched(key: string, v: Value)
    requires !(v.Str? && IsTextKey(key))
    ensures CollectTexts(Map([(key, v)])) == CollectTexts(v)
  {
    var entries := [(key, v)];
    assert entries[1..] == [];
    assert CollectEntries(entries) == CollectTexts(v) + CollectEntries([]);
  }

  /** Two non-blank pieces are stripped and joined on one line each. */
  lemma MergeTwo(a: string, b: string)
    requires !Blank(a) && !Blank(b)
    ensures MergeTexts([a, b]) == Strip(a) + "\n" + Strip(b)
  {
    assert [a, b][1..] == [b];
    assert [b][1..] == [];
    assert StrippedPieces([a, b]) == [Strip(a), Strip(b)];
  }
}
