/**
 * The rules inside the agent's sake tools: whose memory a tool reads, how a catalogue
 * search builds its knowledge-base query and filters and formats what comes back, how
 * a recommendation folds remembered preferences into its query, how remembered
 * sections are capped, and how a product link is made absolute. The knowledge base,
 * the memory store and score formatting are parameters.
 */
module SakeTools {
  import opened Text
  import opened Values
  import RuntimeContext

  const KbMissing: string := "エラー: SAKE_AGENT_KB_IDが設定されていません"
  const DefaultSearchQuery: string := "日本酒"
  const SearchNotFound: string := "検索条件に一致する日本酒が見つかりませんでした。"
  const SearchErrorPrefix: string := "検索エラー: "
  const HitSeparator: string := "\n---\n"
  const MemoryErrorPrefix: string := "エラー:"
  const MemorySearchErrorPrefix: string := "Memory検索エラー"
  const NoMemoryInfo: string := "過去の好み情報は見つかりませんでした"
  const DefaultRecommendQuery: string := "おすすめの日本酒"
  const RecommendNotFound: string := "おすすめの日本酒が見つかりませんでした。"
  const RecommendErrorPrefix: string := "推薦エラー: "
  const StoreHost: string := "https://www.amazon.co.jp"

  /* ---------- identity ---------- */

  /**
   * Whose memory a tool reads: the explicit argument, else the environment setting,
   * else the invocation context (`context` is what reading the context slot yields),
   * separately for the actor and for the session.
   */
  function ResolveIdentity(actorArg: Option<string>, sessionArg: Option<string>,
                           envActor: Option<string>, envSession: Option<string>,
                           context: RuntimeContext.InvocationContext): (r: (Value, Value))
    ensures Given(actorArg) ==> r.0 == Str(actorArg.value)
    ensures !Given(actorArg) && Given(envActor) ==> r.0 == Str(envActor.value)
    ensures !Given(actorArg) && !Given(envActor) ==> r.0 == context.actorId
    ensures Given(sessionArg) ==> r.1 == Str(sessionArg.value)
    ensures !Given(sessionArg) && Given(envSession) ==> r.1 == Str(envSession.value)
    ensures !Given(sessionArg) && !Given(envSession) ==> r.1 == context.sessionId
  {
    (Or(Or(FromOption(actorArg), FromOption(envActor)), context.actorId),
     Or(Or(FromOption(sessionArg), FromOption(envSession)), context.sessionId))
  }

  /** With nothing given and nothing set in the context, a tool reads the default user's memory. */
  lemma IdentityDefaults(slot: Option<RuntimeContext.InvocationContext>)
    requires slot.None?
    ensures ResolveIdentity(None, None, None, None, RuntimeContext.Effective(slot))
            == (Str(RuntimeContext.DefaultActorId), Str(RuntimeContext.DefaultSessionId))
  {
  }

  /* ---------- catalogue search: query and filters ---------- */

  /** A labelled query part for a field that was given. */
  function Labelled(tag: string, field: Option<string>): (r: seq<string>)
    ensures |r| <= 1 && (r != [] <==> Given(field))
  {
    if Given(field) then [tag + field.value] else []
  }

  /** The labelled parts of a search, in the order name, region, type, price range. */
  function QueryParts(name: Option<string>, region: Option<string>, sakeType: Option<string>,
                      priceRange: Option<string>): seq<string>
  {
    Labelled("名前: ", name) + Labelled("地域: ", region) + Labelled("種類: ", sakeType)
    + Labelled("価格帯: ", priceRange)
  }

  /** The query text: the parts joined by spaces, or plain "日本酒" when no criterion is given. */
  function QueryText(name: Option<string>, region: Option<string>, sakeType: Option<string>,
                     priceRange: Option<string>): string
  {
    var parts := QueryParts(name, region, sakeType, priceRange);
    if parts != [] then Join(" ", parts) else DefaultSearchQuery
  }

  /** 1 for a criterion that was given, 0 otherwise. */
  function Flag(given: bool): nat
  {
    if given then 1 else 0
  }

  /** One part per criterion given; a given name always comes first. */
  lemma QueryPartsCount(name: Option<string>, region: Option<string>, sakeType: Option<string>,
                        priceRange: Option<string>)
    ensures |QueryParts(name, region, sakeType, priceRange)|
            == Flag(Given(name)) + Flag(Given(region)) + Flag(Given(sakeType)) + Flag(Given(priceRange))
    ensures Given(name) ==> QueryParts(name, region, sakeType, priceRange)[0] == "名前: " + name.value
  {
  }

  /** An equality filter on one metadata key. */
  function EqualsFilter(key: string, value: string): Value
  {
    Map([("equals", Map([("key", Str(key)), ("value", Str(value))]))])
  }

  function FilterOn(key: string, field: Option<string>): (r: seq<Value>)
    ensures |r| <= 1 && (r != [] <==> Given(field))
  {
    if Given(field) then [EqualsFilter(key, field.value)] else []
  }

  /** The metadata filters: one per region, type and price range given, in that order (never one for the name). */
  function Filters(region: Option<string>, sakeType: Option<string>, priceRange: Option<string>): (r: seq<Value>)
    ensures |r| == Flag(Given(region)) + Flag(Given(sakeType)) + Flag(Given(priceRange))
    ensures r == [] <==> !Given(region) && !Given(sakeType) && !Given(priceRange)
  {
    FilterOn("region", region) + FilterOn("type", sakeType) + FilterOn("price_range", priceRange)
  }

  /** With no criterion the query is plain "日本酒" and nothing is filtered. */
  lemma NoCriteriaSearch(name: Option<string>)
    requires !Given(name)
    ensures QueryText(name, None, None, None) == DefaultSearchQuery
    ensures Filters(None, None, None) == []
  {
  }

  /** Builds the query parts and the filters by appending, as the tool does. */
  method BuildSearchQuery(name: Option<string>, region: Option<string>, sakeType: Option<string>,
                          priceRange: Option<string>)
    returns (queryText: string, filters: seq<Value>)
    ensures queryText == QueryText(name, region, sakeType, priceRange)
    ensures filters == Filters(region, sakeType, priceRange)
  {
    var queryParts: seq<string> := [];
    if Given(name) {
      queryParts := queryParts + ["名前: " + name.value];
    }
    assert queryParts == Labelled("名前: ", name);
    if Given(region) {
      queryParts := queryParts + ["地域: " + region.value];
    }
    assert queryParts == Labelled("名前: ", name) + Labelled("地域: ", region);
    if Given(sakeType) {
      queryParts := queryParts + ["種類: " + sakeType.value];
    }
    assert queryParts == Labelled("名前: ", name) + Labelled("地域: ", region) + Labelled("種類: ", sakeType);
    if Given(priceRange) {
      queryParts := queryParts + ["価格帯: " + priceRange.value];
    }
    assert queryParts == QueryParts(name, region, sakeType, priceRange);
    queryText := if queryParts != [] then Join(" ", queryParts) else DefaultSearchQuery;
    filters := BuildFilters(region, sakeType, priceRange);
  }

  /** The filters, appended one by one. */
  method BuildFilters(region: Option<string>, sakeType: Option<string>, priceRange: Option<string>)
    returns (filters: seq<Value>)
    ensures filters == Filters(region, sakeType, priceRange)
  {
    filters := [];
    if Given(region) {
      filters := filters + [EqualsFilter("region", region.value)];
    }
    assert filters == FilterOn("region", region);
    if Given(sakeType) {
      filters := filters + [EqualsFilter("type", sakeType.value)];
    }
    assert filters == FilterOn("region", region) + FilterOn("type", sakeType);
    if Given(priceRange) {
      filters := filters + [EqualsFilter("price_range", priceRange.value)];
    }
  }

  /** The vector-search settings: how many results, and the filters joined by `andAll` when there are any. */
  function SearchConfiguration(filters: seq<Value>, numberOfResults: int): (r: Entries)
    ensures HasKey(r, "filter") <==> filters != []
    ensures filters != [] ==> Get(r, "filter") == Some(Map([("andAll", List(filters))]))
  {
    var base := [("numberOfResults", Int(numberOfResults))];
    assert |"numberOfResults"| != |"filter"|;
    if filters != [] then
      var r := base + [("filter", Map([("andAll", List(filters))]))];
      assert r[1].0 == "filter";
      r
    else base
  }

  /** The knowledge-base request of a search. */
  function RetrieveParams(kbId: string, queryText: string, filters: seq<Value>, numberOfResults: int): Value
  {
    Map([("knowledgeBaseId", Str(kbId)),
         ("retrievalQuery", Map([("text", Str(queryText))])),
         ("retrievalConfiguration", Map([("vectorSearchConfiguration", Map(SearchConfiguration(filters, numberOfResults)))]))])
  }

  /* ---------- retrieved hits ---------- */

  /** The message Python gives when `.get` is called on something that is not a dict. */
  function NoGet(v: Value): string
  {
    "'" + TypeName(v) + "' object has no attribute 'get'"
  }

  /** The hits of a knowledge-base response: its `retrievalResults`, which must be iterable. */
  function RetrievalItems(response: Value): (r: Result<seq<Value>>)
    ensures response.Map? && !HasKey(response.entries, "retrievalResults") ==> r == Ok([])
  {
    if !response.Map? then Err(NoGet(response))
    else
      var results := GetOr(response.entries, "retrievalResults", List([]));
      match Iterate(results)
      case None => Err("'" + TypeName(results) + "' object is not iterable")
      case Some(items) => Ok(items)
  }

  /**
   * One hit formatted: an optional heading, the formatted score and the content's
   * text; raises when the hit or its content is not a dict or the score cannot be
   * formatted (`formatScore` stands for the two-decimal float formatting).
   */
  function FormatHit(item: Value, heading: string, formatScore: Value -> Result<string>): (r: Result<string>)
    ensures r.Ok? ==> StartsWith(r.value, heading)
  {
    if !item.Map? then Err(NoGet(item))
    else
      var content := GetOr(item.entries, "content", Map([]));
      if !content.Map? then Err(NoGet(content))
      else
        var text := GetOr(content.entries, "text", Str(""));
        match formatScore(GetOr(item.entries, "score", Int(0)))
        case Err(e) => Err(e)
        case Ok(score) =>
          var line := heading + "[関連度: " + score + "]\n" + PyStr(text) + "\n";
          assert line[..|heading|] == heading;
          Ok(line)
  }

  /** The heading of the `idx`-th hit (counting from 1): numbered for recommendations, none for searches. */
  function Heading(numbered: bool, idx: nat): string
  {
    if numbered then "【推薦 " + NatToString(idx) + "】" else ""
  }

  /** All hits formatted in order, or the first failure. */
  function FormatHits(items: seq<Value>, numbered: bool, formatScore: Value -> Result<string>): (r: Result<seq<string>>)
    ensures r.Ok? ==> |r.value| == |items|
  {
    if items == [] then Ok([])
    else
      match FormatHits(items[..|items| - 1], numbered, formatScore)
      case Err(e) => Err(e)
      case Ok(done) =>
        match FormatHit(items[|items| - 1], Heading(numbered, |items|), formatScore)
        case Err(e) => Err(e)
        case Ok(hit) => Ok(done + [hit])
  }

  /** Every formatted line starts with its own heading, numbered from one. */
  lemma {:induction false} FormatHitsHeadings(items: seq<Value>, numbered: bool, formatScore: Value -> Result<string>)
    ensures var r := FormatHits(items, numbered, formatScore);
            r.Ok? ==> forall k :: 0 <= k < |items| ==> StartsWith(r.value[k], Heading(numbered, k + 1))
  {
    if items != [] {
      var init := items[..|items| - 1];
      FormatHitsHeadings(init, numbered, formatScore);
      var done := FormatHits(init, numbered, formatScore);
      var hit := FormatHit(items[|items| - 1], Heading(numbered, |items|), formatScore);
      if done.Ok? && hit.Ok? {
        HeadingsKept(done.value, hit.value, numbered);
      }
    }
  }

  /** Appending a line that starts with the next heading keeps every line under its own heading. */
  lemma HeadingsKept(done: seq<string>, hit: string, numbered: bool)
    requires forall k :: 0 <= k < |done| ==> StartsWith(done[k], Heading(numbered, k + 1))
    requires StartsWith(hit, Heading(numbered, |done| + 1))
    ensures forall k :: 0 <= k < |done| + 1 ==> StartsWith((done + [hit])[k], Heading(numbered, k + 1))
  {
    forall k | 0 <= k < |done| + 1
      ensures StartsWith((done + [hit])[k], Heading(numbered, k + 1))
    {
      if k < |done| {
        assert (done + [hit])[k] == done[k];
      } else {
        assert (done + [hit])[k] == hit;
      }
    }
  }

  /** The formatting loop: one line per hit, in order, stopping at the first failure. */
  method FormatResults(items: seq<Value>, numbered: bool, formatScore: Value -> Result<string>)
    returns (r: Result<seq<string>>)
    ensures r == FormatHits(items, numbered, formatScore)
  {
    var results: seq<string> := [];
    var i := 0;
    while i < |items|
      invariant 0 <= i <= |items|
      invariant FormatHits(items[..i], numbered, formatScore) == Ok(results)
    {
      var hit := FormatHit(items[i], Heading(numbered, i + 1), formatScore);
      FormatStep(items, i, numbered, formatScore, results);
      if hit.Err? {
        FailureStays(items, i + 1, numbered, formatScore);
        return Err(hit.error);
      }
      results := results + [hit.value];
      i := i + 1;
    }
    assert items[..i] == items;
    return Ok(results);
  }

  /** One more hit: its failure fails the longer prefix, its line extends the lines so far. */
  lemma FormatStep(items: seq<Value>, i: nat, numbered: bool, formatScore: Value -> Result<string>, results: seq<string>)
    requires i < |items| && FormatHits(items[..i], numbered, formatScore) == Ok(results)
    ensures var hit := FormatHit(items[i], Heading(numbered, i + 1), formatScore);
            FormatHits(items[..i + 1], numbered, formatScore)
              == if hit.Err? then Err(hit.error) else Ok(results + [hit.value])
  {
    assert items[..i + 1][..i] == items[..i];
    assert items[..i + 1][i] == items[i];
  }

  /** Once a prefix of the hits fails, all of them fail with the same error. */
  lemma {:induction false} FailureStays(items: seq<Value>, n: nat, numbered: bool, formatScore: Value -> Result<string>)
    requires n <= |items| && FormatHits(items[..n], numbered, formatScore).Err?
    ensures FormatHits(items, numbered, formatScore) == FormatHits(items[..n], numbered, formatScore)
    decreases |items| - n
  {
    if n < |items| {
      assert items[..n + 1][..n] == items[..n];
      FailureStays(items, n + 1, numbered, formatScore);
    } else {
      assert items[..n] == items;
    }
  }

  /* ---------- search_sake ---------- */

  /**
   * What a catalogue search returns: the configuration error when no knowledge base
   * is set (nothing is retrieved then), the not-found message when nothing comes back,
   * the hits separated by `---` lines otherwise, and any failure as a search error.
   * `retrieve` stands for the knowledge base: a response, or the failure it raises.
   */
  function SearchSakeSpec(name: Option<string>, region: Option<string>, sakeType: Option<string>,
                          priceRange: Option<string>, kbId: Option<string>,
                          retrieve: Value -> Result<Value>, formatScore: Value -> Result<string>): string
  {
    if !Given(kbId) then KbMissing
    else
      var params := RetrieveParams(kbId.value, QueryText(name, region, sakeType, priceRange),
                                   Filters(region, sakeType, priceRange), 5);
      match retrieve(params)
      case Err(e) => SearchErrorPrefix + e
      case Ok(response) =>
        match RetrievalItems(response)
        case Err(e) => SearchErrorPrefix + e
        case Ok(items) =>
          match FormatHits(items, false, formatScore)
          case Err(e) => SearchErrorPrefix + e
          case Ok(hits) => if hits == [] then SearchNotFound else Join(HitSeparator, hits)
  }

  /** The search tool, step by step. */
  method SearchSake(name: Option<string>, region: Option<string>, sakeType: Option<string>,
                    priceRange: Option<string>, kbId: Option<string>,
                    retrieve: Value -> Result<Value>, formatScore: Value -> Result<string>)
    returns (r: string)
    ensures r == SearchSakeSpec(name, region, sakeType, priceRange, kbId, retrieve, formatScore)
  {
    if !Given(kbId) {
      return KbMissing;
    }
    var queryText, filters := BuildSearchQuery(name, region, sakeType, priceRange);
    var response := retrieve(RetrieveParams(kbId.value, queryText, filters, 5));
    if response.Err? {
      return SearchErrorPrefix + response.error;
    }
    var items := RetrievalItems(response.value);
    if items.Err? {
      return SearchErrorPrefix + items.error;
    }
    var results := FormatResults(items.value, false, formatScore);
    if results.Err? {
      return SearchErrorPrefix + results.error;
    }
    if results.value == [] {
      return SearchNotFound;
    }
    return Join(HitSeparator, results.value);
  }

  /** Without a knowledge base the search answers with the configuration error, whatever the store would do. */
  lemma SearchWithoutKb(name: Option<string>, region: Option<string>, sakeType: Option<string>,
                        priceRange: Option<string>, kbId: Option<string>,
                        retrieve: Value -> Result<Value>, formatScore: Value -> Result<string>)
    requires !Given(kbId)
    ensures SearchSakeSpec(name, region, sakeType, priceRange, kbId, retrieve, formatScore) == KbMissing
  {
  }

  /** A response without hits gives the not-found message. */
  lemma SearchWithoutHits(name: Option<string>, region: Option<string>, sakeType: Option<string>,
                          priceRange: Option<string>, kbId: Option<string>,
                          retrieve: Value -> Result<Value>, formatScore: Value -> Result<string>)
    requires Given(kbId)
    requires retrieve(RetrieveParams(kbId.value, QueryText(name, region, sakeType, priceRange),
                                     Filters(region, sakeType, priceRange), 5)) == Ok(Map([]))
    ensures SearchSakeSpec(name, region, sakeType, priceRange, kbId, retrieve, formatScore) == SearchNotFound
  {
    assert !HasKey([], "retrievalResults");
  }

  /** The request carries a filter exactly when some region, type or price range is given. */
  lemma FilterAttachedIffCriteria(kbId: string, queryText: string, region: Option<string>, sakeType: Option<string>,
                                  priceRange: Option<string>)
    ensures HasKey(SearchConfiguration(Filters(region, sakeType, priceRange), 5), "filter")
            <==> Given(region) || Given(sakeType) || Given(priceRange)
  {
  }

  /* ---------- recommend_sake ---------- */

  /** A memory lookup that failed: its text starts with one of the two error prefixes. */
  predicate MemoryError(memoryResults: string)
  {
    StartsWith(memoryResults, MemoryErrorPrefix) || StartsWith(memoryResults, MemorySearchErrorPrefix)
  }

  /** Whether the remembered preferences are worth using: no error and not the nothing-found message. */
  predicate UsableMemory(memoryResults: string)
  {
    !MemoryError(memoryResults) && !Contains(memoryResults, NoMemoryInfo)
  }

  /** The recommendation query: past preferences, then current ones, else the generic request. */
  function RecommendQuery(memoryResults: string, preferences: Option<string>): (q: string)
    ensures q != ""
  {
    var past := if UsableMemory(memoryResults) then "過去の好み: " + memoryResults + "\n" else "";
    var now := if Given(preferences) then "現在の好み: " + preferences.value else "";
    if past + now == "" then DefaultRecommendQuery else past + now
  }

  /**
   * Memory that is not usable (a failed lookup, or the nothing-found message) never reaches
   * the query: only the current preferences, or the generic request, do.
   */
  lemma FailedMemoryIgnored(memoryResults: string, preferences: Option<string>)
    requires !UsableMemory(memoryResults)
    ensures RecommendQuery(memoryResults, preferences)
            == if Given(preferences) then "現在の好み: " + preferences.value else DefaultRecommendQuery
  {
    if Given(preferences) {
      assert "" + ("現在の好み: " + preferences.value) == "現在の好み: " + preferences.value;
    }
  }

  /** Usable memory leads the query as the past preferences, on its own line, followed by the current ones. */
  lemma UsableMemoryLeads(memoryResults: string, preferences: Option<string>)
    requires UsableMemory(memoryResults)
    ensures RecommendQuery(memoryResults, preferences)
            == "過去の好み: " + memoryResults + "\n" + (if Given(preferences) then "現在の好み: " + preferences.value else "")
    ensures StartsWith(RecommendQuery(memoryResults, preferences), "過去の好み: " + memoryResults)
  {
    var past := "過去の好み: " + memoryResults + "\n";
    var now := if Given(preferences) then "現在の好み: " + preferences.value else "";
    assert (past + now)[..|"過去の好み: " + memoryResults|] == "過去の好み: " + memoryResults;
    assert past + now != "";
  }

  /** Builds the query by appending, as the tool does. */
  method BuildRecommendQuery(memoryResults: string, preferences: Option<string>) returns (queryText: string)
    ensures queryText == RecommendQuery(memoryResults, preferences)
  {
    var memoryError := MemoryError(memoryResults);
    queryText := "";
    if !memoryError && !Contains(memoryResults, NoMemoryInfo) {
      queryText := queryText + ("過去の好み: " + memoryResults + "\n");
    }
    ghost var past := queryText;
    if Given(preferences) {
      queryText := queryText + ("現在の好み: " + preferences.value);
    } else {
      assert queryText == past + "";
    }
    if queryText == "" {
      queryText := DefaultRecommendQuery;
    }
  }

  /** The recommendation text, with the remembered preferences put in front when they are usable and not blank. */
  function WithMemory(memoryResults: string, recommendation: string): string
  {
    if UsableMemory(memoryResults) && !Blank(memoryResults)
    then "【過去の好み情報】\n" + memoryResults + "\n\n【推薦結果】\n" + recommendation
    else recommendation
  }

  /**
   * What a recommendation returns, given what the memory lookup returned (that lookup
   * catches its own failures and always returns text).
   */
  function RecommendSakeSpec(memoryResults: string, preferences: Option<string>, kbId: Option<string>,
                             retrieve: Value -> Result<Value>, formatScore: Value -> Result<string>): string
  {
    var queryText := RecommendQuery(memoryResults, preferences);
    if !Given(kbId) then KbMissing
    else
      match retrieve(RetrieveParams(kbId.value, queryText, [], 3))
      case Err(e) => RecommendErrorPrefix + e
      case Ok(response) =>
        match RetrievalItems(response)
        case Err(e) => RecommendErrorPrefix + e
        case Ok(items) =>
          match FormatHits(items, true, formatScore)
          case Err(e) => RecommendErrorPrefix + e
          case Ok(hits) => if hits == [] then RecommendNotFound else WithMemory(memoryResults, Join(HitSeparator, hits))
  }

  /** The recommendation tool, step by step. */
  method RecommendSake(memoryResults: string, preferences: Option<string>, kbId: Option<string>,
                       retrieve: Value -> Result<Value>, formatScore: Value -> Result<string>)
    returns (r: string)
    ensures r == RecommendSakeSpec(memoryResults, preferences, kbId, retrieve, formatScore)
  {
    var queryText := BuildRecommendQuery(memoryResults, preferences);
    if !Given(kbId) {
      return KbMissing;
    }
    var response := retrieve(RetrieveParams(kbId.value, queryText, [], 3));
    if response.Err? {
      return RecommendErrorPrefix + response.error;
    }
    var items := RetrievalItems(response.value);
    if items.Err? {
      return RecommendErrorPrefix + items.error;
    }
    var results := FormatResults(items.value, true, formatScore);
    if results.Err? {
      return RecommendErrorPrefix + results.error;
    }
    if results.value == [] {
      return RecommendNotFound;
    }
    r := WithMemory(memoryResults, Join(HitSeparator, results.value));
  }

  /** A failed memory lookup is never shown in front of the recommendations. */
  lemma FailedMemoryNotShown(memoryResults: string, recommendation: string)
    requires MemoryError(memoryResults)
    ensures WithMemory(memoryResults, recommendation) == recommendation
  {
  }

  /* ---------- remembered sections ---------- */

  /** Python's `s[:k]` for an integer `k` (a negative `k` drops that many from the end). */
  function Prefix(s: seq<string>, k: int): (r: seq<string>)
    ensures |r| <= |s| && r == s[..|r|]
    ensures k >= 0 ==> |r| == if k < |s| then k else |s|
  {
    if k >= 0 then (if k < |s| then s[..k] else s)
    else if |s| + k > 0 then s[..|s| + k] else []
  }

  /** What one memory namespace adds: nothing when no text was found, else its tag and at most `topK` texts. */
  function Section(tag: string, extracted: seq<string>, topK: int): (r: seq<string>)
    ensures extracted == [] <==> r == []
    ensures |r| <= |extracted| + 1
    ensures r != [] ==> r[0] == tag && r[1..] == extracted[..|r| - 1]
    ensures topK >= 0 ==> |r| <= 1 + topK
  {
    if extracted == [] then [] else [tag] + Prefix(extracted, topK)
  }

  /** The memory lookup's answer: the sections line by line, or the nothing-found message. */
  function MemoryText(sections: seq<string>): string
  {
    if sections == [] then NoMemoryInfo + "。" else Join("\n", sections)
  }

  /** An empty lookup says nothing was found, and a recommendation then leaves memory out of its query. */
  lemma EmptyMemoryUnused()
    ensures !UsableMemory(MemoryText([]))
  {
    var m := MemoryText([]);
    assert m[..|NoMemoryInfo|] == NoMemoryInfo;
    assert StartsWith(m, NoMemoryInfo);
  }

  /* ---------- product links ---------- */

  /**
   * The product link made absolute: kept when it starts with "http", prefixed with the
   * store's host when it starts with "/", and with the host and a "/" otherwise; no
   * link when the attribute is missing or empty.
   */
  function ProductUrl(href: Option<string>): (url: string)
    ensures !Given(href) ==> url == ""
    ensures Given(href) ==> StartsWith(url, "http")
    ensures Given(href) ==> |href.value| <= |url| && url[|url| - |href.value|..] == href.value
    ensures Given(href) && StartsWith(href.value, "http") ==> url == href.value
  {
    if !Given(href) then ""
    else
      var h := href.value;
      var url := if StartsWith(h, "http") then h
                 else if StartsWith(h, "/") then StoreHost + h
                 else StoreHost + "/" + h;
      assert StoreHost[..4] == "http";
      assert url[|url| - |h|..] == h;
      url
  }

  /** A site-relative link lands on the store's host with exactly one "/" between host and path. */
  lemma RelativeLinkOnStore(path: string)
    requires path != "" && !StartsWith(path, "http")
    ensures ProductUrl(Some(path)) == StoreHost + (if path[0] == '/' then path else "/" + path)
  {
    if path[0] == '/' {
      assert path[..1] == "/";
    } else {
      assert path[..1] != "/";
    }
  }
}
