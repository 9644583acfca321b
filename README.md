# Sake sommelier agent: a verified model of its core

This project models the core of a sake-recommendation system in Dafny. There are two sides.

- **The agent** runs on an agent runtime. Its parts are:
  - the invocation entry point, which works out the prompt, the actor, the session and the memory to use;
  - the per-request runtime context slot;
  - the translation of the agent framework's stream events into the wire events sent to the client;
  - the knowledge-base search and recommendation tools, with their query, filter and result formatting.
- **The Streamlit front end** is modelled without its UI. Its parts are:
  - the invocation of the agent runtime, with qualifier fallback;
  - the client-side parsing of the server-sent-event stream: frames, `data:` lines, `text-delta` events, the leftover buffer and the fallback for a non-streaming reply;
  - the extraction of text from a non-streaming reply;
  - the session-state manager;
  - the preference converter between the form's labels and the backend's codes;
  - the backend client, which talks to the tool gateway or invokes the Lambdas directly;
  - the Cognito sign-up, sign-in and ID-token decoding helpers.

Python values are modelled by one datatype, `Values.Value` (strings, integers, floats with their printed text, booleans, None, lists, dicts as ordered item lists, and other objects). The same module models the Python built-ins the code relies on: truthiness, `or`, `dict.get`, item assignment, `str`, `repr`.

Everything outside the process is a function parameter. That covers the runtime, the knowledge base, Lambda, Cognito, HTTP, JSON, base64 and UTF-8 validity. Each operation is specified by a function. Where the source mutates state (the context variable, the stream's accumulated message, Streamlit's session state), a class holds that state and its methods are proved equal to the specifying functions.

Modules, one per source file or concern:

- `Values`, `Text`: the Python model.
- `RuntimeContext`, `AgentIdentity`, `AgentStream`, `AgentInvoke`, `SakeTools`: the agent.
- `RuntimeInvoke`, `SseFraming`, `ClientStream`, `ResponseText`: the front end's agent client.
- `PreferenceConverter`, `Session`, `BackendHelper`, `Auth`: the front end's utilities.

## Model

| member | source | states |
|---|---|---|
| RuntimeContext.DefaultContext | agent/runtime_context.py:11-13 | the context used when none is set has actor `default_user` and session `sake_session_default_user` |
| RuntimeContext.Effective | agent/runtime_context.py:26-28 | the context read is the one set, or the default when none is set |
| RuntimeContext.ContextSlot.constructor | agent/runtime_context.py:15-18 | a fresh slot holds no context |
| RuntimeContext.ContextSlot.Set | agent/runtime_context.py:21-23 | after set, the slot holds exactly the given actor and session |
| RuntimeContext.ContextSlot.Get | agent/runtime_context.py:26-28 | get returns the stored context, or the default when nothing is stored |
| RuntimeContext.ContextSlot.Clear | agent/runtime_context.py:31-33 | after clear, the slot is empty again |
| RuntimeContext.Lifecycle | agent/runtime_context.py:11-33 | default before set, the given identity between set and clear, default again after clear |
| AgentIdentity.FirstHeaderActor | agent/agent.py:227-237 | the actor comes from the first header source that carries a truthy actor header, and only from such a source |
| AgentIdentity.ResolveActorId | agent/agent.py:224-240 | the first header source with a truthy actor header decides; without one, the payload's truthy `actor_id`, else its truthy `actorId`, else `default_user`; the actor is always truthy |
| AgentIdentity.HeaderBeatsPayload | agent/agent.py:227-234 | an actor header on the request context wins over the payload's actor fields |
| AgentIdentity.DefaultIdentity | agent/agent.py:224-248 | with no header, payload or context identity, the actor is `default_user` and the session is the runtime context's default session |
| AgentIdentity.SynthesizedSession | agent/agent.py:248 | a synthesized session id starts with `sake_session_` |
| AgentIdentity.ResolveSessionId | agent/agent.py:243-248 | the context's truthy `session_id` wins; else the payload's truthy `session_id`, else its truthy `sessionId`, else the session synthesized from the actor; the session is always truthy |
| AgentIdentity.SessionFallback | agent/agent.py:243-248 | with no session on the context or payload, the session is `sake_session_` followed by the actor |
| AgentIdentity.FirstTruthy | agent/agent.py:271-275 | picks a truthy candidate, and returns none exactly when every candidate is falsy |
| AgentIdentity.ResolveMemoryId | agent/agent.py:251-275 | a set environment memory id wins; otherwise the first truthy context candidate is used; any result is truthy |
| AgentIdentity.ExtractPrompt | agent/agent.py:332-337 | there is a prompt exactly when `prompt` (or `input`, when `prompt` is falsy) is a string that is not blank, and it is that string stripped |
| AgentIdentity.PromptBeatsInput | agent/agent.py:333 | with a truthy `prompt`, whatever `input` holds does not change the result |
| AgentIdentity.BlankPromptHidesInput | agent/agent.py:333-335 | a `prompt` of only whitespace is truthy, so it gives no prompt even when `input` holds text |
| AgentStream.Stringify | agent/agent.py:383-395 | the result is plain JSON; scalars are kept, objects become their `str`, lists and dicts keep their length and keys |
| AgentStream.StringifyPlain | agent/agent.py:383-395 | already-plain values are left unchanged |
| AgentStream.StringifyIdempotent | agent/agent.py:383-395 | stringifying twice gives the same result as stringifying once |
| AgentStream.BlocksTextEmpty | agent/agent.py:369-380 | content whose blocks carry no text gives the empty text |
| AgentStream.ContentBlocksToText | agent/agent.py:369-380 | the loop computes the concatenation of the blocks' texts |
| AgentStream.AttrTextsSucceed | agent/agent.py:347-351 | the `AttrTexts` loop over the blocks succeeds exactly when no block's truthy `text` is a non-string |
| AgentStream.AttrTextsValue | agent/agent.py:347-351 | on success it yields the text so far followed by every truthy `text`, in block order |
| AgentStream.AttrTextsFirstError | agent/agent.py:347-351 | on failure the error is the `TypeError` the first non-string truthy `text` raises |
| AgentStream.ResponseMessage | agent/agent.py:343-346 | the message is the result's `message` attribute, or the result itself when it has none; a string message is the text |
| AgentStream.ResponseMessageBlocks | agent/agent.py:347-351 | a message whose `content` is a list gives the concatenation of its blocks' truthy `text` attributes, in order |
| AgentStream.ResponseMessageParseFailure | agent/agent.py:343-355 | when a block's truthy `text` is not a string, the text is the parse-failure notice followed by the error the first such block raises |
| AgentStream.ResponseMessageFallback | agent/agent.py:352-353 | any other non-string message gives its `str` |
| AgentStream.FormatResponse | agent/agent.py:340-366 | the formatted response carries the result's message; metrics appear only when the result has truthy metrics |
| AgentStream.FormatResponseMetrics | agent/agent.py:359-364 | truthy metrics give `usage` from `accumulated_usage` (default `{}`) and `latency_ms` from the `latencyMs` of `accumulated_metrics` (default `{}`); a non-dict `accumulated_metrics` fails on `get` |
| AgentStream.Normalize | agent/agent.py:398-463 | normalising an event fails only for a dict event with a `result` that cannot be formatted |
| AgentStream.Accumulate | agent/agent.py:398-432 | a non-dict event leaves the accumulated message unchanged |
| AgentStream.StreamState.constructor | agent/agent.py:527 | a new stream starts with an empty accumulated message |
| AgentStream.FormatStreamEvent | agent/agent.py:398-463 | the wire event is the normalised event's wire form, or the failure; the accumulated message becomes the accumulated value |
| AgentStream.NonDictEvent | agent/agent.py:404-405 | a non-dict event is passed through as `{type: event, payload}` and accumulates nothing |
| AgentStream.DataWins | agent/agent.py:407-414 | an event with `data` is a text delta, and a string `data` is appended to the accumulated message |
| AgentStream.MessageReplaces | agent/agent.py:423-432 | a message event replaces the accumulated message with its non-empty content text |
| AgentStream.OnlyDataAndMessageAccumulate | agent/agent.py:416-463 | no other kind of event changes the accumulated message |
| AgentStream.ResultBackfill | agent/agent.py:434-439 | a final result carries its own message, or the accumulated text when its message is empty |
| AgentStream.CompleteCarriesMessage | agent/agent.py:441-445 | a completion event carries `message` exactly when text has accumulated |
| AgentStream.ForceStopReason | agent/agent.py:447-452 | a forced stop reports its reason, or the `force_stop` value when no reason is given |
| AgentStream.ToolBranch | agent/agent.py:416-421 | a truthy `current_tool_use` without `data` is a tool event `{type: tool, tool}` over the stringified tool, and accumulates nothing |
| AgentStream.DictCatchAll | agent/agent.py:460-463 | a dict matching none of the earlier shapes is passed through whole, stringified, and accumulates nothing |
| AgentStream.ErrorBranch | agent/agent.py:454-458 | an event with `error` (and none of the earlier keys) becomes an error event over the stringified event |
| AgentStream.ErrorEventFields | agent/agent.py:454-458 | the error event keeps every field of the event, and has type `error` unless the event sets its own type |
| AgentStream.RunFrom | agent/agent.py:531-533 | a run without failure emits one wire event per framework event, and never more |
| AgentStream.TextStreamAccumulates | agent/agent.py:527-533 | a stream of text chunks emits one text delta per chunk, and the accumulated message is their concatenation |
| AgentInvoke.ErrorWire | agent/agent.py:512-523 | the error reply is a dict with type `error` and the given message |
| AgentInvoke.InvokeSpec | agent/agent.py:511-535 | a missing prompt and a missing memory id are each answered with exactly one error event |
| AgentInvoke.RunStream | agent/agent.py:527-535 | the streaming loop emits exactly the specified wire events and failure |
| AgentInvoke.Invoke | agent/agent.py:511-535 | the invocation yields the specified outputs; a refused request leaves the context slot alone, and an admitted one leaves it cleared |
| AgentInvoke.BlankPromptRefused | agent/agent.py:512-515 | a whitespace-only prompt is refused with the prompt-required error |
| AgentInvoke.EnvMemoryAdmits | agent/agent.py:519-523 | a prompt plus a configured memory id is always admitted |
| AgentInvoke.FlattenAppend | agent/agent.py:322-327 | `FlattenTurns`: flattening the turns distributes over concatenation |
| AgentInvoke.FlattenOrigin | agent/agent.py:322-329 | `FlattenTurns`: every flattened message comes from some turn, either as the turn itself or as one of its messages |
| AgentInvoke.LoadConversationHistory | agent/agent.py:310-329 | without a memory id the load fails with the memory-id error; otherwise it returns all the turns' messages in order |
| SakeTools.ResolveIdentity | agent/sake_tools.py:31-42 | explicit arguments win over environment variables, which win over the runtime context |
| SakeTools.IdentityDefaults | agent/sake_tools.py:31-42 | with nothing given and no context set, the identity is the runtime context's defaults |
| SakeTools.Labelled | agent/sake_tools.py:66-74 | a query part is added exactly when its field is given |
| SakeTools.QueryPartsCount | agent/sake_tools.py:66-76 | the query has one part per given criterion, the name's part included |
| SakeTools.FilterOn | agent/sake_tools.py:79-85 | a metadata filter is added exactly when its field is given |
| SakeTools.Filters | agent/sake_tools.py:79-85 | one filter per given criterion, and none exactly when no criterion is given |
| SakeTools.NoCriteriaSearch | agent/sake_tools.py:66-85 | with no criteria the query is the default search text, with no filters |
| SakeTools.BuildSearchQuery | agent/sake_tools.py:65-85 | the loops build the specified query text and filters |
| SakeTools.BuildFilters | agent/sake_tools.py:79-85 | the loop builds the specified filters |
| SakeTools.SearchConfiguration | agent/sake_tools.py:88-97 | the retrieval configuration has a filter exactly when there are filters, combined with `andAll` |
| SakeTools.FilterAttachedIffCriteria | agent/sake_tools.py:79-97 | a filter is attached exactly when region, type or price range is given |
| SakeTools.RetrievalItems | agent/sake_tools.py:102-103 | a response without `retrievalResults` has no hits |
| SakeTools.FormatHit | agent/sake_tools.py:104-106 | each formatted hit starts with its heading |
| SakeTools.FormatHits | agent/sake_tools.py:102-106 | one formatted entry per hit |
| SakeTools.FormatHitsHeadings | agent/sake_tools.py:102-106 | each formatted entry starts with its own heading, numbered from one in hit order |
| SakeTools.FormatResults | agent/sake_tools.py:102-106 | the formatting loop computes the specified entries |
| SakeTools.FailureStays | agent/sake_tools.py:102-114 | once formatting a hit fails, the whole formatting fails with that error |
| SakeTools.SearchSake | agent/sake_tools.py:46-114 | the search tool returns the specified text |
| SakeTools.SearchWithoutKb | agent/sake_tools.py:61-63 | without a knowledge base id the tool answers with the configuration message |
| SakeTools.SearchWithoutHits | agent/sake_tools.py:108-109 | a search without hits answers with the not-found message |
| SakeTools.RecommendQuery | agent/sake_tools.py:166-175 | the recommendation query is never empty |
| SakeTools.FailedMemoryIgnored | agent/sake_tools.py:161-175 | memory that is not usable (a failed lookup, or one that says nothing was found) is ignored: the query is exactly the stated preferences, or the default query |
| SakeTools.UsableMemoryLeads | agent/sake_tools.py:166-175 | with usable memory the query is exactly the past preferences and a newline, followed by the current preferences when they are given |
| SakeTools.BuildRecommendQuery | agent/sake_tools.py:166-175 | the method builds the specified query |
| SakeTools.RecommendSake | agent/sake_tools.py:153-213 | the recommendation tool returns the specified text |
| SakeTools.FailedMemoryNotShown | agent/sake_tools.py:200-208 | a failed memory lookup is not prefixed to the recommendation |
| SakeTools.Prefix | agent/sake_tools.py:355-363 | taking the top k keeps the first k entries, or all of them when there are fewer |
| SakeTools.Section | agent/sake_tools.py:355-363 | a memory section is its tag followed by at most top-k extracted entries, and is empty exactly when nothing was extracted |
| SakeTools.EmptyMemoryUnused | agent/sake_tools.py:396-399 | an empty memory result is never used as past preferences |
| SakeTools.ProductUrl | agent/sake_tools.py:522-530 | a product link is absolute and ends with the scraped href; an absolute href is kept unchanged |
| SakeTools.RelativeLinkOnStore | agent/sake_tools.py:522-530 | a relative href is joined to the store's host with exactly one slash |
| RuntimeInvoke.CandidatesOf | streamlit/streamlit_app/app.py:85-94 | for the stripped alias, two or three distinct qualifiers, ending with "no qualifier", including `DEFAULT`, and none empty |
| RuntimeInvoke.ConfiguredAliasFirst | streamlit/streamlit_app/app.py:85-89 | a configured alias, stripped, is tried first |
| RuntimeInvoke.NoAliasCandidates | streamlit/streamlit_app/app.py:85-94 | without an alias the candidates are `DEFAULT` and then no qualifier |
| RuntimeInvoke.RequestFields | streamlit/streamlit_app/app.py:99-106 | the request carries a `qualifier` exactly when one is given and non-empty, plus the runtime, session and payload |
| RuntimeInvoke.Attempted | streamlit/streamlit_app/app.py:108-115 | the qualifiers tried are a non-empty prefix of the candidates |
| RuntimeInvoke.AtMostThreeAttempts | streamlit/streamlit_app/app.py:85-115 | between one and three distinct qualifiers are tried |
| RuntimeInvoke.NeverExhausted | streamlit/streamlit_app/app.py:108-117 | since the last candidate is "no qualifier", the loop never falls through to the final raise |
| RuntimeInvoke.BuildCandidates | streamlit/streamlit_app/app.py:85-94 | the method builds the specified candidates |
| RuntimeInvoke.AppendQualifiers | streamlit/streamlit_app/app.py:85-94 | appending gives the stripped alias when not empty, then `DEFAULT` unless the alias already is it, then no qualifier |
| RuntimeInvoke.TryCandidates | streamlit/streamlit_app/app.py:95-117 | for any candidate list ending in no qualifier, the loop returns the outcome of trying the candidates in order, moving on only on a resource-not-found error for a qualified attempt |
| RuntimeInvoke.InvokeAgentRuntime | streamlit/streamlit_app/app.py:78-117 | the invocation returns the outcome of trying the configured alias, "DEFAULT" and no qualifier in order |
| SseFraming.FindDelim | streamlit/streamlit_app/app.py:202 | the search finds a position where the frame delimiter matches, with no match before it, and finds none only when the delimiter matches nowhere |
| SseFraming.FindDelimUnique | streamlit/streamlit_app/app.py:202 | a match with no match before it is the one the search finds |
| SseFraming.FirstMatchStable | streamlit/streamlit_app/app.py:199-204 | appending more input does not move a delimiter already found |
| SseFraming.Frames | streamlit/streamlit_app/app.py:199-206 | the remainder left after cutting every complete frame holds no delimiter |
| SseFraming.FramesRejoin | streamlit/streamlit_app/app.py:199-206 | the frames, each followed by its delimiter, then the remainder, give back the buffer |
| SseFraming.FramesStep | streamlit/streamlit_app/app.py:205-206 | with more input appended, the first frame is still cut first and the rest is framed after it |
| SseFraming.FramesPrefix | streamlit/streamlit_app/app.py:194-212 | framing the remainder plus new input continues the framing of the whole input |
| SseFraming.FramesFirst | streamlit/streamlit_app/app.py:202-206 | the first frame is the text before the first delimiter |
| ClientStream.DataOf | streamlit/streamlit_app/app.py:127-132 | a data line starts with `data:` |
| ClientStream.SseData | streamlit/streamlit_app/app.py:120-137 | a blank event carries no data, and the data found is non-empty with no surrounding whitespace |
| ClientStream.WholeBlockWithoutData | streamlit/streamlit_app/app.py:133-134 | a block without data lines is its own data, stripped |
| ClientStream.BlankBlockIsNone | streamlit/streamlit_app/app.py:123-137 | `ParseSseSpec`: a blank block, or one whose data is blank, parses to None |
| ClientStream.NonJsonIsText | streamlit/streamlit_app/app.py:139-142 | `ParseSseSpec`: data that is not JSON is returned as the text itself |
| ClientStream.CollectDataLines | streamlit/streamlit_app/app.py:126-132 | the loop collects exactly the `data:` lines' payloads |
| ClientStream.EventData | streamlit/streamlit_app/app.py:123-137 | the method computes the event's data |
| ClientStream.ParseSseEvent | streamlit/streamlit_app/app.py:120-142 | the method computes `ParseSseSpec`, the parsed event |
| ClientStream.DataLineAppends | streamlit/streamlit_app/app.py:129-132 | a `data:` line appends its payload, left-stripped |
| ClientStream.CommentLineSkipped | streamlit/streamlit_app/app.py:129-132 | a comment line adds no data |
| ClientStream.TextDeltaNotTerminal | streamlit/streamlit_app/app.py:151-163 | `text-delta` is not a terminal event type |
| ClientStream.DeltaSource | streamlit/streamlit_app/app.py:145-166 | `ExtractDelta`: a non-empty delta only comes from a `text-delta` event's string `delta` |
| ClientStream.TerminalHasNoDelta | streamlit/streamlit_app/app.py:151-159 | `ExtractDelta`: a terminal event yields no delta |
| ClientStream.TextDeltaYieldsDelta | streamlit/streamlit_app/app.py:160-164 | `ExtractDelta`: a `text-delta` event with a string delta yields that delta |
| ClientStream.AgentDeltaDecoded | streamlit/streamlit_app/app.py:145-166 | each text delta the agent sends is decoded back to its text by the client |
| ClientStream.OtherAgentEventsIgnored | streamlit/streamlit_app/app.py:145-166 | every other kind of wire event from the agent yields no text |
| ClientStream.FrameDelta | streamlit/streamlit_app/app.py:205-212 | a frame yields at most one delta, and never an empty one |
| ClientStream.FrameDeltas | streamlit/streamlit_app/app.py:201-212 | at most one delta per frame, and none empty |
| ClientStream.LeftoverDelta | streamlit/streamlit_app/app.py:228-233 | the remainder yields at most one non-empty delta, and only when it is not blank |
| ClientStream.FallbackAsWritten | streamlit/streamlit_app/app.py:235-245 | as written, a reply that is not valid UTF-8 raises |
| ClientStream.Fallback | streamlit/streamlit_app/app.py:235-245 | a reply that is not valid UTF-8 yields its leniently decoded text; a valid one is handled as written |
| ClientStream.UndecodableReplyRaises | streamlit/streamlit_app/app.py:235-241 | the reply `ok` with invalid bytes raises as written, and yields `ok` when corrected |
| ClientStream.FrameDeltasAppend | streamlit/streamlit_app/app.py:201-212 | the deltas of consecutive frames concatenate |
| ClientStream.DeltasFirst | streamlit/streamlit_app/app.py:201-212 | the deltas are the first frame's delta followed by the rest's |
| ClientStream.DeltasAfterFirst | streamlit/streamlit_app/app.py:201-212 | cutting the first frame preserves what remains to be yielded |
| ClientStream.ParseFrame | streamlit/streamlit_app/app.py:205-212 | the method computes the frame's delta |
| ClientStream.CutFirst | streamlit/streamlit_app/app.py:201-212 | one cut shrinks the buffer and preserves the deltas still to come |
| ClientStream.Drain | streamlit/streamlit_app/app.py:199-226 | the loop yields every complete frame's delta, leaves the remainder, and keeps the accumulated text equal to the yielded deltas |
| ClientStream.Leftover | streamlit/streamlit_app/app.py:228-233 | the remainder's delta is yielded and accumulated |
| ClientStream.DrainThenRest | streamlit/streamlit_app/app.py:194-226 | draining part of the input and then the rest yields what draining all of it yields |
| ClientStream.ReadPieces | streamlit/streamlit_app/app.py:194-226 | reading the stream piece by piece yields the deltas of the whole stream's frames and keeps its remainder, so how the stream is split into chunks does not change what is yielded |
| ClientStream.StreamBedrockAgent | streamlit/streamlit_app/app.py:169-245 | the generator yields exactly `StreamSpec`: every frame's delta, then a non-blank leftover's, and when none came but bytes arrived, the corrected fallback's text or failure |
| ClientStream.StreamAgreesWhenDecodable | streamlit/streamlit_app/app.py:194-245 | for a reply that decodes strictly, `StreamSpec` and the as-written `StreamSpecAsWritten` yield the same |
| ClientStream.UndecodableStream | streamlit/streamlit_app/app.py:235-245 | a reply with bytes, no delta and invalid UTF-8 fails as written, and yields its leniently decoded text once corrected |
| ClientStream.StreamRequest | streamlit/streamlit_app/app.py:172-181 | the call fails exactly when no runtime ARN is configured; otherwise the payload has only the prompt and, exactly when a user id or email is known, the actor, which is the user id, else the email |
| ClientStream.ResponseStream | streamlit/streamlit_app/app.py:184-186 | the call fails exactly when the runtime returns no response stream |
| ResponseText.CollectItemsAppend | streamlit/streamlit_app/app.py:50-52 | collecting from a list distributes over concatenation |
| ResponseText.CollectEntriesAppend | streamlit/streamlit_app/app.py:38-49 | collecting from a dict distributes over its items |
| ResponseText.Collect | streamlit/streamlit_app/app.py:37-54 | the recursive walk appends the texts found in the value, in order |
| ResponseText.StrippedPieces | streamlit/streamlit_app/app.py:56-58 | the kept pieces are non-empty and have no surrounding whitespace |
| ResponseText.StrippedPiecesEmpty | streamlit/streamlit_app/app.py:56-58 | nothing is kept exactly when every text is blank |
| ResponseText.MergedEmpty | streamlit/streamlit_app/app.py:56-58 | the merged text is empty exactly when every collected text is blank |
| ResponseText.MergedTrimmed | streamlit/streamlit_app/app.py:56-58 | merged text that is not empty has no surrounding whitespace |
| ResponseText.ExtractTextFromAgentResponse | streamlit/streamlit_app/app.py:32-60 | the method computes `ResponseTextSpec`, the reply's text; merged text starts with a non-space |
| ResponseText.EventText | streamlit/streamlit_app/app.py:63-77 | a scalar event's text is computed as a whole reply's is |
| ResponseText.EventWithoutText | streamlit/streamlit_app/app.py:63-77 | a dict or list event without text yields the empty text, never its JSON dump |
| ResponseText.EventWithText | streamlit/streamlit_app/app.py:63-77 | a dict or list event with text yields the merged text |
| ResponseText.TextKeyCollected | streamlit/streamlit_app/app.py:40-47 | a string under a text key is collected |
| ResponseText.OtherKeySearched | streamlit/streamlit_app/app.py:48-49 | any other value is searched recursively |
| ResponseText.MergeTwo | streamlit/streamlit_app/app.py:56-58 | two texts are merged stripped and joined by a newline |
| PreferenceConverter.FindInt | streamlit/streamlit_app/utils/preference_converter.py:19-34 | the integer-keyed lookup finds an entry exactly when the key compares equal to one, and returns that entry's label |
| PreferenceConverter.FindText | streamlit/streamlit_app/utils/preference_converter.py:97-125 | the text-keyed lookup finds an entry exactly when the key is one of the table's strings |
| PreferenceConverter.GetInt | streamlit/streamlit_app/utils/preference_converter.py:70-71 | `dict.get` on an integer table fails exactly for an unhashable key, and otherwise returns the label or the default |
| PreferenceConverter.GetText | streamlit/streamlit_app/utils/preference_converter.py:150-155 | `dict.get` on a text table fails exactly for an unhashable key, and otherwise returns the entry or the default |
| PreferenceConverter.Translate | streamlit/streamlit_app/utils/preference_converter.py:148-149 | translating a sake type fails exactly for an unhashable item |
| PreferenceConverter.TranslateAll | streamlit/streamlit_app/utils/preference_converter.py:148-149 | translating a type list keeps its length and translates it item by item |
| PreferenceConverter.ItemsOf | streamlit/streamlit_app/utils/preference_converter.py:69 | a list is iterated over its items |
| PreferenceConverter.PriceRange | streamlit/streamlit_app/utils/preference_converter.py:45-54 | the budget falls into the price bands at 1,000, 2,000, 3,000 and 5,000 yen |
| PreferenceConverter.PriceRangeOf | streamlit/streamlit_app/utils/preference_converter.py:44-54 | the price range is found exactly when the budget is a number |
| PreferenceConverter.SweetnessRoundTrip | streamlit/streamlit_app/utils/preference_converter.py:19-25 | every sweetness level maps to its label and back |
| PreferenceConverter.BodyRoundTrip | streamlit/streamlit_app/utils/preference_converter.py:28-34 | every richness level maps to its body label and back |
| PreferenceConverter.ExperienceRoundTrip | streamlit/streamlit_app/utils/preference_converter.py:37-41 | every experience code maps to its label and back |
| PreferenceConverter.BudgetRoundTrip | streamlit/streamlit_app/utils/preference_converter.py:128-134 | every price range's budget falls back into that range |
| PreferenceConverter.SakeTypeTablesInverse | streamlit/streamlit_app/utils/preference_converter.py:137-146 | the name-to-code table is the inverse of the code-to-name table |
| PreferenceConverter.SakeTypeToName | streamlit/streamlit_app/utils/preference_converter.py:57-66 | every sake type code has its display name |
| PreferenceConverter.SakeTypeToCode | streamlit/streamlit_app/utils/preference_converter.py:137-146 | every display name has its code |
| PreferenceConverter.NamesAreNotCodes | streamlit/streamlit_app/utils/preference_converter.py:57-66 | no display name is also a code |
| PreferenceConverter.CodesAreNotNames | streamlit/streamlit_app/utils/preference_converter.py:137-146 | no code is also a display name |
| PreferenceConverter.UnknownTypeKept | streamlit/streamlit_app/utils/preference_converter.py:148-149 | an item is kept unchanged exactly when the table does not know it |
| PreferenceConverter.FormTypeRoundTrip | streamlit/streamlit_app/utils/preference_converter.py:148-149 | a display name converts to a code and back to itself |
| PreferenceConverter.StoredTypeRoundTrip | streamlit/streamlit_app/utils/preference_converter.py:69 | a code converts to a display name and back to itself |
| PreferenceConverter.FormTypesRoundTrip | streamlit/streamlit_app/utils/preference_converter.py:148-149 | a list of display names converts to codes and back to itself |
| PreferenceConverter.StoredTypesRoundTrip | streamlit/streamlit_app/utils/preference_converter.py:69 | a list of codes converts to display names and back to itself |
| PreferenceConverter.DisplayToBackend | streamlit/streamlit_app/utils/preference_converter.py:148-157 | `ToBackend`: the backend dict of form preferences built from table entries is exactly those entries' codes |
| PreferenceConverter.BackendToDisplay | streamlit/streamlit_app/utils/preference_converter.py:68-83 | `ToDisplay`: the form dict of backend preferences built from table entries is exactly those entries' labels |
| PreferenceConverter.DisplayRoundTrip | streamlit/streamlit_app/utils/preference_converter.py:68-157 | form preferences converted to the backend and back keep their types, sweetness, body, price range and experience |
| PreferenceConverter.BackendRoundTrip | streamlit/streamlit_app/utils/preference_converter.py:68-157 | backend preferences converted to the form and back keep their categories, sweetness, richness, budget and experience |
| PreferenceConverter.DisplayFallbacks | streamlit/streamlit_app/utils/preference_converter.py:44-75 | missing or unknown backend values show as the middle sweetness and body, monthly experience, and the 2,000～3,000 yen range |
| PreferenceConverter.FormOnlyDefaults | streamlit/streamlit_app/utils/preference_converter.py:76-82 | the form-only fields are carried over, defaulting to empty lists, `初心者` and the empty text |
| PreferenceConverter.BackendFallbacks | streamlit/streamlit_app/utils/preference_converter.py:148-156 | unknown or missing form values become level 3, `beginner` and a budget of 2500, and `avoid_categories` is always empty |
| PreferenceConverter.TypeListsPreserved | streamlit/streamlit_app/utils/preference_converter.py:148-149 | type lists keep their length in both directions, and an unknown type is kept as it is |
| Session.FillMissingKeeps | streamlit/streamlit_app/utils/session.py:43-45 | `FillMissing`: initialisation keeps every key already set |
| Session.FillMissingOnlyTableKeys | streamlit/streamlit_app/utils/session.py:43-45 | `FillMissing`: initialisation adds only keys from the defaults table |
| Session.FillMissingDefault | streamlit/streamlit_app/utils/session.py:43-45 | `FillMissing`: a missing key gets its default |
| Session.FillMissingNoop | streamlit/streamlit_app/utils/session.py:43-45 | `FillMissing`: a state with every key set is left unchanged |
| Session.FillMissingCovers | streamlit/streamlit_app/utils/session.py:43-45 | `FillMissing`: after initialisation every default key is present |
| Session.InitSpec | streamlit/streamlit_app/utils/session.py:28-45 | initialisation keeps what is set, fills each missing default, and adds nothing else |
| Session.LoginSpec | streamlit/streamlit_app/utils/session.py:63-78 | after login the user is authenticated and the user info is the given user |
| Session.LogoutRestoresDefaults | streamlit/streamlit_app/utils/session.py:81-92 | after logout every default key holds its default value, the user is not authenticated and the chat history is empty |
| Session.AddChatMessageSpec | streamlit/streamlit_app/utils/session.py:130-135 | adding a message appends exactly that message to the history, and fails only when the history is not a list |
| Session.SessionManager.constructor | streamlit/streamlit_app/utils/session.py:167-168 | a manager starts from the initialised state |
| Session.SessionManager.Init | streamlit/streamlit_app/utils/session.py:28-45 | init initialises the current state |
| Session.SessionManager.Get | streamlit/streamlit_app/utils/session.py:48-50 | get returns the key's value or the default |
| Session.SessionManager.Set | streamlit/streamlit_app/utils/session.py:53-55 | set updates exactly one key |
| Session.SessionManager.IsAuthenticated | streamlit/streamlit_app/utils/session.py:58-60 | reports the authenticated flag, false when it is unset |
| Session.SessionManager.Login | streamlit/streamlit_app/utils/session.py:63-78 | login stores the user and tokens and sets the flag |
| Session.SessionManager.Logout | streamlit/streamlit_app/utils/session.py:81-92 | logout resets the user, tokens, flag, chat history and agent session |
| Session.SessionManager.GetUserId | streamlit/streamlit_app/utils/session.py:95-97 | returns the stored user id, None when unset |
| Session.SessionManager.GetUserEmail | streamlit/streamlit_app/utils/session.py:100-102 | returns the stored email, None when unset |
| Session.SessionManager.GetUserName | streamlit/streamlit_app/utils/session.py:105-107 | returns the stored user name, None when unset |
| Session.SessionManager.GetAccessToken | streamlit/streamlit_app/utils/session.py:110-112 | returns the stored access token, None when unset |
| Session.SessionManager.GetIdToken | streamlit/streamlit_app/utils/session.py:115-117 | returns the stored ID token, None when unset |
| Session.SessionManager.SetPreferences | streamlit/streamlit_app/utils/session.py:120-122 | stores the preferences under their key only |
| Session.SessionManager.GetPreferences | streamlit/streamlit_app/utils/session.py:125-127 | returns the stored preferences, or an empty dict |
| Session.SessionManager.AddChatMessage | streamlit/streamlit_app/utils/session.py:130-135 | appends the message to the chat history |
| Session.SessionManager.GetChatHistory | streamlit/streamlit_app/utils/session.py:138-140 | returns the chat history, an empty list when unset |
| Session.SessionManager.ClearChatHistory | streamlit/streamlit_app/utils/session.py:143-145 | empties the chat history and changes nothing else |
| Session.SessionManager.SetAgentSessionId | streamlit/streamlit_app/utils/session.py:148-150 | stores the agent session id only |
| Session.SessionManager.GetAgentSessionId | streamlit/streamlit_app/utils/session.py:153-155 | returns the agent session id, None when unset |
| Session.SessionManager.GetUserInfo | streamlit/streamlit_app/utils/session.py:158-164 | returns id, email and name as stored |
| BackendHelper.NewClient | streamlit/streamlit_app/utils/backend_helper.py:36-44 | the client uses the gateway exactly when a gateway URL is configured |
| BackendHelper.Headers | streamlit/streamlit_app/utils/backend_helper.py:46-57 | headers hold the JSON content type, plus a bearer token exactly when an ID token is present |
| BackendHelper.GetHeaders | streamlit/streamlit_app/utils/backend_helper.py:46-57 | the headers are built from the session's ID token |
| BackendHelper.In | streamlit/streamlit_app/utils/backend_helper.py:92-96 | `in` on a dict tests its keys, and raises for values that are not containers |
| BackendHelper.InvokeLambdaDirect | streamlit/streamlit_app/utils/backend_helper.py:59-119 | a direct invocation never lets an exception escape unwrapped |
| BackendHelper.DictReplyClassified | streamlit/streamlit_app/utils/backend_helper.py:92-111 | `ClassifyReply`: a Lambda error message raises, a reply without status is returned, a non-200 status raises, and a 200 reply's body is decoded |
| BackendHelper.FailuresBecomeBackendErrors | streamlit/streamlit_app/utils/backend_helper.py:113-119 | `WrapFailure`: a backend error keeps its text, and encoding and parsing failures are reported as invocation and parse errors |
| BackendHelper.ToolReply | streamlit/streamlit_app/utils/backend_helper.py:153-161 | a tool error becomes a backend error, and a success returns the content |
| BackendHelper.GatewayReply | streamlit/streamlit_app/utils/backend_helper.py:139-170 | timeout, network error, failed status and non-JSON replies each give their own message, and otherwise the tool's reply |
| BackendHelper.NonJsonGatewayReply | streamlit/streamlit_app/utils/backend_helper.py:153-170 | `GatewayReplyAsWritten`: as written, a non-JSON 200 reply is reported as a network error, not as an invalid gateway response |
| BackendHelper.GatewayRepliesAgree | streamlit/streamlit_app/utils/backend_helper.py:139-170 | apart from that case, `GatewayReplyAsWritten` and the corrected gateway handling agree |
| BackendHelper.ArnFor | streamlit/streamlit_app/utils/backend_helper.py:175-183 | only the four known tools have a Lambda, and a configured ARN is non-empty |
| BackendHelper.MakeRequest | streamlit/streamlit_app/utils/backend_helper.py:121-186 | with a gateway the call is answered by the corrected gateway handling of the POST's outcome, and escapes unwrapped exactly when a 200 JSON body is not a dict; without one, an unknown tool is an error, a known one invokes its function, and no exception escapes unwrapped |
| BackendHelper.MakeRequestAsWritten | streamlit/streamlit_app/utils/backend_helper.py:139-170 | through the gateway, the answer is the as-written handlers' answer except for a 200 reply whose body is not JSON |
| BackendHelper.GatewayRequestCarries | streamlit/streamlit_app/utils/backend_helper.py:139-146 | the gateway request posts the tool and arguments to `/invoke-tool` with the headers and default timeout |
| BackendHelper.FieldOf | streamlit/streamlit_app/utils/backend_helper.py:205-208 | a failed call passes through unchanged |
| BackendHelper.NotFoundAsNone | streamlit/streamlit_app/utils/backend_helper.py:210-213 | an error mentioning "not found" becomes None, and any other result is kept |
| BackendHelper.GetUserPreferences | streamlit/streamlit_app/utils/backend_helper.py:190-213 | without a user id the call fails with the user-id error |
| BackendHelper.SaveUserPreferences | streamlit/streamlit_app/utils/backend_helper.py:215-237 | without a user id the call fails with the user-id error |
| BackendHelper.RecommendationParams | streamlit/streamlit_app/utils/backend_helper.py:258-271 | the parameters are user, limit and preferences: `{}` when there are none, converted when they are in the form's terms, passed on otherwise |
| BackendHelper.BuildRecommendationParams | streamlit/streamlit_app/utils/backend_helper.py:258-271 | the method builds the specified parameters |
| BackendHelper.CanonicalFormPreferencesConverted | streamlit/streamlit_app/utils/backend_helper.py:262-265 | form preferences are always converted successfully, with no avoided categories |
| BackendHelper.GetRecommendations | streamlit/streamlit_app/utils/backend_helper.py:241-274 | without a logged-in user the call fails with the user-id error |
| BackendHelper.NotFoundHandling | streamlit/streamlit_app/utils/backend_helper.py:278-295 | `GetBreweryInfo` and `GetUserPreferences`: brewery and preference lookups turn "not found" into None, propagate other errors and return the reply's field |
| BackendHelper.SearchParams | streamlit/streamlit_app/utils/backend_helper.py:310-316 | a brewery search has action `search`, plus a prefecture and a name exactly when they are given |
| BackendHelper.BuildSearchParams | streamlit/streamlit_app/utils/backend_helper.py:310-316 | the method builds the specified parameters |
| BackendHelper.SearchBreweriesReply | streamlit/streamlit_app/utils/backend_helper.py:297-319 | `SearchBreweries`: a dict reply gives its `breweries`, `[]` when absent, and a failed call propagates unchanged |
| BackendHelper.RecognitionTimeout | streamlit/streamlit_app/utils/backend_helper.py:336-340 | `RecognizeSakeLabel`: label recognition is requested with a 60-second timeout |
| Auth.GetSecretHash | streamlit/streamlit_app/components/auth.py:25-36 | the public app client has no secret, so there is no secret hash |
| Auth.NoSecretHash | streamlit/streamlit_app/components/auth.py:61-63 | requests are therefore sent without a `SecretHash` |
| Auth.SignUp | streamlit/streamlit_app/components/auth.py:38-84 | sign-up succeeds exactly when the provider accepts it |
| Auth.ResendConfirmationCode | streamlit/streamlit_app/components/auth.py:86-121 | resending succeeds exactly when the provider accepts it |
| Auth.ConfirmSignUp | streamlit/streamlit_app/components/auth.py:123-161 | confirmation succeeds exactly when the provider accepts it |
| Auth.PaddingCount | streamlit/streamlit_app/components/auth.py:244-247 | fewer than four `=` are added, making the length a multiple of four |
| Auth.Pad | streamlit/streamlit_app/components/auth.py:244-247 | padding appends only `=` to reach a multiple of four, and leaves aligned text unchanged |
| Auth.MalformedTokenIsEmpty | streamlit/streamlit_app/components/auth.py:239-241 | `DecodeToken`: a token that is not three dot-separated parts decodes to an empty dict |
| Auth.SplitAtFirstDot | streamlit/streamlit_app/components/auth.py:239 | splitting at dots takes off the part before the first dot |
| Auth.SplitThree | streamlit/streamlit_app/components/auth.py:239-241 | a three-part token splits into its three parts |
| Auth.UndecodableTokenIsEmpty | streamlit/streamlit_app/components/auth.py:250-259 | `DecodeToken`: a three-part token whose middle part does not decode or parse yields an empty dict |
| Auth.WellFormedTokenDecoded | streamlit/streamlit_app/components/auth.py:226-255 | a well-formed token's claims are its padded, decoded middle part |
| Auth.TokensOf | streamlit/streamlit_app/components/auth.py:187-197 | tokens are read exactly when the result has access and ID tokens |
| Auth.SignIn | streamlit/streamlit_app/components/auth.py:163-224 | sign-in reports success exactly when it returns tokens |
| Auth.SignInSuccess | streamlit/streamlit_app/components/auth.py:187-197 | success means an authentication result with both tokens, whose tokens and decoded claims are returned |
| Auth.SignInFailures | streamlit/streamlit_app/components/auth.py:199-224 | failures return no tokens, known error codes get a fixed message while any other code carries the provider's message, and a challenge is not a success |
| Auth.SignInRequestFields | streamlit/streamlit_app/components/auth.py:175-183 | the password flow sends the email as user name and the password |
| Auth.SignOut | streamlit/streamlit_app/components/auth.py:261-280 | sign-out always succeeds, with a message that says whether the provider revoked the session |

## Left out

- The Streamlit UI (pages, widgets, `st.error`, `st.rerun`) and the agent's `main` entry point, because they are presentation and process start-up.
- `invoke_bedrock_agent` in `app.py`, because it only collects the streamed deltas for the UI.
- The tools `semantic_search`, `pairing_recommendation` and `get_sake_details`, the Playwright page scraping and the price regular expressions of `fetch_sake_price` (only its URL normalisation is modelled), and `save_conversation_to_memory`, because they are I/O against a browser or the memory service with no logic of their own beyond what is modelled.
- The agent-runtime client, configuration and UI component modules are not part of this model.
- The runtime, knowledge base, Lambda, Cognito, HTTP, JSON encoding and decoding, base64 and UTF-8 validity are parameters, because they are foreign calls. Incremental UTF-8 decoding of the stream is modelled as whole text plus a validity flag.
- Float formatting with two decimals (`:.2f`) is a parameter, because floating point is not modelled.
- The context variable's per-task isolation and the async generator's interleaving are not modelled: one request runs sequentially.
- Logging and printing are left out.
- Session.SessionManager.GetChatHistory: returns the history by value, so the aliasing of the returned Python list with the session state is not captured.
- Text.Lower: lower-cases ASCII only, which is exact for the "not found" test and the terminal event types it is applied to.
- Values.Repr: does not model string escapes, because no contract depends on them.
- BackendHelper.NewClient: does not model creating the boto3 Lambda client, because it is a foreign call.
- ClientStream.StreamBedrockAgent: yields the corrected fallback (`Fallback`, see Findings), not the as-written one; `StreamSpecAsWritten`, `StreamAgreesWhenDecodable` and `UndecodableStream` state exactly where the two differ.
- BackendHelper.MakeRequest: answers gateway calls with the corrected `GatewayReply` (see Findings), not `GatewayReplyAsWritten`; `MakeRequestAsWritten` states that they differ only for a 200 reply whose body is not JSON.
- SakeTools.RecommendQuery: the memory text is given as a parameter, because fetching it is a memory-service call.

## Findings

| source | as written | input that shows it | evidently intended | confidence | as-written member | corrected member |
|---|---|---|---|---|---|---|
| streamlit/streamlit_app/app.py:235-245 | the fallback decodes the whole reply with strict `decode("utf-8")` inside a `try` that only catches `JSONDecodeError`, so `UnicodeDecodeError` escapes the generator | a non-streaming reply whose bytes are `b"ok\xff"` (no `text-delta` frames) | yield the reply's text, decoded leniently as the stream itself is | not executed; high | ClientStream.FallbackAsWritten | ClientStream.Fallback |
| streamlit/streamlit_app/utils/backend_helper.py:153-170 | `response.json()` raises requests' `JSONDecodeError`, which with requests 2.27 and later is also a `RequestException`, and that handler comes first | a gateway reply with status 200 and body `not json` | report "Invalid response from Gateway" | not executed; medium, depends on the requests version | BackendHelper.NonJsonGatewayReply | BackendHelper.GatewayReply |
