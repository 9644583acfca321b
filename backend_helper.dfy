/**
 * The front end's backend client: how a tool call is routed (through the tool gateway
 * when one is configured, else straight to the function behind the tool), how each
 * transport result becomes a value or a BackendError, and how the request parameters
 * of the public operations are built. The network itself is an input.
 */
module BackendHelper {
  import opened Text
  import opened Values
  import PreferenceConverter
  import Session

  /** How a backend call ended: a value, a BackendError with its text, or another exception that propagates. */
  datatype Call = Done(value: Value) | BackendError(message: string) | Uncaught(message: string)

  /** What the gateway's HTTP transport did: timed out, failed otherwise, or answered with a status and a body. */
  datatype PostOutcome = TimedOut | RequestFailed(message: string) | Responded(statusCode: int, text: string)

  /**
   * The collaborators a call reaches: the gateway POST (given the request it is sent),
   * the direct function invocation (function ARN and payload text to the reply text, or
   * the exception's text), and the JSON codec.
   */
  datatype Transport = Transport(post: Value -> PostOutcome, invoke: (string, string) -> Result<string>,
                                 loads: string -> Result<Value>, dumps: Value -> Result<string>)

  /** The configured function ARN behind each tool (unset ones are None). */
  datatype LambdaArns = LambdaArns(recommendation: Option<string>, preference: Option<string>,
                                   brewery: Option<string>, imageRecognition: Option<string>)

  /** The client's configuration, fixed when it is built. */
  datatype Client = Client(gatewayUrl: Option<string>, timeout: int, useGateway: bool, arns: LambdaArns)

  const DefaultTimeout: int := 30
  const UserIdMissing: string := "User ID not available"

  /** Builds the client: the gateway is used exactly when its URL is set and non-empty. */
  function NewClient(gatewayUrl: Option<string>, arns: LambdaArns): (c: Client)
    ensures c.useGateway <==> Given(gatewayUrl)
    ensures c.timeout == DefaultTimeout && c.gatewayUrl == gatewayUrl && c.arns == arns
  {
    Client(gatewayUrl, DefaultTimeout, Given(gatewayUrl), arns)
  }

  /* ---------- request headers ---------- */

  /** The request headers: the content type, and a bearer token exactly when an ID token is stored. */
  function Headers(idToken: Value): (h: Entries)
    ensures Get(h, "Content-Type") == Some(Str("application/json"))
    ensures HasKey(h, "Authorization") <==> Truthy(idToken)
    ensures Truthy(idToken) ==> Get(h, "Authorization") == Some(Str("Bearer " + PyStr(idToken)))
    ensures |h| == if Truthy(idToken) then 2 else 1
  {
    var base := [("Content-Type", Str("application/json"))];
    assert Get(base, "Authorization") == None;
    GetFound(base, "Authorization");
    var h := if Truthy(idToken) then Put(base, "Authorization", Str("Bearer " + PyStr(idToken))) else base;
    GetFound(h, "Authorization");
    h
  }

  /** Builds the headers by inserting keys, as the client does, from the ID token in the session store. */
  method GetHeaders(session: Session.State) returns (headers: Entries)
    ensures headers == Headers(Session.Lookup(session, Session.IdTokenKey))
  {
    headers := [("Content-Type", Str("application/json"))];
    var idToken := Session.Lookup(session, Session.IdTokenKey);
    if Truthy(idToken) {
      headers := Put(headers, "Authorization", Str("Bearer " + PyStr(idToken)));
    }
  }

  /* ---------- direct function invocation ---------- */

  /** Python's `key in v` for a string key; TypeError when `v` cannot be searched. */
  function In(key: string, v: Value): (r: Result<bool>)
    ensures v.Map? ==> r == Ok(HasKey(v.entries, key))
    ensures r.Err? <==> !(v.Map? || v.List? || v.Str?)
  {
    match v
    case Map(entries) => Ok(HasKey(entries, key))
    case List(items) => Ok(Str(key) in items)
    case Str(s) => Ok(Contains(s, key))
    case _ => Err("argument of type '" + TypeName(v) + "' is not iterable")
  }

  /** An exception raised inside the invocation, by the kind the handlers tell apart. */
  datatype Failure = BackendFailure(message: string) | DecodeFailure(message: string) | OtherFailure(message: string)

  /** What the invocation's body did before its handlers ran. */
  datatype Attempt = Returned(value: Value) | Raised(failure: Failure)

  /** The handlers: a BackendError is re-raised as it is, a JSON error and anything else are wrapped. */
  function WrapFailure(f: Failure): string
  {
    match f
    case BackendFailure(m) => m
    case DecodeFailure(m) => "Failed to parse Lambda response: " + m
    case OtherFailure(m) => "Lambda invocation failed: " + m
  }

  /** The event the function receives: the JSON payload as its body, and the caller's id ("anonymous" when there is none). */
  function LambdaEvent(body: string, userId: Value): Value
  {
    Map([("body", Str(body)),
         ("requestContext", Map([("authorizer", Map([("user_id", Or(userId, Str("anonymous")))]))]))])
  }

  /**
   * The decoded reply of the function: an `errorMessage` is an error; a `statusCode`
   * other than 200 is an error showing the body (JSON-decoded when it can be); status 200
   * gives the body, JSON-decoded when it is text; a reply without a status is returned as it is.
   */
  function ClassifyReply(reply: Value, loads: string -> Result<Value>): Attempt
  {
    match In("errorMessage", reply)
    case Err(e) => Raised(OtherFailure(e))
    case Ok(hasError) =>
      if hasError then
        match Subscript(reply, "errorMessage")
        case Err(e) => Raised(OtherFailure(e))
        case Ok(message) => Raised(BackendFailure("Lambda error: " + PyStr(message)))
      else
        match In("statusCode", reply)
        case Err(e) => Raised(OtherFailure(e))
        case Ok(hasStatus) =>
          if !hasStatus then Returned(reply)
          else
            match Subscript(reply, "statusCode")
            case Err(e) => Raised(OtherFailure(e))
            case Ok(status) =>
              if !EqualsInt(status, 200) then
                var errorBody := GetOr(reply.entries, "body", Str("Unknown error"));
                var shown := if errorBody.Str? && loads(errorBody.s).Ok? then loads(errorBody.s).value else errorBody;
                Raised(BackendFailure("Lambda returned error: " + PyStr(shown)))
              else
                var body := GetOr(reply.entries, "body", Str("{}"));
                if !body.Str? then Returned(body)
                else match loads(body.s)
                  case Err(e) => Raised(DecodeFailure(e))
                  case Ok(decoded) => Returned(decoded)
  }

  /** Invokes the function behind a tool directly: serialise, invoke, decode, classify, and wrap any failure. */
  function InvokeLambdaDirect(arn: string, payload: Value, userId: Value, t: Transport): (r: Call)
    ensures !r.Uncaught?
  {
    var attempt :=
      match t.dumps(payload)
      case Err(e) => Raised(OtherFailure(e))
      case Ok(body) =>
        match t.dumps(LambdaEvent(body, userId))
        case Err(e) => Raised(OtherFailure(e))
        case Ok(eventText) =>
          match t.invoke(arn, eventText)
          case Err(e) => Raised(OtherFailure(e))
          case Ok(raw) =>
            match t.loads(raw)
            case Err(e) => Raised(DecodeFailure(e))
            case Ok(reply) => ClassifyReply(reply, t.loads);
    match attempt
    case Returned(v) => Done(v)
    case Raised(f) => BackendError(WrapFailure(f))
  }

  /** How a decoded dict reply is classified, case by case. */
  lemma DictReplyClassified(entries: Entries, loads: string -> Result<Value>)
    ensures var r := ClassifyReply(Map(entries), loads);
            && (HasKey(entries, "errorMessage") ==>
                  r == Raised(BackendFailure("Lambda error: " + PyStr(GetOr(entries, "errorMessage", Null)))))
            && (!HasKey(entries, "errorMessage") && !HasKey(entries, "statusCode") ==> r == Returned(Map(entries)))
            && (!HasKey(entries, "errorMessage") && HasKey(entries, "statusCode")
                && !EqualsInt(GetOr(entries, "statusCode", Null), 200) ==>
                  r.Raised? && r.failure.BackendFailure? && StartsWith(r.failure.message, "Lambda returned error: "))
            && (!HasKey(entries, "errorMessage") && HasKey(entries, "statusCode")
                && EqualsInt(GetOr(entries, "statusCode", Null), 200) ==>
                  var body := GetOr(entries, "body", Str("{}"));
                  r == if !body.Str? then Returned(body)
                       else if loads(body.s).Ok? then Returned(loads(body.s).value)
                       else Raised(DecodeFailure(loads(body.s).error)))
  {
    GetFound(entries, "errorMessage");
    GetFound(entries, "statusCode");
    var r := ClassifyReply(Map(entries), loads);
    if !HasKey(entries, "errorMessage") && HasKey(entries, "statusCode")
       && !EqualsInt(GetOr(entries, "statusCode", Null), 200) {
      var errorBody := GetOr(entries, "body", Str("Unknown error"));
      var shown := if errorBody.Str? && loads(errorBody.s).Ok? then loads(errorBody.s).value else errorBody;
      assert r == Raised(BackendFailure("Lambda returned error: " + PyStr(shown)));
      assert ("Lambda returned error: " + PyStr(shown))[..|"Lambda returned error: "|] == "Lambda returned error: ";
    }
  }

  /** A BackendError raised inside the invocation keeps its text; every other failure is wrapped into one. */
  lemma FailuresBecomeBackendErrors(arn: string, payload: Value, userId: Value, t: Transport, raw: string)
    ensures forall m :: WrapFailure(BackendFailure(m)) == m
    ensures t.dumps(payload).Err? ==>
              InvokeLambdaDirect(arn, payload, userId, t) == BackendError("Lambda invocation failed: " + t.dumps(payload).error)
    ensures t.dumps(payload).Ok? && t.dumps(LambdaEvent(t.dumps(payload).value, userId)).Ok?
            && t.invoke(arn, t.dumps(LambdaEvent(t.dumps(payload).value, userId)).value) == Ok(raw) && t.loads(raw).Err? ==>
              InvokeLambdaDirect(arn, payload, userId, t) == BackendError("Failed to parse Lambda response: " + t.loads(raw).error)
  {
  }

  /* ---------- the tool gateway ---------- */

  const GatewayTimeout: string := "Request timeout. Please try again."
  const InvalidGatewayReply: string := "Invalid response from Gateway"

  /** The POST the client sends to the gateway: URL, JSON body, headers and timeout. */
  function GatewayRequest(c: Client, tool: string, params: Value, timeout: Option<int>, idToken: Value): Value
  {
    Map([("url", Str(PyStr(FromOption(c.gatewayUrl)) + "/invoke-tool")),
         ("json", Map([("tool", Str(tool)), ("arguments", params)])),
         ("headers", Map(Headers(idToken))),
         ("timeout", Int(if timeout.Some? && timeout.value != 0 then timeout.value else c.timeout))])
  }

  /** A decoded gateway reply: a truthy `isError` is an error; otherwise its `content`, `{}` when absent. */
  function ToolReply(result: Value): (r: Call)
    ensures result.Map? && Truthy(GetOr(result.entries, "isError", Null)) ==> r.BackendError?
    ensures result.Map? && !Truthy(GetOr(result.entries, "isError", Null)) ==> r == Done(GetOr(result.entries, "content", Map([])))
    ensures !result.Map? ==> r.Uncaught?
  {
    if !result.Map? then Uncaught("'" + TypeName(result) + "' object has no attribute 'get'")
    else if Truthy(GetOr(result.entries, "isError", Null)) then
      BackendError("Tool execution failed: " + PyStr(GetOr(result.entries, "content", Str("Unknown error"))))
    else Done(GetOr(result.entries, "content", Map([])))
  }

  /**
   * The gateway reply as the handlers are written. The response's `json()` raises an
   * error that is both a JSON error and a request error, and the request-error handler
   * comes first, so a body that is not JSON is reported as a network error.
   */
  function GatewayReplyAsWritten(outcome: PostOutcome, loads: string -> Result<Value>): Call
  {
    match outcome
    case TimedOut => BackendError(GatewayTimeout)
    case RequestFailed(m) => BackendError("Network error: " + m)
    case Responded(status, text) =>
      if status != 200 then BackendError("Gateway request failed: " + IntToString(status) + " " + text)
      else match loads(text)
        case Err(m) => BackendError("Network error: " + m)
        case Ok(result) => ToolReply(result)
  }

  /**
   * The gateway reply with the JSON handler reached: a timeout, a failed request, a
   * status other than 200 and a body that is not JSON are each reported as their own
   * BackendError; a JSON body is classified by its `isError`.
   */
  function GatewayReply(outcome: PostOutcome, loads: string -> Result<Value>): (r: Call)
    ensures outcome.TimedOut? ==> r == BackendError(GatewayTimeout)
    ensures outcome.RequestFailed? ==> r == BackendError("Network error: " + outcome.message)
    ensures outcome.Responded? && outcome.statusCode != 200 ==>
              r.BackendError? && StartsWith(r.message, "Gateway request failed: ")
    ensures outcome.Responded? && outcome.statusCode == 200 && loads(outcome.text).Err? ==>
              r == BackendError(InvalidGatewayReply)
    ensures outcome.Responded? && outcome.statusCode == 200 && loads(outcome.text).Ok? ==>
              r == ToolReply(loads(outcome.text).value)
  {
    match outcome
    case TimedOut => BackendError(GatewayTimeout)
    case RequestFailed(m) => BackendError("Network error: " + m)
    case Responded(status, text) =>
      if status != 200 then
        var message := "Gateway request failed: " + IntToString(status) + " " + text;
        assert message[..|"Gateway request failed: "|] == "Gateway request failed: ";
        BackendError(message)
      else match loads(text)
        case Err(_) => BackendError(InvalidGatewayReply)
        case Ok(result) => ToolReply(result)
  }

  /** A 200 reply whose body is not JSON: as written it reads as a network error, not as an invalid reply. */
  lemma NonJsonGatewayReply(text: string, loads: string -> Result<Value>)
    requires loads(text).Err?
    ensures GatewayReplyAsWritten(Responded(200, text), loads) == BackendError("Network error: " + loads(text).error)
    ensures GatewayReply(Responded(200, text), loads) == BackendError(InvalidGatewayReply)
    ensures GatewayReplyAsWritten(Responded(200, text), loads) != GatewayReply(Responded(200, text), loads)
  {
    assert ("Network error: " + loads(text).error)[0] == 'N' != InvalidGatewayReply[0];
  }

  /** Every other gateway outcome is classified the same way by both. */
  lemma GatewayRepliesAgree(outcome: PostOutcome, loads: string -> Result<Value>)
    requires !(outcome.Responded? && outcome.statusCode == 200 && loads(outcome.text).Err?)
    ensures GatewayReplyAsWritten(outcome, loads) == GatewayReply(outcome, loads)
  {
  }

  /* ---------- routing ---------- */

  /** The function ARN behind a tool, when the tool is known and its ARN is set and non-empty. */
  function ArnFor(arns: LambdaArns, tool: string): (r: Option<string>)
    ensures r.Some? ==> r.value != []
    ensures tool !in {"get_sake_recommendations", "manage_user_preferences", "get_brewery_info", "recognize_sake_label"}
            ==> r == None
  {
    var configured :=
      if tool == "get_sake_recommendations" then arns.recommendation
      else if tool == "manage_user_preferences" then arns.preference
      else if tool == "get_brewery_info" then arns.brewery
      else if tool == "recognize_sake_label" then arns.imageRecognition
      else None;
    if Given(configured) then configured else None
  }

  /** One tool call: through the gateway when it is configured, else straight to the tool's function. */
  function MakeRequest(c: Client, tool: string, params: Value, timeout: Option<int>,
                       session: Session.State, t: Transport): (r: Call)
    ensures !c.useGateway && ArnFor(c.arns, tool).None? ==> r == BackendError("Unknown tool: " + tool)
    ensures !c.useGateway && ArnFor(c.arns, tool).Some?
            ==> r == InvokeLambdaDirect(ArnFor(c.arns, tool).value, params, Session.Lookup(session, Session.UserIdKey), t)
    ensures !c.useGateway ==> !r.Uncaught?
    ensures c.useGateway
            ==> r == GatewayReply(t.post(GatewayRequest(c, tool, params, timeout, Session.Lookup(session, Session.IdTokenKey))), t.loads)
    ensures c.useGateway
            ==> var outcome := t.post(GatewayRequest(c, tool, params, timeout, Session.Lookup(session, Session.IdTokenKey)));
                (r.Uncaught? <==> outcome.Responded? && outcome.statusCode == 200
                                  && t.loads(outcome.text).Ok? && !t.loads(outcome.text).value.Map?)
  {
    if c.useGateway then
      GatewayReply(t.post(GatewayRequest(c, tool, params, timeout, Session.Lookup(session, Session.IdTokenKey))), t.loads)
    else
      match ArnFor(c.arns, tool)
      case None => BackendError("Unknown tool: " + tool)
      case Some(arn) => InvokeLambdaDirect(arn, params, Session.Lookup(session, Session.UserIdKey), t)
  }

  /**
   * Through the gateway, a call is answered exactly as the written handlers answer it,
   * except for a 200 reply whose body is not JSON.
   */
  lemma MakeRequestAsWritten(c: Client, tool: string, params: Value, timeout: Option<int>,
                             session: Session.State, t: Transport)
    requires c.useGateway
    requires var outcome := t.post(GatewayRequest(c, tool, params, timeout, Session.Lookup(session, Session.IdTokenKey)));
             !(outcome.Responded? && outcome.statusCode == 200 && t.loads(outcome.text).Err?)
    ensures MakeRequest(c, tool, params, timeout, session, t)
            == GatewayReplyAsWritten(t.post(GatewayRequest(c, tool, params, timeout, Session.Lookup(session, Session.IdTokenKey))), t.loads)
  {
    GatewayRepliesAgree(t.post(GatewayRequest(c, tool, params, timeout, Session.Lookup(session, Session.IdTokenKey))), t.loads);
  }

  /** The gateway is sent the tool's name and its arguments, with the session's bearer token when there is one. */
  lemma GatewayRequestCarries(gatewayUrl: string, arns: LambdaArns, tool: string, params: Value, idToken: Value)
    requires gatewayUrl != []
    ensures var request := GatewayRequest(NewClient(Some(gatewayUrl), arns), tool, params, None, idToken);
            request.entries[0] == ("url", Str(gatewayUrl + "/invoke-tool"))
            && request.entries[1] == ("json", Map([("tool", Str(tool)), ("arguments", params)]))
            && request.entries[2].1.Map? && (HasKey(request.entries[2].1.entries, "Authorization") <==> Truthy(idToken))
            && request.entries[3] == ("timeout", Int(DefaultTimeout))
  {
  }

  /* ---------- the public operations ---------- */

  /** `result.get(key, default)` on a call's value; a reply that is not a dict has no `get`. */
  function FieldOf(call: Call, key: string, default: Value): (r: Call)
    ensures !call.Done? ==> r == call
  {
    match call
    case Done(v) =>
      if v.Map? then Done(GetOr(v.entries, key, default))
      else Uncaught("'" + TypeName(v) + "' object has no attribute 'get'")
    case _ => call
  }

  /** A BackendError whose text mentions "not found" (in any letter case) means "nothing there": None. */
  function NotFoundAsNone(call: Call): (r: Call)
    ensures call.BackendError? && Contains(Lower(call.message), "not found") ==> r == Done(Null)
    ensures !(call.BackendError? && Contains(Lower(call.message), "not found")) ==> r == call
  {
    if call.BackendError? && Contains(Lower(call.message), "not found") then Done(Null) else call
  }

  /** The stored preferences of a user (the signed-in user by default), or None when the backend has none. */
  function GetUserPreferences(c: Client, userId: Value, session: Session.State, t: Transport): (r: Call)
    ensures !Truthy(Or(userId, Session.Lookup(session, Session.UserIdKey))) ==> r == BackendError(UserIdMissing)
  {
    var uid := Or(userId, Session.Lookup(session, Session.UserIdKey));
    if !Truthy(uid) then BackendError(UserIdMissing)
    else
      var request := Map([("action", Str("get")), ("user_id", uid)]);
      NotFoundAsNone(FieldOf(MakeRequest(c, "manage_user_preferences", request, None, session, t), "preferences", Null))
  }

  /** Saves a user's preferences and reports the backend's `success` flag (False when absent). */
  function SaveUserPreferences(c: Client, preferences: Value, userId: Value, session: Session.State, t: Transport): (r: Call)
    ensures !Truthy(Or(userId, Session.Lookup(session, Session.UserIdKey))) ==> r == BackendError(UserIdMissing)
  {
    var uid := Or(userId, Session.Lookup(session, Session.UserIdKey));
    if !Truthy(uid) then BackendError(UserIdMissing)
    else
      var request := Map([("action", Str("update")), ("user_id", uid), ("preferences", preferences)]);
      FieldOf(MakeRequest(c, "manage_user_preferences", request, None, session, t), "success", Bool(false))
  }

  /** Whether preferences are in the form's terms: they list `sake_types` or give the sweetness as text. */
  predicate InFormTerms(preferences: Entries)
  {
    HasKey(preferences, "sake_types") || GetOr(preferences, "sweetness", Null).Str?
  }

  /**
   * The parameters of a recommendation request: the user and the limit, then the
   * preferences, converted to the backend's terms when they are in the form's terms,
   * passed on otherwise, and `{}` when there are none.
   */
  function RecommendationParams(userId: Value, limit: int, preferences: Option<Entries>): (r: Result<Entries>)
    ensures r.Ok? ==> |r.value| == 3 && r.value[..2] == [("user_id", userId), ("limit", Int(limit))]
                      && r.value[2].0 == "preferences"
    ensures (preferences.None? || preferences.value == []) ==> r.Ok? && r.value[2].1 == Map([])
    ensures preferences.Some? && preferences.value != [] && !InFormTerms(preferences.value)
            ==> r.Ok? && r.value[2].1 == Map(preferences.value)
    ensures preferences.Some? && preferences.value != [] && InFormTerms(preferences.value) ==>
              (r.Ok? <==> PreferenceConverter.ToBackend(preferences.value).Ok?)
              && (r.Ok? ==> r.value[2].1 == Map(PreferenceConverter.ToBackend(preferences.value).value))
  {
    var params := [("user_id", userId), ("limit", Int(limit))];
    if preferences.Some? && preferences.value != [] then
      if InFormTerms(preferences.value) then
        match PreferenceConverter.ToBackend(preferences.value)
        case Err(e) => Err(e)
        case Ok(converted) => Ok(Put(params, "preferences", Map(converted)))
      else Ok(Put(params, "preferences", Map(preferences.value)))
    else Ok(Put(params, "preferences", Map([])))
  }

  /** Builds the recommendation parameters by inserting keys, as the client does. */
  method BuildRecommendationParams(userId: Value, limit: int, preferences: Option<Entries>) returns (r: Result<Entries>)
    ensures r == RecommendationParams(userId, limit, preferences)
  {
    var params: Entries := [("user_id", userId), ("limit", Int(limit))];
    if preferences.Some? && preferences.value != [] {
      var p := preferences.value;
      if HasKey(p, "sake_types") || GetOr(p, "sweetness", Null).Str? {
        var converted := PreferenceConverter.ToBackend(p);
        if converted.Err? {
          return Err(converted.error);
        }
        params := Put(params, "preferences", Map(converted.value));
      } else {
        params := Put(params, "preferences", Map(p));
      }
    } else {
      params := Put(params, "preferences", Map([]));
    }
    r := Ok(params);
  }

  /** Canonical form preferences are always converted, and sent as the backend form the converter gives. */
  lemma CanonicalFormPreferencesConverted(userId: Value, limit: int, d: Entries)
    requires PreferenceConverter.CanonicalDisplay(d)
    ensures RecommendationParams(userId, limit, Some(d)).Ok?
    ensures RecommendationParams(userId, limit, Some(d)).value[2].1 == Map(PreferenceConverter.ToBackend(d).value)
    ensures GetOr(PreferenceConverter.ToBackend(d).value, "avoid_categories", Null) == List([])
  {
    PreferenceConverter.CanonicalDisplayConverts(d);
    assert HasKey(d, "sake_types");
  }

  /** Recommendations for the signed-in user; `[]` when the reply lists none. */
  function GetRecommendations(c: Client, preferences: Option<Entries>, limit: int, session: Session.State, t: Transport): (r: Call)
    ensures !Truthy(Session.Lookup(session, Session.UserIdKey)) ==> r == BackendError(UserIdMissing)
  {
    var userId := Session.Lookup(session, Session.UserIdKey);
    if !Truthy(userId) then BackendError(UserIdMissing)
    else
      match RecommendationParams(userId, limit, preferences)
      case Err(e) => Uncaught(e)
      case Ok(params) => FieldOf(MakeRequest(c, "get_sake_recommendations", Map(params), None, session, t), "recommendations", List([]))
  }

  /** One brewery, or None when the backend reports it not found. */
  function GetBreweryInfo(c: Client, breweryId: Value, session: Session.State, t: Transport): Call
  {
    NotFoundAsNone(FieldOf(MakeRequest(c, "get_brewery_info", Map([("brewery_id", breweryId)]), None, session, t), "brewery", Null))
  }

  /**
   * A lookup that reports "not found" gives None; every other error propagates unchanged,
   * and a successful lookup gives the reply's field.
   */
  lemma NotFoundHandling(c: Client, userId: Value, breweryId: Value, session: Session.State, t: Transport)
    ensures var call := MakeRequest(c, "get_brewery_info", Map([("brewery_id", breweryId)]), None, session, t);
            && (call.BackendError? && Contains(Lower(call.message), "not found") ==> GetBreweryInfo(c, breweryId, session, t) == Done(Null))
            && (call.BackendError? && !Contains(Lower(call.message), "not found") ==> GetBreweryInfo(c, breweryId, session, t) == call)
            && (call.Done? && call.value.Map? ==> GetBreweryInfo(c, breweryId, session, t) == Done(GetOr(call.value.entries, "brewery", Null)))
    ensures var uid := Or(userId, Session.Lookup(session, Session.UserIdKey));
            var call := MakeRequest(c, "manage_user_preferences", Map([("action", Str("get")), ("user_id", uid)]), None, session, t);
            Truthy(uid) && call.BackendError? ==>
              GetUserPreferences(c, userId, session, t) == (if Contains(Lower(call.message), "not found") then Done(Null) else call)
    ensures var uid := Or(userId, Session.Lookup(session, Session.UserIdKey));
            var call := MakeRequest(c, "manage_user_preferences", Map([("action", Str("get")), ("user_id", uid)]), None, session, t);
            Truthy(uid) && call.Done? && call.value.Map? ==>
              GetUserPreferences(c, userId, session, t) == Done(GetOr(call.value.entries, "preferences", Null))
  {
  }

  /** The brewery search filters: the action, then each filter that is given. */
  function SearchParams(prefecture: Value, name: Value): (r: Entries)
    ensures Get(r, "action") == Some(Str("search"))
    ensures HasKey(r, "prefecture") <==> Truthy(prefecture)
    ensures HasKey(r, "name") <==> Truthy(name)
    ensures Truthy(prefecture) ==> Get(r, "prefecture") == Some(prefecture)
    ensures Truthy(name) ==> Get(r, "name") == Some(name)
    ensures forall k :: HasKey(r, k) ==> k in {"action", "prefecture", "name"}
  {
    var base := [("action", Str("search"))];
    var withPrefecture := if Truthy(prefecture) then Put(base, "prefecture", prefecture) else base;
    var r := if Truthy(name) then Put(withPrefecture, "name", name) else withPrefecture;
    GetFound(base, "prefecture");
    GetFound(base, "name");
    GetFound(withPrefecture, "name");
    GetFound(withPrefecture, "prefecture");
    GetFound(r, "prefecture");
    GetFound(r, "name");
    forall k | HasKey(r, k) ensures k in {"action", "prefecture", "name"} {
      GetFound(r, k);
      GetFound(withPrefecture, k);
      GetFound(base, k);
    }
    r
  }

  /** Builds the search filters by inserting keys, as the client does. */
  method BuildSearchParams(prefecture: Value, name: Value) returns (params: Entries)
    ensures params == SearchParams(prefecture, name)
  {
    params := [("action", Str("search"))];
    if Truthy(prefecture) {
      params := Put(params, "prefecture", prefecture);
    }
    if Truthy(name) {
      params := Put(params, "name", name);
    }
  }

  /** Breweries matching the filters; `[]` when the reply lists none. */
  function SearchBreweries(c: Client, prefecture: Value, name: Value, session: Session.State, t: Transport): Call
  {
    FieldOf(MakeRequest(c, "get_brewery_info", Map(SearchParams(prefecture, name)), None, session, t), "breweries", List([]))
  }

  /**
   * A search sends the filters to the brewery tool; a dict reply gives its `breweries`
   * (`[]` when absent), and a failed call propagates unchanged.
   */
  lemma SearchBreweriesReply(c: Client, prefecture: Value, name: Value, session: Session.State, t: Transport)
    ensures var call := MakeRequest(c, "get_brewery_info", Map(SearchParams(prefecture, name)), None, session, t);
            && (call.Done? && call.value.Map?
                ==> SearchBreweries(c, prefecture, name, session, t) == Done(GetOr(call.value.entries, "breweries", List([]))))
            && (call.Done? && call.value.Map? && !HasKey(call.value.entries, "breweries")
                ==> SearchBreweries(c, prefecture, name, session, t) == Done(List([])))
            && (!call.Done? ==> SearchBreweries(c, prefecture, name, session, t) == call)
  {
  }

  /** Label recognition: the reply as it is, with a 60-second timeout. */
  function RecognizeSakeLabel(c: Client, imageData: Value, mediaType: Value, session: Session.State, t: Transport): Call
  {
    MakeRequest(c, "recognize_sake_label", Map([("image_base64", imageData), ("media_type", mediaType)]), Some(60), session, t)
  }

  /** A label-recognition request through the gateway carries the 60-second timeout. */
  lemma RecognitionTimeout(c: Client, imageData: Value, mediaType: Value, idToken: Value)
    ensures var request := GatewayRequest(c, "recognize_sake_label", Map([("image_base64", imageData), ("media_type", mediaType)]),
                                          Some(60), idToken);
            request.entries[3] == ("timeout", Int(60))
  {
  }
}
