/**
 * The front end's sign-in component: the requests it sends to the identity provider,
 * how it classifies each answer into a success flag, a message and (for sign-in) the
 * tokens, and how it reads the user's attributes out of the ID token.
 */
module Auth {
  import opened Text
  import opened Values

  type Bytes = seq<bv8>

  /** What one identity-provider call did: answered, raised a client error with its code, or raised anything else. */
  datatype ProviderCall<+T> = Answered(response: T) | ClientError(code: string, message: string) | Failed(message: string)

  /** A `(success, message)` pair. */
  datatype Reply = Reply(success: bool, message: string)

  /** A `(success, message, tokens)` triple. */
  datatype SignInResult = SignInResult(success: bool, message: string, tokens: Option<Entries>)

  const UnexpectedPrefix: string := "予期しないエラー: "

  /** The client is public, so there is never a secret hash, whatever the user name. */
  function GetSecretHash(username: string): (r: Option<string>)
    ensures r == None
  {
    None
  }

  /** `params[key] = hash` when the secret hash is truthy. */
  function WithSecretHash(params: Entries, key: string, username: string): (r: Entries)
  {
    var secretHash := GetSecretHash(username);
    if Given(secretHash) then Put(params, key, Str(secretHash.value)) else params
  }

  /** No request ever carries a secret hash: the parameters are sent as built. */
  lemma NoSecretHash(params: Entries, key: string, username: string)
    ensures WithSecretHash(params, key, username) == params
    ensures !HasKey(params, key) ==> !HasKey(WithSecretHash(params, key, username), key)
  {
  }

  /* ---------- registration ---------- */

  function SignUpRequest(clientId: string, email: string, password: string, name: string): Entries
  {
    WithSecretHash([("ClientId", Str(clientId)), ("Username", Str(email)), ("Password", Str(password)),
                    ("UserAttributes", List([Map([("Name", Str("email")), ("Value", Str(email))]),
                                             Map([("Name", Str("name")), ("Value", Str(name))])]))],
                   "SecretHash", email)
  }

  /** Registers a user: success exactly when the provider answers; each known error code has its own message. */
  function SignUp(clientId: string, email: string, password: string, name: string,
                  signUp: Entries -> ProviderCall<Value>): (r: Reply)
    ensures r.success <==> signUp(SignUpRequest(clientId, email, password, name)).Answered?
  {
    match signUp(SignUpRequest(clientId, email, password, name))
    case Answered(_) => Reply(true, "登録成功！確認コードがメールに送信されました。")
    case ClientError(code, message) =>
      if code == "UsernameExistsException" then Reply(false, "このメールアドレスは既に登録されています。")
      else if code == "InvalidPasswordException" then Reply(false, "パスワードが要件を満たしていません。")
      else if code == "InvalidParameterException" then Reply(false, "入力パラメータが無効です: " + message)
      else Reply(false, "登録エラー: " + message)
    case Failed(message) => Reply(false, UnexpectedPrefix + message)
  }

  function ResendRequest(clientId: string, email: string): Entries
  {
    WithSecretHash([("ClientId", Str(clientId)), ("Username", Str(email))], "SecretHash", email)
  }

  /** Resends the confirmation code: success exactly when the provider answers. */
  function ResendConfirmationCode(clientId: string, email: string, resend: Entries -> ProviderCall<Value>): (r: Reply)
    ensures r.success <==> resend(ResendRequest(clientId, email)).Answered?
  {
    match resend(ResendRequest(clientId, email))
    case Answered(_) => Reply(true, "確認コードを再送信しました。メールをご確認ください。")
    case ClientError(code, message) =>
      if code == "UserNotFoundException" then Reply(false, "ユーザーが見つかりません。")
      else if code == "InvalidParameterException" then Reply(false, "ユーザーは既に確認済みです。")
      else if code == "LimitExceededException" then Reply(false, "再送信の上限に達しました。しばらく待ってから再度お試しください。")
      else Reply(false, "再送信エラー: " + message)
    case Failed(message) => Reply(false, UnexpectedPrefix + message)
  }

  function ConfirmRequest(clientId: string, email: string, confirmationCode: string): Entries
  {
    WithSecretHash([("ClientId", Str(clientId)), ("Username", Str(email)), ("ConfirmationCode", Str(confirmationCode))],
                   "SecretHash", email)
  }

  /** Confirms a registration: success exactly when the provider answers. */
  function ConfirmSignUp(clientId: string, email: string, confirmationCode: string,
                         confirm: Entries -> ProviderCall<Value>): (r: Reply)
    ensures r.success <==> confirm(ConfirmRequest(clientId, email, confirmationCode)).Answered?
  {
    match confirm(ConfirmRequest(clientId, email, confirmationCode))
    case Answered(_) => Reply(true, "メール確認完了！ログインできます。")
    case ClientError(code, message) =>
      if code == "CodeMismatchException" then Reply(false, "確認コードが正しくありません。")
      else if code == "ExpiredCodeException" then Reply(false, "確認コードの有効期限が切れています。")
      else Reply(false, "確認エラー: " + message)
    case Failed(message) => Reply(false, UnexpectedPrefix + message)
  }

  /* ---------- the ID token ---------- */

  /** The number of `=` characters appended: `4 - len % 4`, unless that is 4. */
  function PaddingCount(payload: string): (n: nat)
    ensures n < 4
    ensures (|payload| + n) % 4 == 0
  {
    var padding := 4 - |payload| % 4;
    if padding != 4 then padding else 0
  }

  /**
   * The token's payload segment re-padded for base64url decoding (section 5 of RFC 4648
   * drops the padding in tokens): a multiple of four long, the segment followed only by `=`.
   */
  function Pad(payload: string): (r: string)
    ensures |r| % 4 == 0
    ensures |payload| <= |r| < |payload| + 4
    ensures r[..|payload|] == payload
    ensures forall i :: |payload| <= i < |r| ==> r[i] == '='
    ensures |payload| % 4 == 0 ==> r == payload
  {
    payload + seq(PaddingCount(payload), _ => '=')
  }

  /**
   * The user's attributes from the ID token: the middle of exactly three dot-separated
   * segments, re-padded, base64url-decoded and parsed as JSON. Any failure (a token that
   * is not text, a wrong segment count, a decoding or parsing error) gives `{}`.
   */
  function DecodeToken(idToken: Value, b64decode: string -> Result<Bytes>, loads: Bytes -> Result<Value>): Value
  {
    if !idToken.Str? then Map([])
    else
      var parts := Split(idToken.s, '.');
      if |parts| != 3 then Map([])
      else
        match b64decode(Pad(parts[1]))
        case Err(_) => Map([])
        case Ok(decoded) =>
          match loads(decoded)
          case Err(_) => Map([])
          case Ok(userInfo) => userInfo
  }

  /** A three-segment token whose middle segment does not decode, or does not parse as JSON, yields `{}`. */
  lemma UndecodableTokenIsEmpty(token: string, b64decode: string -> Result<Bytes>, loads: Bytes -> Result<Value>)
    requires |Split(token, '.')| == 3
    requires b64decode(Pad(Split(token, '.')[1])).Err?
             || loads(b64decode(Pad(Split(token, '.')[1])).value).Err?
    ensures DecodeToken(Str(token), b64decode, loads) == Map([])
  {
  }

  /** A token with other than two dots has no three segments and yields `{}`. */
  lemma MalformedTokenIsEmpty(token: string, b64decode: string -> Result<Bytes>, loads: Bytes -> Result<Value>)
    requires multiset(token)['.'] != 2
    ensures DecodeToken(Str(token), b64decode, loads) == Map([])
  {
    SplitCount(token, '.');
  }

  /** The first dot of `head + "." + rest` is right after `head` when `head` has none. */
  lemma {:induction false} IndexAfter(head: string, rest: string)
    requires '.' !in head
    ensures IndexOf(head + "." + rest, '.') == |head|
  {
    if head != [] {
      assert (head + "." + rest)[1..] == head[1..] + "." + rest;
      IndexAfter(head[1..], rest);
    }
  }

  /** Splitting `head.rest` on dots gives `head`, then the segments of `rest`, when `head` has no dot. */
  lemma SplitAtFirstDot(head: string, rest: string)
    requires '.' !in head
    ensures Split(head + "." + rest, '.') == [head] + Split(rest, '.')
  {
    var token := head + "." + rest;
    IndexAfter(head, rest);
    assert token[..|head|] == head && token[|head| + 1..] == rest;
  }

  /** Splitting `h.p.s` on dots gives back its three dot-free segments. */
  lemma SplitThree(h: string, p: string, s: string)
    requires '.' !in h && '.' !in p && '.' !in s
    ensures Split(h + "." + p + "." + s, '.') == [h, p, s]
  {
    var rest := p + "." + s;
    calc {
      Split(h + "." + p + "." + s, '.');
      { assert h + "." + p + "." + s == h + "." + rest; }
      Split(h + "." + rest, '.');
      { SplitAtFirstDot(h, rest); }
      [h] + Split(rest, '.');
      { SplitAtFirstDot(p, s); }
      [h] + ([p] + Split(s, '.'));
      { assert IndexOf(s, '.') == -1; }
      [h, p, s];
    }
  }

  /** A well-formed token is decoded from its middle segment, re-padded. */
  lemma WellFormedTokenDecoded(h: string, p: string, s: string, b64decode: string -> Result<Bytes>, loads: Bytes -> Result<Value>)
    requires '.' !in h && '.' !in p && '.' !in s
    requires b64decode(Pad(p)).Ok? && loads(b64decode(Pad(p)).value).Ok?
    ensures DecodeToken(Str(h + "." + p + "." + s), b64decode, loads) == loads(b64decode(Pad(p)).value).value
  {
    SplitThree(h, p, s);
  }

  /* ---------- sign-in and sign-out ---------- */

  function SignInRequest(clientId: string, email: string, password: string): Entries
  {
    [("AuthFlow", Str("USER_PASSWORD_AUTH")), ("ClientId", Str(clientId)),
     ("AuthParameters", Map(WithSecretHash([("USERNAME", Str(email)), ("PASSWORD", Str(password))], "SECRET_HASH", email)))]
  }

  /** The error message for a client error raised during sign-in. */
  function SignInErrorMessage(code: string, message: string): string
  {
    if code == "NotAuthorizedException" then "メールアドレスまたはパスワードが正しくありません。"
    else if code == "UserNotConfirmedException" then "メールアドレスが確認されていません。確認コードを入力してください。"
    else if code == "UserNotFoundException" then "ユーザーが見つかりません。"
    else "ログインエラー: " + message
  }

  /** The tokens of an authentication result, or the text of the exception reading them raises. */
  function TokensOf(authResult: Value): (r: Result<Entries>)
    ensures r.Ok? <==> authResult.Map? && HasKey(authResult.entries, "AccessToken") && HasKey(authResult.entries, "IdToken")
  {
    var accessToken :- Subscript(authResult, "AccessToken");
    var idToken :- Subscript(authResult, "IdToken");
    Ok([("access_token", accessToken), ("id_token", idToken),
        ("refresh_token", GetOr(authResult.entries, "RefreshToken", Null))])
  }

  /**
   * Signs a user in. An authentication result gives success with the three tokens and the
   * user's attributes from the ID token; a challenge, an answer with neither, a client error
   * or any other failure gives failure and no tokens.
   */
  function SignIn(clientId: string, email: string, password: string, initiateAuth: Entries -> ProviderCall<Entries>,
                  b64decode: string -> Result<Bytes>, loads: Bytes -> Result<Value>): (r: SignInResult)
    ensures r.success <==> r.tokens.Some?
  {
    match initiateAuth(SignInRequest(clientId, email, password))
    case Answered(response) =>
      if HasKey(response, "AuthenticationResult") then
        match TokensOf(GetOr(response, "AuthenticationResult", Null))
        case Err(e) => SignInResult(false, UnexpectedPrefix + e, None)
        case Ok(tokens) =>
          var userInfo := DecodeToken(tokens[1].1, b64decode, loads);
          SignInResult(true, "ログイン成功！", Some(tokens + [("user_info", userInfo)]))
      else if HasKey(response, "ChallengeName") then
        SignInResult(false, "追加認証が必要です: " + PyStr(GetOr(response, "ChallengeName", Null)), None)
      else SignInResult(false, "認証に失敗しました。", None)
    case ClientError(code, message) => SignInResult(false, SignInErrorMessage(code, message), None)
    case Failed(message) => SignInResult(false, UnexpectedPrefix + message, None)
  }

  /**
   * Sign-in succeeds exactly when the answer holds an authentication result with an access
   * and an ID token; the tokens are then those of the result (refresh token None when absent)
   * together with the attributes decoded from the ID token.
   */
  lemma SignInSuccess(clientId: string, email: string, password: string, initiateAuth: Entries -> ProviderCall<Entries>,
                      b64decode: string -> Result<Bytes>, loads: Bytes -> Result<Value>)
    ensures var r := SignIn(clientId, email, password, initiateAuth, b64decode, loads);
            var call := initiateAuth(SignInRequest(clientId, email, password));
            r.success <==> call.Answered? && HasKey(call.response, "AuthenticationResult")
                           && TokensOf(GetOr(call.response, "AuthenticationResult", Null)).Ok?
    ensures var r := SignIn(clientId, email, password, initiateAuth, b64decode, loads);
            var call := initiateAuth(SignInRequest(clientId, email, password));
            r.success ==>
              var authResult := GetOr(call.response, "AuthenticationResult", Null);
              authResult.Map?
              && r.tokens.value == [("access_token", GetOr(authResult.entries, "AccessToken", Null)),
                                    ("id_token", GetOr(authResult.entries, "IdToken", Null)),
                                    ("refresh_token", GetOr(authResult.entries, "RefreshToken", Null)),
                                    ("user_info", DecodeToken(GetOr(authResult.entries, "IdToken", Null), b64decode, loads))]
  {
    var call := initiateAuth(SignInRequest(clientId, email, password));
    if call.Answered? && HasKey(call.response, "AuthenticationResult") {
      var authResult := GetOr(call.response, "AuthenticationResult", Null);
      if authResult.Map? {
        GetFound(authResult.entries, "AccessToken");
        GetFound(authResult.entries, "IdToken");
      }
    }
  }

  /** Every failing sign-in carries no tokens, and a client error's message depends only on its code (and text). */
  lemma SignInFailures(clientId: string, email: string, password: string, initiateAuth: Entries -> ProviderCall<Entries>,
                       b64decode: string -> Result<Bytes>, loads: Bytes -> Result<Value>)
    ensures var r := SignIn(clientId, email, password, initiateAuth, b64decode, loads);
            !r.success ==> r.tokens == None
    ensures var call := initiateAuth(SignInRequest(clientId, email, password));
            call.ClientError? ==>
              SignIn(clientId, email, password, initiateAuth, b64decode, loads)
              == SignInResult(false, SignInErrorMessage(call.code, call.message), None)
    ensures var call := initiateAuth(SignInRequest(clientId, email, password));
            call.Answered? && !HasKey(call.response, "AuthenticationResult") && HasKey(call.response, "ChallengeName") ==>
              !SignIn(clientId, email, password, initiateAuth, b64decode, loads).success
  {
  }

  /** The sign-in request carries the user name and password and no secret hash. */
  lemma SignInRequestFields(clientId: string, email: string, password: string)
    ensures Get(SignInRequest(clientId, email, password), "AuthParameters")
            == Some(Map([("USERNAME", Str(email)), ("PASSWORD", Str(password))]))
  {
    var request := SignInRequest(clientId, email, password);
    assert Get(request, "AuthParameters") == Get(request[1..], "AuthParameters");
    assert Get(request[1..], "AuthParameters") == Get(request[1..][1..], "AuthParameters");
  }

  /** Signs out: the local session is cleared whatever the revocation call does, so this always succeeds. */
  function SignOut(revoke: ProviderCall<Value>): (r: Reply)
    ensures r.success
    ensures revoke.Answered? ==> r.message == "ログアウトしました。"
    ensures !revoke.Answered? ==> r.message == "ローカルセッションをクリアしました。"
  {
    match revoke
    case Answered(_) => Reply(true, "ログアウトしました。")
    case ClientError(_, _) => Reply(true, "ローカルセッションをクリアしました。")
    case Failed(_) => Reply(true, "ローカルセッションをクリアしました。")
  }
}
