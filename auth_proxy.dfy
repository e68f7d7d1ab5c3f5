/** The authentication proxy's choice of Spotify application: an auth
    purpose picks the ENDURING (server) or EPHEMERAL (desktop) client
    credentials, and `/login` hands the purpose back to `/callback` as the
    OAuth `state`. */
module AuthProxy {
  import opened Wrappers
  import opened Json
  import opened ErrorHelper

  const ENDURING := "ENDURING"
  const DEFAULT_AUTH_PURPOSE := "EPHEMERAL"

  /** `s.toUpperCase()` on the ASCII letters. */
  function ToUpper(s: string): (u: string)
    ensures |u| == |s|
    ensures forall i :: 0 <= i < |s| ==> u[i] == (if 'a' <= s[i] <= 'z' then (s[i] as int - 32) as char else s[i])
  {
    if |s| == 0 then ""
    else [if 'a' <= s[0] <= 'z' then (s[0] as int - 32) as char else s[0]] + ToUpper(s[1..])
  }

  /** Calling `toUpperCase` on something that is not a string. */
  const NOT_A_STRING := ErrorInfo("TypeError", "authPurpose.toUpperCase is not a function", None)

  /** `getAuthPurpose(authPurpose)`: an undefined purpose takes the default;
      a string is upper-cased and kept when it names a purpose, otherwise
      replaced by the default. Any other value has no `toUpperCase`. */
  function GetAuthPurpose(authPurpose: Option<Json>): (r: Result<string, ErrorInfo>)
    ensures r.Failure? <==> authPurpose.Some? && !authPurpose.value.JStr?
    ensures r.Failure? ==> r.error == NOT_A_STRING
    ensures r.Success? ==> r.value == ENDURING || r.value == DEFAULT_AUTH_PURPOSE
    ensures r.Success? && r.value == ENDURING <==>
      authPurpose.Some? && authPurpose.value.JStr? && ToUpper(authPurpose.value.s) == ENDURING
  {
    if authPurpose.None? then Success(DEFAULT_AUTH_PURPOSE)
    else if !authPurpose.value.JStr? then Failure(NOT_A_STRING)
    else
      var upper := ToUpper(authPurpose.value.s);
      if upper != ENDURING && upper != DEFAULT_AUTH_PURPOSE then Success(DEFAULT_AUTH_PURPOSE)
      else Success(upper)
  }

  /** Upper-casing twice is upper-casing once. */
  lemma {:induction false} ToUpperIdempotent(s: string)
    ensures ToUpper(ToUpper(s)) == ToUpper(s)
  {
    if |s| > 0 {
      ToUpperIdempotent(s[1..]);
      assert ToUpper(s)[1..] == ToUpper(s[1..]);
    }
  }

  /** A text without lower-case letters is its own upper case. */
  lemma {:induction false} UpperCaseFixed(s: string)
    requires forall i :: 0 <= i < |s| ==> !('a' <= s[i] <= 'z')
    ensures ToUpper(s) == s
  {
    if |s| > 0 {
      UpperCaseFixed(s[1..]);
      assert s == [s[0]] + s[1..];
    }
  }

  /** Letter case does not matter: "enduring", "Enduring" and "ENDURING"
      choose the same purpose. */
  lemma CaseInsensitive(a: string, b: string)
    requires ToUpper(a) == ToUpper(b)
    ensures GetAuthPurpose(Some(JStr(a))) == GetAuthPurpose(Some(JStr(b)))
  {
  }

  /** A purpose the proxy returned chooses itself again. */
  lemma GetAuthPurposeIdempotent(authPurpose: Option<Json>)
    requires GetAuthPurpose(authPurpose).Success?
    ensures GetAuthPurpose(Some(JStr(GetAuthPurpose(authPurpose).value))) == GetAuthPurpose(authPurpose)
  {
    PurposeChoosesItself(GetAuthPurpose(authPurpose).value);
  }

  /** Each purpose name is its own upper case, so it chooses itself. */
  lemma PurposeChoosesItself(purpose: string)
    requires purpose == ENDURING || purpose == DEFAULT_AUTH_PURPOSE
    ensures GetAuthPurpose(Some(JStr(purpose))) == Success(purpose)
  {
    PurposeIsUpperCase(purpose);
  }

  lemma PurposeIsUpperCase(purpose: string)
    requires purpose == ENDURING || purpose == DEFAULT_AUTH_PURPOSE
    ensures ToUpper(purpose) == purpose
  {
    UpperCaseFixed(purpose);
  }

  /** One Spotify application's credentials, read from the environment; an
      unset variable is undefined. */
  datatype Credentials = Credentials(clientId: Option<string>, clientSecret: Option<string>)

  /** The proxy's configuration: credentials per purpose. */
  datatype Config = Config(ephemeral: Credentials, enduring: Credentials)

  /** `CONFIG[purpose]`. */
  function CredentialsFor(config: Config, purpose: string): Credentials
    requires purpose == ENDURING || purpose == DEFAULT_AUTH_PURPOSE
  {
    if purpose == ENDURING then config.enduring else config.ephemeral
  }

  /** `${v}` for a possibly undefined string. */
  function Interpolated(v: Option<string>): string {
    if v.None? then "undefined" else v.value
  }

  /** What `getSecrets` returns; the base64 text of the signature is
      computed by Node's Buffer and is supplied as a function. */
  datatype Secrets = Secrets(clientId: Option<string>, clientSecret: Option<string>, signature: string,
                             encodedSignature: string, authPurpose: string)

  /** `getSecrets(authPurpose)`: the credentials of the chosen purpose and
      their `id:secret` signature. */
  function GetSecrets(config: Config, base64: string -> string, authPurpose: Option<Json>): (r: Result<Secrets, ErrorInfo>)
    ensures r.Failure? <==> GetAuthPurpose(authPurpose).Failure?
    ensures r.Success? ==>
      && r.value.authPurpose == GetAuthPurpose(authPurpose).value
      && var c := CredentialsFor(config, r.value.authPurpose);
         r.value.clientId == c.clientId && r.value.clientSecret == c.clientSecret
         && r.value.signature == Interpolated(c.clientId) + ":" + Interpolated(c.clientSecret)
         && r.value.encodedSignature == base64(r.value.signature)
  {
    match GetAuthPurpose(authPurpose)
    case Failure(e) => Failure(e)
    case Success(purpose) =>
      var c := CredentialsFor(config, purpose);
      var signature := Interpolated(c.clientId) + ":" + Interpolated(c.clientSecret);
      Success(Secrets(c.clientId, c.clientSecret, signature, base64(signature), purpose))
  }

  /** How `querystring.stringify` writes a value that is a string or
      undefined: undefined becomes the empty text. */
  function QueryValue(v: Option<string>): (text: string)
    ensures v.Some? ==> text == v.value
    ensures v.None? ==> text == ""
  {
    if v.None? then "" else v.value
  }

  /** The query `/login` sends to Spotify's authorize page, before
      URL encoding: the code flow, the chosen application's client id
      (empty when its variable is unset), the scope, the callback and the
      purpose as `state`. */
  function LoginParams(config: Config, base64: string -> string, appScope: string, redirectUri: string,
                       authPurpose: Option<Json>): (r: Result<seq<(string, string)>, ErrorInfo>)
    ensures r.Failure? <==> GetAuthPurpose(authPurpose).Failure?
    ensures r.Failure? ==> r.error == NOT_A_STRING
    ensures r.Success? ==>
      var purpose := GetAuthPurpose(authPurpose).value;
      var id := CredentialsFor(config, purpose).clientId;
      && |r.value| == 5
      && r.value[0] == ("response_type", "code")
      && r.value[1] == ("client_id", if id.Some? then id.value else "")
      && r.value[2] == ("scope", appScope)
      && r.value[3] == ("redirect_uri", redirectUri)
      && r.value[4] == ("state", purpose)
  {
    match GetSecrets(config, base64, authPurpose)
    case Failure(e) => Failure(e)
    case Success(secrets) =>
      Success([("response_type", "code"), ("client_id", QueryValue(secrets.clientId)), ("scope", appScope),
               ("redirect_uri", redirectUri), ("state", secrets.authPurpose)])
  }

  /** The `/callback` request carries the `state` that `/login` sent, and
      with it chooses the same credentials, so the code is exchanged under
      the application that issued it. */
  lemma CallbackUsesLoginCredentials(config: Config, base64: string -> string, appScope: string,
                                     redirectUri: string, authPurpose: Option<Json>)
    requires LoginParams(config, base64, appScope, redirectUri, authPurpose).Success?
    ensures var state := LoginParams(config, base64, appScope, redirectUri, authPurpose).value[4].1;
      GetSecrets(config, base64, Some(JStr(state))) == GetSecrets(config, base64, authPurpose)
  {
    GetAuthPurposeIdempotent(authPurpose);
  }
}
