/** The connector's token handling: the `key=value` pairs of the URL hash
    the OAuth flow returns to, the choice between stored and fresh tokens,
    and saving tokens to the host's password. */
module Authentication {
  import opened Wrappers
  import opened Json
  import opened ErrorHelper
  import TableauShim

  /** The characters a hash key may not contain, `[^&;=]`. */
  predicate IsKeyStop(c: char) {
    c == '&' || c == ';' || c == '='
  }

  /** The characters a hash value may not contain, `[^&;]`. */
  predicate IsValueStop(c: char) {
    c == '&' || c == ';'
  }

  /** The longest prefix free of key stops. */
  function KeyRun(s: string): (k: string)
    ensures |k| <= |s|
    ensures |k| < |s| ==> IsKeyStop(s[|k|])
  {
    if |s| > 0 && !IsKeyStop(s[0]) then [s[0]] + KeyRun(s[1..]) else []
  }

  /** The longest prefix free of value stops. */
  function ValueRun(s: string): (v: string)
    ensures |v| <= |s|
    ensures |v| < |s| ==> IsValueStop(s[|v|])
  {
    if |s| > 0 && !IsValueStop(s[0]) then [s[0]] + ValueRun(s[1..]) else []
  }

  /** Where the next match can start: characters that cannot begin a key
      are passed over. */
  function SkipToKey(s: string): (t: string)
    ensures |t| <= |s|
    ensures |t| > 0 ==> !IsKeyStop(t[0])
  {
    if |s| > 0 && IsKeyStop(s[0]) then SkipToKey(s[1..]) else s
  }

  /** One match of `/([^&;=]+)=?([^&;]*)/g`: the key, the raw value, and
      the text after the match, where the next search starts. */
  datatype Match = Match(key: string, value: string, rest: string)

  /** `r.exec(q)` from the current position: `None` when no match is left.
      The key is never empty, so every match moves the position on. */
  function NextMatch(s: string): (m: Option<Match>)
    ensures m.Some? ==> |m.value.rest| < |s| && |m.value.key| > 0
  {
    var t := SkipToKey(s);
    if |t| == 0 then None
    else
      var key := KeyRun(t);
      var after := t[|key|..];
      var afterEq := if |after| > 0 && after[0] == '=' then after[1..] else after;
      var value := ValueRun(afterEq);
      Some(Match(key, value, afterEq[|value|..]))
  }

  /** Every match of the hash text, in order. */
  function Scan(s: string): seq<(string, string)>
    decreases |s|
  {
    match NextMatch(s)
    case None => []
    case Some(m) => [(m.key, m.value)] + Scan(m.rest)
  }

  /** The matches of a text are its first match, then the matches of what
      follows it. */
  lemma ScanStep(s: string)
    requires NextMatch(s).Some?
    ensures var m := NextMatch(s).value; Scan(s) == [(m.key, m.value)] + Scan(m.rest)
  {
  }

  /** `hashParams[key] = value`: an existing key keeps its place and takes
      the new value, a new key goes last. */
  function Overwrite(fields: seq<(string, Json)>, key: string, value: Json): (r: seq<(string, Json)>)
    ensures FieldValue(r, key) == Some(value)
    ensures forall k :: k != key ==> FieldValue(r, k) == FieldValue(fields, k)
  {
    if |fields| == 0 then [(key, value)]
    else if fields[0].0 == key then [(key, value)] + fields[1..]
    else
      var r := [fields[0]] + Overwrite(fields[1..], key, value);
      assert r[1..] == Overwrite(fields[1..], key, value);
      r
  }

  const URI_ERROR := ErrorInfo("URIError", "URI malformed", None)

  /** Storing each match in turn, decoding its value; a value that does not
      decode throws. `decode` is `decodeURIComponent`, `None` where it throws. */
  function Store(fields: seq<(string, Json)>, pairs: seq<(string, string)>, decode: string -> Option<string>)
    : Result<seq<(string, Json)>, ErrorInfo>
    decreases |pairs|
  {
    if |pairs| == 0 then Success(fields)
    else match decode(pairs[0].1)
      case None => Failure(URI_ERROR)
      case Some(text) => Store(Overwrite(fields, pairs[0].0, JStr(text)), pairs[1..], decode)
  }

  /** `window.location.hash.substring(1)`. */
  function HashText(hash: string): string {
    if |hash| == 0 then "" else hash[1..]
  }

  /** The object `getHashParams()` builds. */
  function HashParams(hash: string, decode: string -> Option<string>): Result<seq<(string, Json)>, ErrorInfo> {
    Store([], Scan(HashText(hash)), decode)
  }

  /** `getHashParams()`: the regular expression is run again from where the
      last match ended until it finds no more, each match stored as it is
      found. `rest` is the text from the expression's `lastIndex` on. */
  method GetHashParams(hash: string, decode: string -> Option<string>) returns (r: Result<seq<(string, Json)>, ErrorInfo>)
    ensures r == HashParams(hash, decode)
  {
    var hashParams: seq<(string, Json)> := [];
    var rest := HashText(hash);
    while true
      invariant HashParams(hash, decode) == Store(hashParams, Scan(rest), decode)
      decreases |rest|
    {
      var e := NextMatch(rest);
      if e.None? {
        return Success(hashParams);
      }
      StoreStep(hashParams, rest, decode);
      var decoded := decode(e.value.value);
      if decoded.None? {
        return Failure(URI_ERROR);
      }
      hashParams := Overwrite(hashParams, e.value.key, JStr(decoded.value));
      rest := e.value.rest;
    }
  }

  /** Storing the matches of a text is storing its first match, then the
      matches of the rest. */
  lemma StoreStep(fields: seq<(string, Json)>, s: string, decode: string -> Option<string>)
    requires NextMatch(s).Some?
    ensures var m := NextMatch(s).value;
      Store(fields, Scan(s), decode) ==
        match decode(m.value)
        case None => Failure(URI_ERROR)
        case Some(text) => Store(Overwrite(fields, m.key, JStr(text)), Scan(m.rest), decode)
  {
    var m := NextMatch(s).value;
    ScanStep(s);
    var pairs := Scan(s);
    assert pairs[0] == (m.key, m.value) && pairs[1..] == Scan(m.rest);
  }

  // ---------------------------------------------------------------------
  // The hash text of a list of pairs, and reading it back.

  predicate IsKey(k: string) {
    |k| > 0 && forall i :: 0 <= i < |k| ==> !IsKeyStop(k[i])
  }

  predicate IsValue(v: string) {
    forall i :: 0 <= i < |v| ==> !IsValueStop(v[i])
  }

  /** `k1=v1&k2=v2&...`. */
  function Encode(pairs: seq<(string, string)>): string
    decreases |pairs|
  {
    if |pairs| == 0 then ""
    else if |pairs| == 1 then pairs[0].0 + "=" + pairs[0].1
    else pairs[0].0 + "=" + pairs[0].1 + "&" + Encode(pairs[1..])
  }

  lemma {:induction false} KeyRunOf(k: string, rest: string)
    requires forall i :: 0 <= i < |k| ==> !IsKeyStop(k[i])
    requires |rest| == 0 || IsKeyStop(rest[0])
    ensures KeyRun(k + rest) == k
    decreases |k|
  {
    if |k| > 0 {
      KeyRunOf(k[1..], rest);
      assert (k + rest)[1..] == k[1..] + rest;
    }
  }

  lemma {:induction false} ValueRunOf(v: string, rest: string)
    requires IsValue(v)
    requires |rest| == 0 || IsValueStop(rest[0])
    ensures ValueRun(v + rest) == v
    decreases |v|
  {
    if |v| > 0 {
      ValueRunOf(v[1..], rest);
      assert (v + rest)[1..] == v[1..] + rest;
    }
  }

  /** One `key=value` followed by a stop or the end is one match. */
  lemma MatchOfPair(k: string, v: string, rest: string)
    requires IsKey(k) && IsValue(v)
    requires |rest| == 0 || IsValueStop(rest[0])
    ensures NextMatch(k + "=" + v + rest) == Some(Match(k, v, rest))
  {
    var s := k + "=" + v + rest;
    assert SkipToKey(s) == s;
    KeyRunOf(k, "=" + v + rest);
    assert s == k + ("=" + v + rest);
    assert s[|k|..] == "=" + v + rest;
    assert ("=" + v + rest)[1..] == v + rest;
    ValueRunOf(v, rest);
    assert (v + rest)[|v|..] == rest;
  }

  /** A leading `&` is passed over. */
  lemma SkipAmpersand(s: string)
    ensures NextMatch("&" + s) == NextMatch(s)
    ensures Scan("&" + s) == Scan(s)
  {
    assert ("&" + s)[1..] == s;
  }

  /** The hash text of two or more pairs is the first pair, `&`, and the
      text of the others. */
  lemma EncodeCons(pairs: seq<(string, string)>)
    requires |pairs| > 1
    ensures Encode(pairs) == pairs[0].0 + "=" + pairs[0].1 + ("&" + Encode(pairs[1..]))
  {
  }

  /** Reading back the hash text of pairs with proper keys and values gives
      the pairs, in order. */
  lemma {:induction false} ScanEncode(pairs: seq<(string, string)>)
    requires forall j :: 0 <= j < |pairs| ==> IsKey(pairs[j].0) && IsValue(pairs[j].1)
    ensures Scan(Encode(pairs)) == pairs
    decreases |pairs|
  {
    if |pairs| == 1 {
      ScanEncodeOne(pairs);
    } else if |pairs| > 1 {
      ScanEncode(pairs[1..]);
      ScanEncodeCons(pairs);
    }
  }

  lemma ScanEncodeOne(pairs: seq<(string, string)>)
    requires |pairs| == 1 && IsKey(pairs[0].0) && IsValue(pairs[0].1)
    ensures Scan(Encode(pairs)) == pairs
  {
    ScanPair(pairs[0].0, pairs[0].1, "");
    assert pairs[0].0 + "=" + pairs[0].1 + "" == Encode(pairs);
    assert Scan("") == [];
  }

  lemma ScanEncodeCons(pairs: seq<(string, string)>)
    requires |pairs| > 1 && IsKey(pairs[0].0) && IsValue(pairs[0].1)
    requires Scan(Encode(pairs[1..])) == pairs[1..]
    ensures Scan(Encode(pairs)) == pairs
  {
    var tail := Encode(pairs[1..]);
    EncodeCons(pairs);
    ScanPair(pairs[0].0, pairs[0].1, "&" + tail);
    SkipAmpersand(tail);
    assert [pairs[0]] + pairs[1..] == pairs;
  }

  /** One `key=value` followed by a stop or the end is read as that pair,
      then the rest is read. */
  lemma ScanPair(k: string, v: string, rest: string)
    requires IsKey(k) && IsValue(v)
    requires |rest| == 0 || IsValueStop(rest[0])
    ensures Scan(k + "=" + v + rest) == [(k, v)] + Scan(rest)
  {
    MatchOfPair(k, v, rest);
    ScanStep(k + "=" + v + rest);
  }

  /** Values may contain `=`: only the first `=` separates key and value. */
  lemma ValueKeepsEquals(k: string, v1: string, v2: string)
    requires IsKey(k) && IsValue(v1) && IsValue(v2)
    ensures Scan(k + "=" + v1 + "=" + v2) == [(k, v1 + "=" + v2)]
  {
    var w := v1 + "=" + v2;
    ValueWithEquals(v1, v2);
    ScanPair(k, w, "");
    EqualsInValue(k, v1, v2);
    assert Scan("") == [];
  }

  lemma EqualsInValue(k: string, v1: string, v2: string)
    ensures k + "=" + (v1 + "=" + v2) + "" == k + "=" + v1 + "=" + v2
  {
  }

  /** `=` is not a value stop, so two values around it make one value. */
  lemma ValueWithEquals(v1: string, v2: string)
    requires IsValue(v1) && IsValue(v2)
    ensures IsValue(v1 + "=" + v2)
  {
    var w := v1 + "=" + v2;
    forall i | 0 <= i < |w| ensures !IsValueStop(w[i]) {
      if i < |v1| { assert w[i] == v1[i]; }
      else if i > |v1| { assert w[i] == v2[i - |v1| - 1]; }
    }
  }

  /** Of two pairs with the same key the later value is the one kept. */
  lemma LaterDuplicateWins(k: string, v1: string, v2: string, decode: string -> Option<string>)
    requires IsKey(k) && IsValue(v1) && IsValue(v2)
    requires decode(v1).Some? && decode(v2).Some?
    ensures HashParams("#" + Encode([(k, v1), (k, v2)]), decode) == Success([(k, JStr(decode(v2).value))])
  {
    var pairs := [(k, v1), (k, v2)];
    ScanEncode(pairs);
    assert HashText("#" + Encode(pairs)) == Encode(pairs);
    var once := Overwrite([], k, JStr(decode(v1).value));
    assert once == [(k, JStr(decode(v1).value))];
    assert Store([], pairs, decode) == Store(once, pairs[1..], decode);
    assert pairs[1..] == [(k, v2)];
    var twice := Overwrite(once, k, JStr(decode(v2).value));
    assert twice == [(k, JStr(decode(v2).value))];
    assert Store(once, [(k, v2)], decode) == Store(twice, [], decode);
  }

  // ---------------------------------------------------------------------
  // Choosing tokens.

  /** `_.get(tokens, 'access_token') && _.get(tokens, 'refresh_token')`. */
  predicate HasBothTokens(tokens: Json) {
    Truthy(Prop(tokens, "access_token")) && Truthy(Prop(tokens, "refresh_token"))
  }

  /** `getTokens()`: the stored password data when the host has a password,
      else the hash parameters; a copy of them when both tokens are there,
      else `None` for `false`. */
  function GetTokens(props: TableauShim.Props, codec: TableauShim.JsonCodec, hash: string,
                     decode: string -> Option<string>): (r: Result<Option<Json>, ErrorInfo>)
    ensures Truthy(TableauShim.Get(props, "password")) ==>
      var tokens := TableauShim.PasswordDataOf(props, codec);
      r == Success(if HasBothTokens(tokens) then Some(tokens) else None)
    ensures !Truthy(TableauShim.Get(props, "password")) ==>
      match HashParams(hash, decode)
      case Failure(e) => r == Failure(e)
      case Success(fields) => r == Success(if HasBothTokens(JObj(fields)) then Some(JObj(fields)) else None)
  {
    var tokens :=
      if Truthy(TableauShim.Get(props, "password")) then Success(TableauShim.PasswordDataOf(props, codec))
      else match HashParams(hash, decode)
        case Failure(e) => Failure(e)
        case Success(fields) => Success(JObj(fields));
    match tokens
    case Failure(e) => Failure(e)
    case Success(t) => Success(if HasBothTokens(t) then Some(t) else None)
  }

  /** `getAccessToken()`: the `access_token` of `getTokens()`, undefined
      when that is `false`. */
  function GetAccessToken(props: TableauShim.Props, codec: TableauShim.JsonCodec, hash: string,
                          decode: string -> Option<string>): (r: Result<Option<Json>, ErrorInfo>)
    ensures GetTokens(props, codec, hash, decode).Failure? <==> r.Failure?
    ensures r.Success? ==>
      var tokens := GetTokens(props, codec, hash, decode).value;
      && (tokens.None? ==> r.value.None?)
      && (tokens.Some? ==> r.value == Prop(tokens.value, "access_token") && Truthy(r.value))
  {
    match GetTokens(props, codec, hash, decode)
    case Failure(e) => Failure(e)
    case Success(None) => Success(None)
    case Success(Some(t)) => Success(Prop(t, "access_token"))
  }

  const SAVE_TOKENS_TO_PASSWD := "Authentication.saveTokensToPassword value must contain access_token and refresh_token"

  const NOT_DESTRUCTURABLE := ErrorInfo("TypeError", "Cannot destructure 'null' as it is null.", None)

  /** The password data `saveTokensToPassword(tokens)` stores: just the two
      tokens, refused unless both are truthy; undefined destructures as `{}`. */
  function TokensToSave(tokens: Option<Json>): (r: Result<Json, ErrorInfo>)
    ensures tokens == Some(JNull) ==> r == Failure(NOT_DESTRUCTURABLE)
    ensures tokens.Some? && !tokens.value.JNull? ==>
      (r.Success? <==> HasBothTokens(tokens.value))
    ensures tokens.None? ==> r.Failure?
    ensures r.Failure? && tokens != Some(JNull) ==> r.error == ErrorInfo("Error", SAVE_TOKENS_TO_PASSWD, None)
    ensures r.Success? ==> r.value == JObj([("access_token", Prop(tokens.value, "access_token").value),
                                            ("refresh_token", Prop(tokens.value, "refresh_token").value)])
  {
    if tokens == Some(JNull) then Failure(NOT_DESTRUCTURABLE)
    else
      var given := tokens.GetOr(JObj([]));
      var access := Prop(given, "access_token");
      var refresh := Prop(given, "refresh_token");
      if !Truthy(access) || !Truthy(refresh) then Failure(ErrorInfo("Error", SAVE_TOKENS_TO_PASSWD, None))
      else Success(JObj([("access_token", access.value), ("refresh_token", refresh.value)]))
  }

  /** Saved tokens are what `getTokens` finds afterwards, whatever the hash. */
  lemma SavedTokensAreFound(props: TableauShim.Props, codec: TableauShim.JsonCodec, tokens: Json, hash: string,
                            decode: string -> Option<string>)
    requires TableauShim.Lawful(codec)
    requires TokensToSave(Some(tokens)).Success?
    ensures var saved := TokensToSave(Some(tokens)).value;
      var after := TableauShim.Assign(props, codec, TableauShim.PasswordData, Some(saved));
      after.Success? && GetTokens(after.value, codec, hash, decode) == Success(Some(saved))
  {
    var saved := TokensToSave(Some(tokens)).value;
    assert saved.JObj?;
    var after := TableauShim.Assign(props, codec, TableauShim.PasswordData, Some(saved)).value;
    TableauShim.PasswordDataRoundTrip(props, codec, saved);
    assert codec.stringify(saved) != "";
    assert TableauShim.Get(after, "password") == Some(JStr(codec.stringify(saved)));
    assert TableauShim.PasswordDataOf(after, codec) == saved;
    assert "access_token"[0] != "refresh_token"[0];
    assert Prop(saved, "access_token") == Prop(tokens, "access_token");
    var refresh := Prop(tokens, "refresh_token").value;
    assert saved.fields[1..] == [("refresh_token", refresh)];
    assert FieldValue([("refresh_token", refresh)], "refresh_token") == Some(refresh);
    assert saved.fields[0].0 != "refresh_token";
    assert Prop(saved, "refresh_token") == Prop(tokens, "refresh_token");
    assert HasBothTokens(saved);
  }

  /** `saveTokensToPassword(tokens)`: stores the two tokens as the host's
      password data, or throws and stores nothing. */
  method SaveTokensToPassword(host: TableauShim.Host, codec: TableauShim.JsonCodec, tokens: Option<Json>)
    returns (thrown: Option<ErrorInfo>)
    modifies host
    ensures TokensToSave(tokens).Failure? ==> thrown == Some(TokensToSave(tokens).error) && host.props == old(host.props)
    ensures TokensToSave(tokens).Success? ==>
      thrown == None && host.props == old(host.props)["password" := JStr(codec.stringify(TokensToSave(tokens).value))]
  {
    var toSave := TokensToSave(tokens);
    if toSave.Failure? {
      return Some(toSave.error);
    }
    thrown := host.Set(codec, TableauShim.PasswordData, Some(toSave.value));
  }

  /** `saveUsername(username = '')`: the host's username, through the
      string-checking setter. */
  method SaveUsername(host: TableauShim.Host, codec: TableauShim.JsonCodec, username: Option<Json>)
    returns (thrown: Option<ErrorInfo>)
    modifies host
    ensures var value := username.GetOr(JStr(""));
      if value.JStr? then thrown == None && host.props == old(host.props)["username" := value]
      else thrown == Some(TableauShim.ShimError("username must be a String")) && host.props == old(host.props)
  {
    assert "username" + " must be a String" == "username must be a String";
    thrown := host.Set(codec, TableauShim.StringSetter("username"), Some(username.GetOr(JStr(""))));
  }
}
