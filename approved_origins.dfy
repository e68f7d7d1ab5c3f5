/** The origins the user has approved, kept in the session cookie
    `wdc_approved_origins` as one comma-separated text. */
module ApprovedOrigins {
  import opened Wrappers
  import opened Json

  const SEPARATOR := ','
  const APPROVED_ORIGINS_KEY := "wdc_approved_origins"

  /** The origins a cookie value holds: none when the cookie is missing or
      empty, otherwise its comma-separated parts. */
  function OriginsIn(cookie: Option<string>): (origins: seq<string>)
    ensures cookie.None? || cookie.value == "" ==> origins == []
    ensures cookie.Some? && cookie.value != "" ==> Join(origins, SEPARATOR) == cookie.value
    ensures forall i :: 0 <= i < |origins| ==> SEPARATOR !in origins[i]
  {
    if cookie.None? || |cookie.value| == 0 then []
    else
      JoinSplit(cookie.value, SEPARATOR);
      SplitPartsFree(cookie.value, SEPARATOR);
      Split(cookie.value, SEPARATOR)
  }

  /** The cookie value `_saveApprovedOrigins` writes for a list of origins. */
  function Saved(origins: seq<string>): string {
    Join(origins, SEPARATOR)
  }

  /** A join of at least two parts holds a separator, so it is not empty. */
  lemma JoinOfTwoOrMore(parts: seq<string>)
    requires |parts| >= 2
    ensures SEPARATOR in Join(parts, SEPARATOR)
  {
    var j := Join(parts, SEPARATOR);
    assert j[|parts[0]|] == SEPARATOR;
  }

  /** Adding a non-empty origin without a comma and reading the cookie back
      gives the earlier origins followed by the new one. */
  lemma ReadBackAfterAdd(cookie: Option<string>, origin: string)
    requires origin != "" && SEPARATOR !in origin
    ensures OriginsIn(Some(Saved(OriginsIn(cookie) + [origin]))) == OriginsIn(cookie) + [origin]
  {
    var parts := OriginsIn(cookie) + [origin];
    if |parts| >= 2 {
      JoinOfTwoOrMore(parts);
    }
    SplitJoin(parts, SEPARATOR);
  }

  /** Adding an origin that holds a comma reads back as several origins: the
      list grows by the origin's comma-separated parts. */
  lemma CommaInOriginSplits(origin: string)
    requires origin != "" && SEPARATOR in origin
    ensures |OriginsIn(Some(Saved(OriginsIn(None) + [origin])))| >= 2
  {
    assert OriginsIn(None) + [origin] == [origin];
    JoinSplit(origin, SEPARATOR);
  }

  /** The browser's cookie for the approved origins. */
  class CookieJar {
    var cookie: Option<string>

    constructor (cookie: Option<string>)
      ensures this.cookie == cookie
    {
      this.cookie := cookie;
    }

    /** `getApprovedOrigins()`. */
    method GetApprovedOrigins() returns (origins: seq<string>)
      ensures origins == OriginsIn(cookie)
      ensures cookie.None? || cookie.value == "" ==> origins == []
    {
      if cookie.None? || |cookie.value| == 0 {
        return [];
      }
      origins := Split(cookie.value, SEPARATOR);
    }

    /** `addApprovedOrigin(origin)`: a missing or empty origin changes
        nothing; any other is appended to the saved list. */
    method AddApprovedOrigin(origin: Option<string>)
      modifies this
      ensures origin.None? || origin.value == "" ==> cookie == old(cookie)
      ensures origin.Some? && origin.value != "" ==>
        cookie == Some(Saved(OriginsIn(old(cookie)) + [origin.value]))
    {
      if origin.Some? && origin.value != "" {
        var origins := GetApprovedOrigins();
        origins := origins + [origin.value];
        cookie := Some(Saved(origins));
      }
    }
  }

  /** Two adds of comma-free origins, starting from no cookie, read back in
      the order they were added. */
  method AddTwice(a: string, b: string) returns (origins: seq<string>)
    requires a != "" && SEPARATOR !in a && b != "" && SEPARATOR !in b
    ensures origins == [a, b]
  {
    var jar := new CookieJar(None);
    jar.AddApprovedOrigin(Some(a));
    ReadBackAfterAdd(None, a);
    jar.AddApprovedOrigin(Some(b));
    ReadBackAfterAdd(Some(Saved([a])), b);
    origins := jar.GetApprovedOrigins();
  }
}
