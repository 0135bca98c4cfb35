/** The browser-side credential store of the dashboard: three `localStorage` keys
    (access token, refresh token, user profile), the token-validity check and the purge
    of tokens issued by the mock backend. */
module Jwt {
  import opened JsText
  import opened JsonCodec

  const TokenKey := "accessToken"
  const RefreshTokenKey := "refreshToken"
  const UserDataKey := "userData"
  const AuthKeys: set<string> := {TokenKey, RefreshTokenKey, UserDataKey}

  const MockTokenPrefix := "mock_token_"
  const MockRefreshTokenPrefix := "mock_refresh_token_"

  /** What the browser makes of a payload segment once it is in standard base64: `atob`,
      `decodeURIComponent` or `JSON.parse` throws, or the claims come out, with `exp` the
      NumericDate of section 4.1.4 of RFC 7519 (seconds since the epoch) when present. */
  datatype Payload = Undecodable | Claims(exp: Option<int>)

  /** What `getUserData` gives: null, the parsed profile, or the SyntaxError `JSON.parse` throws. */
  datatype UserDataRead = NoUserData | UserData(profile: JsonObject) | Unparsable

  /** Why `isTokenValid` answers as it does; only `Valid` makes it return true. */
  datatype Verdict = NoToken | MockToken | NoPayloadSegment | BadPayload | NoExpiry | Expired | Valid

  /** `localStorage.getItem(key)` behind the `typeof window` guard: null without a browser. */
  function StoredItem(present: bool, items: map<string, string>, key: string): (r: Option<string>)
    ensures r.Some? <==> present && key in items
    ensures r.Some? ==> r.value == items[key]
  {
    if present && key in items then Some(items[key]) else None
  }

  /** `userData ? JSON.parse(userData) : null`. */
  function ReadUserData(raw: Option<string>): (r: UserDataRead)
    ensures r.NoUserData? <==> !Truthy(raw)
  {
    if !Truthy(raw) then NoUserData
    else match Parse(raw.value)
      case Some(o) => UserData(o)
      case None => Unparsable
  }

  /** The text `saveUserData` stores: `JSON.stringify` of the profile, or "undefined" when
      there is none. */
  function ProfileText(user: Option<JsonObject>): string {
    StringOf(if user.Some? then Some(Stringify(user.value)) else None)
  }

  /** A profile written by `saveUserData` reads back as the same profile. */
  lemma UserDataRoundTrip(o: JsonObject)
    ensures ReadUserData(Some(Stringify(o))) == UserData(o)
  {
    StringifyRoundTrip(o);
  }

  /** One character of the base64url alphabet (section 5 of RFC 4648) in the standard
      alphabet of section 4. */
  function StandardChar(c: char): char {
    if c == '-' then '+' else if c == '_' then '/' else c
  }

  /** `base64Url.replace(/-/g, '+').replace(/_/g, '/')`. */
  function Base64UrlToBase64(s: string): (r: string)
    ensures |r| == |s|
    ensures forall i :: 0 <= i < |s| ==> r[i] == StandardChar(s[i])
  {
    seq(|s|, i requires 0 <= i < |s| => StandardChar(s[i]))
  }

  /** The conversion removes every url-safe character, keeps all the others where they
      were, and changes nothing in text that is already standard base64. */
  lemma Base64UrlToBase64Spec(s: string)
    ensures '-' !in Base64UrlToBase64(s) && '_' !in Base64UrlToBase64(s)
    ensures forall i :: 0 <= i < |s| && s[i] != '-' && s[i] != '_' ==> Base64UrlToBase64(s)[i] == s[i]
    ensures '-' !in s && '_' !in s ==> Base64UrlToBase64(s) == s
    ensures Base64UrlToBase64(Base64UrlToBase64(s)) == Base64UrlToBase64(s)
  {
  }

  /** `token.split('.')[1]` when it is a non-empty string; `undefined` and '' both fail `!base64Url`. */
  function PayloadSegment(token: string): (r: Option<string>)
    ensures r.Some? ==> r.value != "" && '.' !in r.value
  {
    var fields := Split(token, '.');
    if |fields| >= 2 && fields[1] != "" then
      SplitFieldsHaveNoSeparator(token, '.', 1);
      Some(fields[1])
    else None
  }

  lemma {:induction false} SplitFieldsHaveNoSeparator(s: string, sep: char, k: nat)
    requires k < |Split(s, sep)|
    ensures sep !in Split(s, sep)[k]
    decreases |s|
  {
    if |s| > 0 {
      var rest := Split(s[1..], sep);
      if s[0] == sep {
        if k > 0 {
          SplitFieldsHaveNoSeparator(s[1..], sep, k - 1);
        }
      } else if k == 0 {
        SplitFieldsHaveNoSeparator(s[1..], sep, 0);
      } else {
        SplitFieldsHaveNoSeparator(s[1..], sep, k);
      }
    }
  }

  /** The decision `isTokenValid` takes on the stored access token, at clock `nowMs`
      (milliseconds), with `decode` standing for the browser's decoding of the payload. */
  function Check(token: Option<string>, nowMs: int, decode: string -> Payload): Verdict {
    if !Truthy(token) then NoToken
    else if StartsWith(token.value, MockTokenPrefix) then MockToken
    else match PayloadSegment(token.value)
      case None => NoPayloadSegment
      case Some(segment) =>
        match decode(Base64UrlToBase64(segment))
        case Undecodable => BadPayload
        case Claims(None) => NoExpiry
        case Claims(Some(exp)) => if nowMs < exp * 1000 then Valid else Expired
  }

  /** A token is valid exactly when it is stored, is no mock token, has a payload segment,
      and that payload decodes to an `exp` claim that lies after the clock. */
  lemma CheckValidIff(token: Option<string>, nowMs: int, decode: string -> Payload)
    ensures Check(token, nowMs, decode) == Valid <==>
      Truthy(token) && !StartsWith(token.value, MockTokenPrefix)
      && PayloadSegment(token.value).Some?
      && decode(Base64UrlToBase64(PayloadSegment(token.value).value)).Claims?
      && decode(Base64UrlToBase64(PayloadSegment(token.value).value)).exp.Some?
      && nowMs < decode(Base64UrlToBase64(PayloadSegment(token.value).value)).exp.value * 1000
  {
  }

  /** A later clock never turns an expired token valid again. */
  lemma CheckMonotoneInTime(token: Option<string>, t1: int, t2: int, decode: string -> Payload)
    requires t1 <= t2
    ensures Check(token, t2, decode) == Valid ==> Check(token, t1, decode) == Valid
    ensures Check(token, t1, decode) == Expired ==> Check(token, t2, decode) == Expired
  {
  }

  /** Only the segment at index 1 is read: a token with just a header and a payload passes
      the shape check, and a third segment (the signature) is never looked at. */
  lemma {:induction false} SignatureNeverChecked(header: string, payload: string, sig1: string, sig2: string, nowMs: int, decode: string -> Payload)
    requires '.' !in header && '.' !in payload && payload != ""
    ensures PayloadSegment(header + "." + payload) == Some(payload)
    ensures Check(Some(header + "." + payload + "." + sig1), nowMs, decode)
         == Check(Some(header + "." + payload + "." + sig2), nowMs, decode)
  {
    SplitAfterField(header, '.', payload);
    SplitNoSeparator(payload, '.');
    SegmentOfThree(header, payload, sig1);
    SegmentOfThree(header, payload, sig2);
    MockPrefixInHeader(header, payload + "." + sig1);
    MockPrefixInHeader(header, payload + "." + sig2);
    assert header + "." + payload + "." + sig1 == header + "." + (payload + "." + sig1);
    assert header + "." + payload + "." + sig2 == header + "." + (payload + "." + sig2);
  }

  lemma SegmentOfThree(header: string, payload: string, sig: string)
    requires '.' !in header && '.' !in payload && payload != ""
    ensures PayloadSegment(header + "." + payload + "." + sig) == Some(payload)
  {
    var rest := payload + "." + sig;
    SplitAfterField(header, '.', rest);
    SplitAfterField(payload, '.', sig);
    assert header + "." + payload + "." + sig == header + "." + rest;
  }

  /** The mock prefix holds no '.', so it starts a dotted token exactly when it starts the
      token's first segment. */
  lemma MockPrefixInHeader(header: string, rest: string)
    requires '.' !in header
    ensures StartsWith(header + "." + rest, MockTokenPrefix) <==> StartsWith(header, MockTokenPrefix)
  {
    var t := header + "." + rest;
    var n := |MockTokenPrefix|;
    if |header| < n {
      assert t[|header|] == '.' && MockTokenPrefix[|header|] != '.';
    }
    if |header| >= n {
      assert t[..n] == header[..n];
    }
  }

  /** `token?.startsWith('mock_token_') || refreshToken?.startsWith('mock_refresh_token_')`. */
  predicate IsMockSession(token: Option<string>, refresh: Option<string>) {
    (token.Some? && StartsWith(token.value, MockTokenPrefix))
    || (refresh.Some? && StartsWith(refresh.value, MockRefreshTokenPrefix))
  }

  /** After the mock purge has run, the validity check never meets a mock token again,
      so it never clears storage on its own. */
  lemma PurgedTokenIsNoMock(present: bool, items: map<string, string>, nowMs: int, decode: string -> Payload)
    ensures var mock := IsMockSession(StoredItem(present, items, TokenKey), StoredItem(present, items, RefreshTokenKey));
            var after := if mock then items - AuthKeys else items;
            Check(StoredItem(present, after, TokenKey), nowMs, decode) != MockToken
  {
  }

  /** `window.localStorage` as far as the credential functions use it. */
  class AuthStorage {
    /** `typeof window !== 'undefined'`: false during server-side rendering, where every
        getter answers null and every setter does nothing. */
    var present: bool
    var items: map<string, string>

    constructor (present: bool, items: map<string, string>)
      ensures this.present == present && this.items == items
    {
      this.present := present;
      this.items := items;
    }

    /** `getToken()`. */
    function GetToken(): (r: Option<string>)
      reads this
      ensures r.Some? <==> present && TokenKey in items
      ensures r.Some? ==> r.value == items[TokenKey]
    {
      StoredItem(present, items, TokenKey)
    }

    /** `getRefreshToken()`. */
    function GetRefreshToken(): (r: Option<string>)
      reads this
      ensures r.Some? <==> present && RefreshTokenKey in items
      ensures r.Some? ==> r.value == items[RefreshTokenKey]
    {
      StoredItem(present, items, RefreshTokenKey)
    }

    /** `getUserData()`. */
    function GetUserData(): (r: UserDataRead)
      reads this
      ensures !present ==> r == NoUserData
      ensures present && UserDataKey !in items ==> r == NoUserData
    {
      ReadUserData(StoredItem(present, items, UserDataKey))
    }

    /** `saveToken(token)`: the other two keys keep their values. */
    method SaveToken(token: string)
      modifies this
      ensures present == old(present)
      ensures items == if present then old(items)[TokenKey := token] else old(items)
      ensures present ==> GetToken() == Some(token)
      ensures GetRefreshToken() == old(GetRefreshToken()) && GetUserData() == old(GetUserData())
    {
      if present {
        items := items[TokenKey := token];
      }
    }

    /** `saveRefreshToken(refreshToken)`. */
    method SaveRefreshToken(refreshToken: string)
      modifies this
      ensures present == old(present)
      ensures items == if present then old(items)[RefreshTokenKey := refreshToken] else old(items)
      ensures present ==> GetRefreshToken() == Some(refreshToken)
      ensures GetToken() == old(GetToken()) && GetUserData() == old(GetUserData())
    {
      if present {
        items := items[RefreshTokenKey := refreshToken];
      }
    }

    /** `saveUserData(user)`: stores `JSON.stringify(user)`, which reads back as `user`. A
        missing profile stringifies to `undefined`, stored as the text "undefined", which
        `JSON.parse` rejects on the next read. */
    method SaveUserData(user: Option<JsonObject>)
      modifies this
      ensures present == old(present)
      ensures items == if present then old(items)[UserDataKey := ProfileText(user)] else old(items)
      ensures present && user.Some? ==> GetUserData() == UserData(user.value)
      ensures present && user.None? ==> GetUserData() == Unparsable
      ensures GetToken() == old(GetToken()) && GetRefreshToken() == old(GetRefreshToken())
    {
      if present {
        items := items[UserDataKey := ProfileText(user)];
        if user.Some? {
          UserDataRoundTrip(user.value);
        }
      }
    }

    /** `clearAuthData()`: all three keys go, every other key stays. */
    method ClearAuthData()
      modifies this
      ensures present == old(present)
      ensures items == if present then old(items) - AuthKeys else old(items)
      ensures GetToken() == None && GetRefreshToken() == None && GetUserData() == NoUserData
    {
      if present {
        items := items - AuthKeys;
      }
    }

    /** `isTokenValid()` at clock `nowMs`. Only a mock token changes storage (everything is
        cleared); an absent, malformed or expired token leaves it as it was. */
    method IsTokenValid(nowMs: int, decode: string -> Payload) returns (valid: bool)
      modifies this
      ensures valid <==> Check(old(GetToken()), nowMs, decode) == Valid
      ensures present == old(present)
      ensures items == if Check(old(GetToken()), nowMs, decode) == MockToken && present
                       then old(items) - AuthKeys else old(items)
    {
      var token := GetToken();
      if !Truthy(token) {
        return false;
      }
      if StartsWith(token.value, MockTokenPrefix) {
        ClearAuthData();
        return false;
      }
      var fields := Split(token.value, '.');
      if |fields| < 2 || fields[1] == "" {
        return false;
      }
      var base64 := Base64UrlToBase64(fields[1]);
      match decode(base64) {
        case Undecodable =>
          valid := false;
        case Claims(None) =>
          // `Date.now() < undefined * 1000` compares with NaN
          valid := false;
        case Claims(Some(exp)) =>
          valid := nowMs < exp * 1000;
      }
    }

    /** `clearMockTokens()`: clears everything and answers true exactly when either stored
        token carries its mock prefix; otherwise storage is untouched. */
    method ClearMockTokens() returns (cleared: bool)
      modifies this
      ensures cleared <==> IsMockSession(old(GetToken()), old(GetRefreshToken()))
      ensures present == old(present)
      ensures items == if cleared then old(items) - AuthKeys else old(items)
    {
      var token := GetToken();
      var refreshToken := GetRefreshToken();
      if IsMockSession(token, refreshToken) {
        ClearAuthData();
        return true;
      }
      return false;
    }
  }
}
