/** The mock backend the dashboard falls back to when no server runs: two users, three
    parasites, ten digits and six analyses, the token formats it issues, login, token
    refresh, the paged analysis listing and the find-or-reject lookups. */
module MockApi {
  import opened JsText
  import opened JsArray
  import opened JsonCodec
  import Jwt

  /** How a mock service call settles: resolved with data, or rejected with an `Error`. */
  datatype Reply<T> = Resolved(value: T) | Rejected(message: string)

  const LoginFailedMessage := "Email veya şifre hatalı"
  const InvalidTokenMessage := "Geçersiz token"
  const ParasiteNotFoundMessage := "Parazit bulunamadı"
  const DigitNotFoundMessage := "Rakam bulunamadı"
  const AnalysisNotFoundMessage := "Analiz bulunamadı"

  // ---------------------------------------------------------------------------
  // users and tokens

  datatype MockUser = MockUser(id: nat, email: string, password: string, fullName: string, role: string, username: string)

  const MockUsers: seq<MockUser> := [
    MockUser(1, "admin@example.com", "Admin123!", "Admin Kullanıcı", "admin", "admin"),
    MockUser(2, "user@example.com", "User123!", "Test Kullanıcı", "user", "user")
  ]

  /** The user record without its password, in the property order of the record. */
  function ProfileOf(u: MockUser): (r: JsonObject)
    ensures forall i :: 0 <= i < |r| ==> r[i].0 != "password"
  {
    [("id", JNum(u.id)), ("email", JStr(u.email)), ("fullName", JStr(u.fullName)),
     ("role", JStr(u.role)), ("username", JStr(u.username))]
  }

  /** The profile carries the id, email and role of the user, and no password. */
  lemma ProfileFields(u: MockUser)
    ensures Lookup(ProfileOf(u), "password") == None
    ensures Lookup(ProfileOf(u), "id") == Some(JNum(u.id))
    ensures Lookup(ProfileOf(u), "email") == Some(JStr(u.email))
    ensures Lookup(ProfileOf(u), "role") == Some(JStr(u.role))
  {
    var r := ProfileOf(u);
    var r4, r3, r2 := r[..4], r[..3], r[..2];
    assert r4[..3] == r3 && r3[..2] == r2 && r2[..1] == [("id", JNum(u.id))];
    assert Lookup(r, "role") == Lookup(r4, "role") == Some(JStr(u.role));
    assert Lookup(r2, "email") == Some(JStr(u.email));
    assert Lookup(r, "email") == Lookup(r4, "email") == Lookup(r3, "email") == Lookup(r2, "email");
    assert Lookup(r2[..1], "id") == Some(JNum(u.id));
    assert Lookup(r, "id") == Lookup(r4, "id") == Lookup(r3, "id") == Lookup(r2, "id") == Lookup(r2[..1], "id");
    assert Lookup(r, "password") == None by { LookupMissing(r, "password"); }
  }

  lemma {:induction false} LookupMissing(o: JsonObject, key: string)
    requires forall i :: 0 <= i < |o| ==> o[i].0 != key
    ensures Lookup(o, key) == None
    decreases |o|
  {
    if |o| > 0 {
      LookupMissing(o[..|o| - 1], key);
    }
  }

  /** `mock_token_<id>_<clock>`. */
  function GenerateToken(id: nat, nowMs: nat): string {
    Jwt.MockTokenPrefix + NatToString(id) + "_" + NatToString(nowMs)
  }

  /** `mock_refresh_token_<id>_<clock>`. */
  function GenerateRefreshToken(id: nat, nowMs: nat): string {
    Jwt.MockRefreshTokenPrefix + NatToString(id) + "_" + NatToString(nowMs)
  }

  /** The issued tokens carry the prefixes the credential store treats as mock tokens, so
      its validity check rejects them and the startup purge removes them. */
  lemma GeneratedTokensAreMock(id: nat, t1: nat, t2: nat, nowMs: int, decode: string -> Jwt.Payload)
    ensures StartsWith(GenerateToken(id, t1), Jwt.MockTokenPrefix)
    ensures StartsWith(GenerateRefreshToken(id, t2), Jwt.MockRefreshTokenPrefix)
    ensures Jwt.Check(Some(GenerateToken(id, t1)), nowMs, decode) == Jwt.MockToken
    ensures Jwt.IsMockSession(Some(GenerateToken(id, t1)), Some(GenerateRefreshToken(id, t2)))
  {
    var a := GenerateToken(id, t1);
    assert a[..|Jwt.MockTokenPrefix|] == Jwt.MockTokenPrefix;
    var b := GenerateRefreshToken(id, t2);
    assert b[..|Jwt.MockRefreshTokenPrefix|] == Jwt.MockRefreshTokenPrefix;
  }

  lemma DigitsHaveNoUnderscore(n: nat)
    ensures '_' !in NatToString(n)
  {
  }

  /** Split on '_', a refresh token has the id in field 3 and the clock in field 4. */
  lemma RefreshTokenFields(id: nat, nowMs: nat)
    ensures Split(GenerateRefreshToken(id, nowMs), '_')
         == ["mock", "refresh", "token", NatToString(id), NatToString(nowMs)]
  {
    var i, t := NatToString(id), NatToString(nowMs);
    DigitsHaveNoUnderscore(id);
    DigitsHaveNoUnderscore(nowMs);
    RefreshTokenShape(i, t);
    SplitNoSeparator(t, '_');
    SplitAfterField(i, '_', t);
    SplitAfterField("token", '_', i + "_" + t);
    SplitAfterField("refresh", '_', "token" + "_" + (i + "_" + t));
    SplitAfterField("mock", '_', "refresh" + "_" + ("token" + "_" + (i + "_" + t)));
  }

  lemma RefreshTokenShape(i: string, t: string)
    ensures Jwt.MockRefreshTokenPrefix + i + "_" + t
         == "mock" + "_" + ("refresh" + "_" + ("token" + "_" + (i + "_" + t)))
  {
  }

  /** `mockUsers.find(u => u.email === email && u.password === password)`. */
  function FindUser(email: string, password: string): (r: Option<MockUser>)
    ensures r.Some? ==> r.value in MockUsers && r.value.email == email && r.value.password == password
    ensures r.None? <==> forall i :: 0 <= i < |MockUsers| ==> !(MockUsers[i].email == email && MockUsers[i].password == password)
  {
    Find(MockUsers, (u: MockUser) => u.email == email && u.password == password)
  }

  /** Both mock accounts log in with their own password, and only with it. */
  lemma MockCredentials()
    ensures FindUser("admin@example.com", "Admin123!") == Some(MockUsers[0])
    ensures FindUser("user@example.com", "User123!") == Some(MockUsers[1])
    ensures FindUser("admin@example.com", "User123!") == None
    ensures FindUser("user@example.com", "Admin123!") == None
  {
  }

  /** What a successful mock login resolves with. */
  datatype LoginReply = LoginReply(accessToken: string, refreshToken: string, userData: JsonObject)

  /** `mockAuthService.login`, with the two clock readings taken for the two tokens. On a
      match the tokens and the password-free profile are stored before the reply. */
  method Login(storage: Jwt.AuthStorage, email: string, password: string, tokenMs: nat, refreshMs: nat)
    returns (r: Reply<LoginReply>)
    modifies storage
    ensures r.Resolved? <==> FindUser(email, password).Some?
    ensures storage.present == old(storage.present)
    ensures r.Resolved? ==>
      var u := FindUser(email, password).value;
      r.value == LoginReply(GenerateToken(u.id, tokenMs), GenerateRefreshToken(u.id, refreshMs), ProfileOf(u))
      && storage.items == (if storage.present
                           then old(storage.items)[Jwt.TokenKey := r.value.accessToken]
                                                  [Jwt.RefreshTokenKey := r.value.refreshToken]
                                                  [Jwt.UserDataKey := Stringify(r.value.userData)]
                           else old(storage.items))
    ensures r.Rejected? ==> r.message == LoginFailedMessage && storage.items == old(storage.items)
  {
    var user := FindUser(email, password);
    if user.Some? {
      var accessToken := GenerateToken(user.value.id, tokenMs);
      var refreshToken := GenerateRefreshToken(user.value.id, refreshMs);
      storage.SaveToken(accessToken);
      storage.SaveRefreshToken(refreshToken);
      var userData := ProfileOf(user.value);
      storage.SaveUserData(Some(userData));
      r := Resolved(LoginReply(accessToken, refreshToken, userData));
    } else {
      r := Rejected(LoginFailedMessage);
    }
  }

  /** `mockUsers.find(u => u.id === userId)`, where a `NaN` id matches nobody. */
  function FindById(userId: Option<int>): (r: Option<MockUser>)
    ensures r.Some? ==> userId.Some? && r.value in MockUsers && r.value.id == userId.value
  {
    if userId.None? then None else Find(MockUsers, (u: MockUser) => u.id == userId.value)
  }

  /** `mockAuthService.refreshToken` as written: the id is read from '_'-field 2. */
  function RefreshTokenAsWritten(token: string, nowMs: nat): Reply<string> {
    if token != "" && StartsWith(token, Jwt.MockRefreshTokenPrefix) then
      var fields := Split(token, '_');
      var userId := if |fields| > 2 then ParseInt(fields[2]) else None;
      match FindById(userId)
      case Some(u) => Resolved(GenerateToken(u.id, nowMs))
      case None => Rejected(InvalidTokenMessage)
    else Rejected(InvalidTokenMessage)
  }

  /** Field 2 of any token with the refresh prefix is "token", which `parseInt` reads as
      `NaN`; no user matches, so every call rejects, even for a token the mock issued. */
  lemma RefreshAsWrittenAlwaysRejects(token: string, nowMs: nat)
    ensures RefreshTokenAsWritten(token, nowMs) == Rejected(InvalidTokenMessage)
  {
    if token != "" && StartsWith(token, Jwt.MockRefreshTokenPrefix) {
      var rest := token[|Jwt.MockRefreshTokenPrefix|..];
      assert token == "mock" + "_" + ("refresh" + "_" + ("token" + "_" + rest));
      SplitAfterField("mock", '_', "refresh" + "_" + ("token" + "_" + rest));
      SplitAfterField("refresh", '_', "token" + "_" + rest);
      SplitAfterField("token", '_', rest);
      assert Split(token, '_')[2] == "token";
      ParseIntNoDigit("token");
    }
  }

  /** The refresh the mock evidently intends: the id is read from '_'-field 3, where
      `generateRefreshToken` writes it. */
  function RefreshToken(token: string, nowMs: nat): Reply<string> {
    if token != "" && StartsWith(token, Jwt.MockRefreshTokenPrefix) then
      var fields := Split(token, '_');
      var userId := if |fields| > 3 then ParseInt(fields[3]) else None;
      match FindById(userId)
      case Some(u) => Resolved(GenerateToken(u.id, nowMs))
      case None => Rejected(InvalidTokenMessage)
    else Rejected(InvalidTokenMessage)
  }

  /** With the corrected field, a refresh token issued to a mock user yields a fresh access
      token for that same user; anything without the prefix is still rejected. */
  lemma RefreshTokenRoundTrip(k: nat, issuedMs: nat, nowMs: nat)
    requires k < |MockUsers|
    ensures RefreshToken(GenerateRefreshToken(MockUsers[k].id, issuedMs), nowMs)
         == Resolved(GenerateToken(MockUsers[k].id, nowMs))
  {
    RefreshReadsId(MockUsers[k].id, issuedMs, nowMs);
    MockUserById(k);
  }

  /** A refresh token the mock issued is looked up under the id written into it. */
  lemma RefreshReadsId(id: nat, issuedMs: nat, nowMs: nat)
    ensures RefreshToken(GenerateRefreshToken(id, issuedMs), nowMs)
         == match FindById(Some(id))
            case Some(u) => Resolved(GenerateToken(u.id, nowMs))
            case None => Rejected(InvalidTokenMessage)
  {
    var token := GenerateRefreshToken(id, issuedMs);
    var rest := NatToString(id) + "_" + NatToString(issuedMs);
    assert token == Jwt.MockRefreshTokenPrefix + rest;
    PrefixStarts(Jwt.MockRefreshTokenPrefix, rest);
    RefreshTokenFields(id, issuedMs);
    ParseIntOfNatToString(id);
  }

  lemma PrefixStarts(prefix: string, rest: string)
    ensures StartsWith(prefix + rest, prefix)
  {
    assert (prefix + rest)[..|prefix|] == prefix;
  }

  /** Each mock user is found by its own id. */
  lemma MockUserById(k: nat)
    requires k < |MockUsers|
    ensures FindById(Some(MockUsers[k].id)) == Some(MockUsers[k])
  {
    assert MockUsers[0].id == 1 && MockUsers[1].id == 2;
  }

  lemma RefreshRejectsForeignTokens(token: string, nowMs: nat)
    requires !StartsWith(token, Jwt.MockRefreshTokenPrefix)
    ensures RefreshToken(token, nowMs) == Rejected(InvalidTokenMessage)
  {
  }

  // ---------------------------------------------------------------------------
  // lookups

  datatype MockParasite = MockParasite(parasiteType: string, name: string)

  const MockParasites: seq<MockParasite> := [
    MockParasite("Neosporosis", "Neospora caninum"),
    MockParasite("Echinococcosis", "Echinococcus granulosus"),
    MockParasite("Toxoplasmosis", "Toxoplasma gondii")
  ]

  /** The digit records hold the values 0 to 9 in order. */
  const MockDigitValues: seq<int> := [0, 1, 2, 3, 4, 5, 6, 7, 8, 9]

  /** `getParasiteByType`: the first parasite of that type, or the not-found rejection. */
  function GetParasiteByType(parasiteType: string): (r: Reply<MockParasite>)
    ensures r.Resolved? ==> r.value in MockParasites && r.value.parasiteType == parasiteType
    ensures r.Rejected? <==> forall i :: 0 <= i < |MockParasites| ==> MockParasites[i].parasiteType != parasiteType
    ensures r.Rejected? ==> r.message == ParasiteNotFoundMessage
  {
    match Find(MockParasites, (p: MockParasite) => p.parasiteType == parasiteType)
    case Some(p) => Resolved(p)
    case None => Rejected(ParasiteNotFoundMessage)
  }

  /** Entry `i` of the digit table is the value `i`. */
  lemma DigitValuesRange(value: int)
    ensures value in MockDigitValues <==> 0 <= value <= 9
  {
    assert forall i :: 0 <= i < 10 ==> MockDigitValues[i] == i;
    if 0 <= value <= 9 {
      assert MockDigitValues[value] == value;
    }
  }

  /** `getDigitByValue`: resolves exactly for the values 0 to 9. */
  function GetDigitByValue(value: int): (r: Reply<int>)
    ensures r.Resolved? <==> 0 <= value <= 9
    ensures r.Resolved? ==> r.value == value
    ensures r.Rejected? ==> r.message == DigitNotFoundMessage
  {
    FindEqual(MockDigitValues, value);
    DigitValuesRange(value);
    match Find(MockDigitValues, (d: int) => d == value)
    case Some(d) => Resolved(d)
    case None => Rejected(DigitNotFoundMessage)
  }

  // ---------------------------------------------------------------------------
  // analyses

  /** A mock analysis as far as listing and lookup use it; `createdAt` in milliseconds. */
  datatype MockAnalysis = MockAnalysis(id: string, analysisType: string, createdAt: int)

  const HourMs := 3_600_000
  const DayMs := 86_400_000

  /** The six analyses, dated back from the clock reading `loadMs` taken when the module loads. */
  function MockAnalyses(loadMs: int): seq<MockAnalysis> {
    [ MockAnalysis("pa001", "Parasite", loadMs - 2 * DayMs),
      MockAnalysis("pa002", "Parasite", loadMs - DayMs),
      MockAnalysis("pa003", "Parasite", loadMs - 12 * HourMs),
      MockAnalysis("mn001", "MNIST", loadMs - 3 * DayMs),
      MockAnalysis("mn002", "MNIST", loadMs - DayMs),
      MockAnalysis("mn003", "MNIST", loadMs - 8 * HourMs) ]
  }

  /** `getAnalysisById`: the first analysis with that id, or the not-found rejection. */
  function GetAnalysisById(loadMs: int, id: string): (r: Reply<MockAnalysis>)
    ensures r.Resolved? ==> r.value in MockAnalyses(loadMs) && r.value.id == id
    ensures r.Rejected? <==> forall i :: 0 <= i < 6 ==> MockAnalyses(loadMs)[i].id != id
    ensures r.Rejected? ==> r.message == AnalysisNotFoundMessage
  {
    match Find(MockAnalyses(loadMs), (a: MockAnalysis) => a.id == id)
    case Some(a) => Resolved(a)
    case None => Rejected(AnalysisNotFoundMessage)
  }

  function CreatedAt(a: MockAnalysis): int {
    a.createdAt
  }

  /** `type && type !== 'all'` switches the type filter on. */
  predicate FiltersByType(analysisType: Option<string>) {
    Truthy(analysisType) && analysisType.value != "all"
  }

  predicate Selected(a: MockAnalysis, analysisType: Option<string>) {
    !FiltersByType(analysisType) || a.analysisType == analysisType.value
  }

  /** The analyses that survive the type filter, newest first. */
  function Listing(table: seq<MockAnalysis>, analysisType: Option<string>): seq<MockAnalysis> {
    SortDesc(Filter(table, (a: MockAnalysis) => Selected(a, analysisType)), CreatedAt)
  }

  /** The listing keeps every analysis when no type (or 'all') is asked for, and otherwise
      exactly those of that type; in both cases it runs from newest to oldest. */
  lemma ListingSpec(table: seq<MockAnalysis>, analysisType: Option<string>)
    ensures SortedDesc(Listing(table, analysisType), CreatedAt)
    ensures multiset(Listing(table, analysisType)) == multiset(Filter(table, (a: MockAnalysis) => Selected(a, analysisType)))
    ensures forall a :: a in Listing(table, analysisType) <==> a in table && Selected(a, analysisType)
    ensures !FiltersByType(analysisType) ==> multiset(Listing(table, analysisType)) == multiset(table)
  {
    var p := (a: MockAnalysis) => Selected(a, analysisType);
    SortDescSpec(Filter(table, p), CreatedAt);
    FilterSpec(table, p);
    var l := Listing(table, analysisType);
    forall a
      ensures a in l <==> a in Filter(table, p)
    {
      assert a in l <==> a in multiset(l);
    }
    if !FiltersByType(analysisType) {
      FilterKeepsAll(table, p);
    }
  }

  /** `Math.ceil(total / limit)`; `None` for the `Infinity` or `NaN` a zero limit gives. */
  function TotalPages(total: nat, limit: int): (r: Option<int>)
    ensures r.None? <==> limit == 0
  {
    if limit == 0 then None
    else if limit > 0 then Some((total + limit - 1) / limit)
    else Some(-(total / -limit))
  }

  /** With a positive limit, `totalPages` is the least number of pages of `limit` items
      that holds all `total` items. */
  lemma TotalPagesIsCeiling(total: nat, limit: int)
    requires limit > 0
    ensures var t := TotalPages(total, limit).value;
            t >= 0 && t * limit >= total && (t == 0 || (t - 1) * limit < total)
  {
    var t := (total + limit - 1) / limit;
    assert t * limit <= total + limit - 1 < t * limit + limit;
  }

  /** A page of the listing, as `getAnalyses` resolves it. */
  datatype AnalysesPage = AnalysesPage(items: seq<MockAnalysis>, total: nat, page: int, limit: int, totalPages: Option<int>)

  /** From page 1 on with a non-negative limit, a page is the run of the listing from
      `(page-1)*limit` on, at most `limit` long. */
  lemma PageWindow<T>(s: seq<T>, page: int, limit: int)
    requires page >= 1 && limit >= 0
    ensures var lo := if (page - 1) * limit < |s| then (page - 1) * limit else |s|;
            var hi := if page * limit < |s| then page * limit else |s|;
            lo <= hi && Slice(s, (page - 1) * limit, page * limit) == s[lo..hi]
    ensures |Slice(s, (page - 1) * limit, page * limit)| <= limit
  {
    var start := (page - 1) * limit;
    assert start >= 0 by { MulNonNegative(page - 1, limit); }
    assert page * limit == start + limit;
    SliceWindow(s, start, start + limit);
  }

  lemma MulNonNegative(a: int, b: int)
    requires a >= 0 && b >= 0
    ensures a * b >= 0
  {
  }

  /** `s.slice(lo, hi)` for `0 <= lo <= hi`: the run between the two, cut at the end of `s`. */
  lemma SliceWindow<T>(s: seq<T>, lo: int, hi: int)
    requires 0 <= lo <= hi
    ensures var a := if lo < |s| then lo else |s|;
            var b := if hi < |s| then hi else |s|;
            a <= b && Slice(s, lo, hi) == s[a..b] && |Slice(s, lo, hi)| <= hi - lo
  {
  }

  /** `mockAnalysisService.getAnalyses(page, limit, type)` over the table loaded at `loadMs`. */
  method GetAnalyses(loadMs: int, page: int, limit: int, analysisType: Option<string>) returns (r: AnalysesPage)
    ensures r.items == Slice(Listing(MockAnalyses(loadMs), analysisType), (page - 1) * limit, page * limit)
    ensures SortedDesc(r.items, CreatedAt)
    ensures forall a :: a in r.items ==> a in MockAnalyses(loadMs) && Selected(a, analysisType)
    ensures page >= 1 && limit >= 0 ==> |r.items| <= limit
    ensures r.total == Count(MockAnalyses(loadMs), (a: MockAnalysis) => Selected(a, analysisType))
    ensures r.page == page && r.limit == limit && r.totalPages == TotalPages(r.total, limit)
  {
    var filteredAnalyses := MockAnalyses(loadMs);
    if FiltersByType(analysisType) {
      filteredAnalyses := Filter(filteredAnalyses, (a: MockAnalysis) => a.analysisType == analysisType.value);
    }
    ghost var p := (a: MockAnalysis) => Selected(a, analysisType);
    SameFilter(MockAnalyses(loadMs), analysisType);
    assert filteredAnalyses == Filter(MockAnalyses(loadMs), p);
    filteredAnalyses := SortDesc(filteredAnalyses, CreatedAt);
    ListingSpec(MockAnalyses(loadMs), analysisType);
    var startIndex := (page - 1) * limit;
    var endIndex := page * limit;
    var paginated := Slice(filteredAnalyses, startIndex, endIndex);
    SliceSorted(filteredAnalyses, startIndex, endIndex);
    if page >= 1 && limit >= 0 {
      PageWindow(filteredAnalyses, page, limit);
    }
    r := AnalysesPage(paginated, |filteredAnalyses|, page, limit, TotalPages(|filteredAnalyses|, limit));
  }

  lemma SameFilter(table: seq<MockAnalysis>, analysisType: Option<string>)
    ensures FiltersByType(analysisType) ==>
      Filter(table, (a: MockAnalysis) => a.analysisType == analysisType.value)
      == Filter(table, (a: MockAnalysis) => Selected(a, analysisType))
    ensures !FiltersByType(analysisType) ==> table == Filter(table, (a: MockAnalysis) => Selected(a, analysisType))
  {
    if FiltersByType(analysisType) {
      FilterSame(table, (a: MockAnalysis) => a.analysisType == analysisType.value, (a: MockAnalysis) => Selected(a, analysisType));
    } else {
      FilterKeepsAll(table, (a: MockAnalysis) => Selected(a, analysisType));
    }
  }

  lemma {:induction false} FilterSame<T>(s: seq<T>, p: T -> bool, q: T -> bool)
    requires forall x :: p(x) == q(x)
    ensures Filter(s, p) == Filter(s, q)
    decreases |s|
  {
    if |s| > 0 {
      FilterSame(s[1..], p, q);
    }
  }

  lemma SliceSorted(s: seq<MockAnalysis>, a: int, b: int)
    requires SortedDesc(s, CreatedAt)
    ensures SortedDesc(Slice(s, a, b), CreatedAt)
    ensures forall x :: x in Slice(s, a, b) ==> x in s
  {
  }

  /** With the clock read once at load, the full listing runs mn003, pa003, pa002, mn002,
      pa001, mn001: the two analyses of one day ago tie, and the tie keeps table order. */
  lemma MockListingOrder(loadMs: int)
    ensures var l := Listing(MockAnalyses(loadMs), None);
            |l| == 6 && l[0].id == "mn003" && l[1].id == "pa003" && l[2].id == "pa002"
            && l[3].id == "mn002" && l[4].id == "pa001" && l[5].id == "mn001"
  {
    var t := MockAnalyses(loadMs);
    UnfilteredListing(t);
    MockDatesRanked(loadMs);
    SortSix(t, CreatedAt);
  }

  /** Without a type, the listing is the whole table sorted. */
  lemma UnfilteredListing(t: seq<MockAnalysis>)
    ensures Listing(t, None) == SortDesc(t, CreatedAt)
  {
    FilterKeepsAll(t, (a: MockAnalysis) => Selected(a, None));
  }

  lemma MockDatesRanked(loadMs: int)
    ensures RankedSix(MockAnalyses(loadMs), CreatedAt)
  {
  }

  /** Six keys ranked 5, 2, then 1 and 4 tied, then 0, then 3, as the mock dates rank. */
  predicate RankedSix<T>(t: seq<T>, key: T -> int) {
    |t| == 6 && key(t[5]) > key(t[2]) > key(t[1]) == key(t[4]) > key(t[0]) > key(t[3])
  }

  /** The insertion sort on such keys, one inserted element per lemma. */
  lemma SortSix<T>(t: seq<T>, key: T -> int)
    requires RankedSix(t, key)
    ensures SortDesc(t, key) == [t[5], t[2], t[1], t[4], t[0], t[3]]
  {
    SortLastFive(t, key);
    var rest := [t[5], t[2], t[1], t[4], t[3]];
    var r := [t[5], t[2], t[1], t[4], t[0], t[3]];
    assert InsertsAt(t[0], rest, key, 4);
    assert rest[..4] + [t[0]] + rest[4..] == r;
    SortStep(t, key, rest, 4, r);
  }

  lemma SortLastFive<T>(t: seq<T>, key: T -> int)
    requires RankedSix(t, key)
    ensures SortDesc(t[1..], key) == [t[5], t[2], t[1], t[4], t[3]]
  {
    SortLastFour(t, key);
    var s := t[1..];
    assert s[1..] == t[2..];
    SortStep(s, key, [t[5], t[2], t[4], t[3]], 2, [t[5], t[2], t[1], t[4], t[3]]);
  }

  lemma SortLastFour<T>(t: seq<T>, key: T -> int)
    requires RankedSix(t, key)
    ensures SortDesc(t[2..], key) == [t[5], t[2], t[4], t[3]]
  {
    SortLastThree(t, key);
    var s := t[2..];
    assert s[1..] == t[3..];
    SortStep(s, key, [t[5], t[4], t[3]], 1, [t[5], t[2], t[4], t[3]]);
  }

  lemma SortLastThree<T>(t: seq<T>, key: T -> int)
    requires RankedSix(t, key)
    ensures SortDesc(t[3..], key) == [t[5], t[4], t[3]]
  {
    SortLastTwo(t, key);
    var s := t[3..];
    assert s[1..] == t[4..];
    SortStep(s, key, [t[5], t[4]], 2, [t[5], t[4], t[3]]);
  }

  lemma SortLastTwo<T>(t: seq<T>, key: T -> int)
    requires RankedSix(t, key)
    ensures SortDesc(t[4..], key) == [t[5], t[4]]
  {
    var s := t[4..];
    assert s[1..][1..] == [];
    assert SortDesc(s[1..], key) == [t[5]];
    SortStep(s, key, [t[5]], 1, [t[5], t[4]]);
  }

  /** `x` goes in at position `i` of the sorted `rest`. */
  predicate InsertsAt<T>(x: T, rest: seq<T>, key: T -> int, i: nat) {
    i <= |rest| && (forall j :: 0 <= j < i ==> key(rest[j]) > key(x))
    && (i < |rest| ==> key(rest[i]) <= key(x))
  }

  /** One step of the insertion sort: the head goes in at its place in the sorted rest. */
  lemma SortStep<T>(s: seq<T>, key: T -> int, rest: seq<T>, i: nat, r: seq<T>)
    requires |s| > 0 && SortDesc(s[1..], key) == rest
    requires InsertsAt(s[0], rest, key, i)
    requires r == rest[..i] + [s[0]] + rest[i..]
    ensures SortDesc(s, key) == r
  {
    InsertAt(s[0], rest, key, i);
  }
}
