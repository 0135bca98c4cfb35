/** The HTTP client layer: the outcome of a request as the pages see it, the request
    interceptor that attaches the bearer token, the pass-through response interceptors,
    the default and upload headers, and the resource paths of the services. */
module ApiClient {
  import opened JsText
  import Jwt

  /** A rejected request as the pages inspect it: a server response (`err.response`),
      a request that got no response (`err.request`), or a failure before sending. */
  datatype ApiError = HttpError(status: int, message: Option<string>) | NoResponse | SetupError(msg: string)

  /** The settled result of a request. */
  datatype Outcome<T> = Ok(data: T) | Err(error: ApiError)

  const ContentTypeHeader := "Content-Type"
  const AuthorizationHeader := "Authorization"
  const BearerPrefix := "Bearer "

  /** The headers every request of the client starts with. */
  const DefaultHeaders: map<string, string> := map[ContentTypeHeader := "application/json"]

  /** The per-call headers of `uploadImage`; they override the default for that call only. */
  const UploadHeaders: map<string, string> := map[ContentTypeHeader := "multipart/form-data"]

  /** The headers one call sends: its own headers over the client's defaults. */
  function CallHeaders(perCall: map<string, string>): (r: map<string, string>)
    ensures forall k :: k in r <==> k in DefaultHeaders || k in perCall
    ensures forall k :: k in perCall ==> r[k] == perCall[k]
    ensures forall k :: k in DefaultHeaders && k !in perCall ==> r[k] == DefaultHeaders[k]
  {
    DefaultHeaders + perCall
  }

  /** An upload goes out as multipart form data; every call without headers of its own
      still sends JSON, since the upload's headers never touch the defaults. */
  lemma UploadOverridesContentType()
    ensures CallHeaders(UploadHeaders)[ContentTypeHeader] == "multipart/form-data"
    ensures CallHeaders(map[])[ContentTypeHeader] == "application/json"
  {
  }

  /** The `Authorization` value for a token (section 2.1 of RFC 6750). */
  function BearerValue(token: string): (r: string)
    ensures |r| == |BearerPrefix| + |token|
  {
    BearerPrefix + token
  }

  /** How a server reads the credential back out of the header. */
  function CredentialOf(header: string): (r: Option<string>)
    ensures r.Some? ==> header == BearerPrefix + r.value
  {
    if StartsWith(header, BearerPrefix) then Some(header[|BearerPrefix|..]) else None
  }

  lemma BearerRoundTrip(token: string)
    ensures CredentialOf(BearerValue(token)) == Some(token)
  {
    assert BearerValue(token)[..|BearerPrefix|] == BearerPrefix;
    assert BearerValue(token)[|BearerPrefix|..] == token;
  }

  /** The headers after the request interceptor: the token's bearer value under
      `Authorization` when a token is stored, otherwise exactly the headers it was given. */
  function AuthorizedHeaders(headers: map<string, string>, token: Option<string>): (r: map<string, string>)
    ensures Truthy(token) ==> AuthorizationHeader in r && CredentialOf(r[AuthorizationHeader]) == token
    ensures !Truthy(token) ==> r == headers
    ensures forall k :: k != AuthorizationHeader ==> (k in r <==> k in headers)
    ensures forall k :: k != AuthorizationHeader && k in headers ==> r[k] == headers[k]
  {
    if Truthy(token) then
      BearerRoundTrip(token.value);
      headers[AuthorizationHeader := BearerValue(token.value)]
    else headers
  }

  /** An outgoing request as the interceptor sees it. */
  class RequestConfig {
    var url: string
    var headers: map<string, string>

    constructor (url: string, headers: map<string, string>)
      ensures this.url == url && this.headers == headers
    {
      this.url := url;
      this.headers := headers;
    }
  }

  /** The request interceptor: it writes the header into the config in place and hands
      back the same config object (logging reads it and changes nothing). */
  method InterceptRequest(config: RequestConfig, storage: Jwt.AuthStorage) returns (r: RequestConfig)
    modifies config
    ensures r == config
    ensures config.url == old(config.url)
    ensures config.headers == AuthorizedHeaders(old(config.headers), storage.GetToken())
  {
    var token := storage.GetToken();
    if Truthy(token) {
      config.headers := config.headers[AuthorizationHeader := BearerValue(token.value)];
    }
    r := LogApiRequest(config);
  }

  /** `logApiRequest`: observational only. */
  method LogApiRequest(config: RequestConfig) returns (r: RequestConfig)
    ensures r == config
  {
    r := config;
  }

  /** The success handler of the response interceptor hands the response on as it came. */
  function OnResponse<T>(response: Outcome<T>): (r: Outcome<T>)
    requires response.Ok?
    ensures r.Ok? && r.data == response.data
  {
    response
  }

  /** The error handlers of both interceptors reject again with the error they received. */
  function OnRejected<T>(error: ApiError): (r: Outcome<T>)
    ensures r.Err? && r.error == error
  {
    Err(error)
  }

  /** The two cases the response error handler logs apart. */
  datatype ErrorLog = ResponseLogged(status: int) | ConnectionLogged

  function ErrorLogOf(error: ApiError): (r: ErrorLog)
    ensures r.ResponseLogged? <==> error.HttpError?
    ensures r.ResponseLogged? ==> r.status == error.status
  {
    if error.HttpError? then ResponseLogged(error.status) else ConnectionLogged
  }

  // ---------------------------------------------------------------------------
  // resource paths, each template literal written segment by segment

  /** `/api`, the root every service path starts from. */
  const ApiRoot := "/" + "api"

  /** `/api/analysis/results/${id}`. */
  function AnalysisResultPath(id: string): string {
    ApiRoot + "/" + "analysis" + "/" + "results" + "/" + id
  }

  /** `/api/parasites/${type}`. */
  function ParasitePath(parasiteType: string): string {
    ApiRoot + "/" + "parasites" + "/" + parasiteType
  }

  /** `/api/digits/${value}` with the number written in decimal. */
  function DigitPath(value: int): string {
    ApiRoot + "/" + "digits" + "/" + IntToString(value)
  }

  /** `/api/models/${type}/${name}/${version}`, the stem of the two model paths. */
  function ModelPath(modelType: string, name: string, version: string): string {
    ApiRoot + "/" + "models" + "/" + modelType + "/" + name + "/" + version
  }

  function ModelMetadataPath(modelType: string, name: string, version: string): string {
    ModelPath(modelType, name, version) + "/" + "metadata"
  }

  function ModelCheckUpdatePath(modelType: string, name: string, version: string): string {
    ModelPath(modelType, name, version) + "/" + "check-update"
  }

  /** The path of `getUserById`, `updateUser` and `deleteUser`: `/api/users/${id}`. */
  function UserPath(id: string): string {
    ApiRoot + "/" + "users" + "/" + id
  }

  predicate Segment(s: string) {
    '/' !in s
  }

  /** The root splits into an empty field and `api`. */
  lemma ApiRootFields()
    ensures Split(ApiRoot, '/') == ["", "api"]
  {
    assert Split("", '/') == [""];
    SplitSnoc("", '/', "api");
  }

  /** A user path splits back into its fixed parts and the id, so distinct ids give distinct paths. */
  lemma UserPathFields(id: string)
    requires Segment(id)
    ensures Split(UserPath(id), '/') == ["", "api", "users", id]
  {
    ApiRootFields();
    SplitSnoc(ApiRoot, '/', "users");
    SplitSnoc(ApiRoot + "/" + "users", '/', id);
  }

  /** A parasite path splits back into its fixed parts and the parasite type. */
  lemma ParasitePathFields(parasiteType: string)
    requires Segment(parasiteType)
    ensures Split(ParasitePath(parasiteType), '/') == ["", "api", "parasites", parasiteType]
  {
    ApiRootFields();
    SplitSnoc(ApiRoot, '/', "parasites");
    SplitSnoc(ApiRoot + "/" + "parasites", '/', parasiteType);
  }

  /** An analysis result path splits back into its fixed parts and the analysis id. */
  lemma AnalysisResultPathFields(id: string)
    requires Segment(id)
    ensures Split(AnalysisResultPath(id), '/') == ["", "api", "analysis", "results", id]
  {
    var analysis := ApiRoot + "/" + "analysis";
    ApiRootFields();
    SplitSnoc(ApiRoot, '/', "analysis");
    SplitSnoc(analysis, '/', "results");
    SplitSnoc(analysis + "/" + "results", '/', id);
  }

  /** The stem of a model path splits into its fixed parts, the type, the name and the version. */
  lemma ModelPathFields(modelType: string, name: string, version: string)
    requires Segment(modelType) && Segment(name) && Segment(version)
    ensures Split(ModelPath(modelType, name, version), '/') == ["", "api", "models", modelType, name, version]
  {
    var models := ApiRoot + "/" + "models";
    ApiRootFields();
    SplitSnoc(ApiRoot, '/', "models");
    SplitSnoc(models, '/', modelType);
    SplitSnoc(models + "/" + modelType, '/', name);
    SplitSnoc(models + "/" + modelType + "/" + name, '/', version);
  }

  /** A metadata path splits back into type, name and version in their places. */
  lemma ModelMetadataPathFields(modelType: string, name: string, version: string)
    requires Segment(modelType) && Segment(name) && Segment(version)
    ensures Split(ModelMetadataPath(modelType, name, version), '/')
         == ["", "api", "models", modelType, name, version, "metadata"]
  {
    ModelPathFields(modelType, name, version);
    SplitSnoc(ModelPath(modelType, name, version), '/', "metadata");
  }

  /** The update-check path differs from the metadata path only in its last field. */
  lemma ModelCheckUpdatePathFields(modelType: string, name: string, version: string)
    requires Segment(modelType) && Segment(name) && Segment(version)
    ensures Split(ModelCheckUpdatePath(modelType, name, version), '/')
         == ["", "api", "models", modelType, name, version, "check-update"]
  {
    ModelPathFields(modelType, name, version);
    SplitSnoc(ModelPath(modelType, name, version), '/', "check-update");
  }

  /** The digit in a digit path reads back with `parseInt` of its last field. */
  lemma DigitPathFields(value: nat)
    ensures Split(DigitPath(value), '/') == ["", "api", "digits", IntToString(value)]
    ensures ParseInt(IntToString(value)) == Some(value)
  {
    var digits := ApiRoot + "/" + "digits";
    NumeralIsSegment(value);
    ApiRootFields();
    SplitSnoc(ApiRoot, '/', "digits");
    SplitSnoc(digits, '/', NatToString(value));
    ParseIntOfNatToString(value);
  }

  /** A decimal numeral holds digits only, so never a slash. */
  lemma NumeralIsSegment(n: nat)
    ensures Segment(NatToString(n))
  {
  }
}
