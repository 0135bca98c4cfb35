# OPCA admin dashboard: a Dafny model of its client-side logic

OPCA is a Next.js administration front end for an image-analysis service. The service
identifies parasites in microscope images and handwritten digits (MNIST) in photographs.
This project models, in Dafny, the parts of the front end that are logic, not layout:

- **The session and token core.** `Jwt` models the browser credential store. It holds three
  `localStorage` keys, and a `present` flag stands for the server-side case with no `window`.
  It also models the token-validity check and the purge of mock tokens. `AuthContext` models
  the session controller: startup reconciliation, login, the redirect choice and logout.
  `ApiClient` models the bearer-header request interceptor (section 2.1 of RFC 6750), the
  pass-through response interceptors, the default and upload headers, and the resource
  paths.
- **The mock backend** (`MockApi`). It covers credential lookup, token formats, token
  refresh, find-or-reject lookups, and the filtered, sorted and paginated analysis listing.
- **Forms and error classification** (`LoginPage`, `RegisterPage`). These cover the ordered
  validator, the request payload and the classification of failed requests.
- **Page state machines.** `UploadPage` models the upload queue. `BatchUpload` models the
  batch counters and ratings. `ModelsPage` covers the model list and its update check,
  `UsersPage` the user forms, and `AdminAnalysis` the administrator's filters.
- **Aggregation and search.** `Dashboard` covers the dashboard histograms, the top-five
  rankings and the weekly buckets. `AnalysisList`, `MnistPage`, `ParasitePage`,
  `ParasitesPage` and `DigitsPage` cover the case-insensitive search filters.

Three support modules model the JavaScript behaviour that the code relies on:

- `JsText`: truthiness, `||` fallbacks, `toLowerCase`, `includes`, `split`/`join`, `trim`,
  `toString` and `parseInt`.
- `JsArray`: `filter`, `find`, `slice` and a stable descending `sort`.
- `JsonCodec`: `JSON.stringify` and `JSON.parse` on flat objects, with a proved round trip.

The clock, the browser's base64 and JSON decoding of a token payload, date parsing, number
formatting and random numbers are parameters. Each request result is a parameter of type
`Outcome`: `Ok(data)`, or `Err` with a server response, a missing response, or a setup
error. Navigation is recorded in a `navTarget` field instead of being performed.

## Model

| member | source | states |
|---|---|---|
| Jwt.StoredItem | src/utils/jwt.ts:23-38 | a key reads back exactly when a window exists and the key is stored, and then it is the stored string |
| Jwt.ReadUserData | src/utils/jwt.ts:48-56 | a missing or empty profile entry reads as null |
| Jwt.UserDataRoundTrip | src/utils/jwt.ts:41-56 | a saved profile object is read back equal, through JSON.stringify and JSON.parse |
| Jwt.Base64UrlToBase64 | src/utils/jwt.ts:91 | the output has the input's length, and each character is the base64url-to-base64 image of the one at the same place |
| Jwt.Base64UrlToBase64Spec | src/utils/jwt.ts:91 | no '-' or '_' survives, every other character is kept, a string without them is unchanged, and the mapping is idempotent |
| Jwt.PayloadSegment | src/utils/jwt.ts:83-89 | a segment is returned only when it is non-empty, and it never holds a '.' |
| Jwt.CheckValidIff | src/utils/jwt.ts:68-114 | a token is valid iff it is stored, is not a mock token, has a payload segment, and that segment decodes to an `exp` with now < exp*1000 |
| Jwt.CheckMonotoneInTime | src/utils/jwt.ts:102 | a later clock never turns an expired token valid again |
| Jwt.SignatureNeverChecked | src/utils/jwt.ts:83-108 | a two-segment token passes the shape check, and the signature segment never changes the verdict |
| Jwt.MockPrefixInHeader | src/utils/jwt.ts:74 | the mock prefix starts a dotted token iff it starts the token's first segment |
| Jwt.PurgedTokenIsNoMock | src/utils/jwt.ts:117-129 | after the mock purge, the validity check never sees a mock token |
| Jwt.AuthStorage.constructor | src/utils/jwt.ts:9-65 | the store starts with the given window flag and items |
| Jwt.AuthStorage.GetToken | src/utils/jwt.ts:23-29 | returns the stored access token, or null when there is no window or no entry |
| Jwt.AuthStorage.GetRefreshToken | src/utils/jwt.ts:32-38 | returns the stored refresh token, or null when there is no window or no entry |
| Jwt.AuthStorage.GetUserData | src/utils/jwt.ts:48-56 | null when there is no window or no entry |
| Jwt.AuthStorage.SaveToken | src/utils/jwt.ts:9-13 | sets only the access-token key, which then reads back unchanged; a no-op without a window |
| Jwt.AuthStorage.SaveRefreshToken | src/utils/jwt.ts:16-20 | sets only the refresh-token key, which then reads back unchanged; a no-op without a window |
| Jwt.AuthStorage.SaveUserData | src/utils/jwt.ts:41-45 | stores the profile's JSON text, which reads back as the same object; a missing profile is stored as "undefined", which then fails to parse; the other keys are unchanged |
| Jwt.AuthStorage.ClearAuthData | src/utils/jwt.ts:59-65 | removes exactly the three keys, so all three getters return null |
| Jwt.AuthStorage.IsTokenValid | src/utils/jwt.ts:68-114 | returns true iff the check says valid; storage is cleared only for a mock token and is untouched otherwise |
| Jwt.AuthStorage.ClearMockTokens | src/utils/jwt.ts:117-129 | returns true iff the access token or the refresh token carries its mock prefix; clears the three keys in that case and changes nothing otherwise |
| AuthContext.RedirectTarget | src/context/AuthContext.tsx:93-106 | the returnUrl unless it is missing, empty or '/'; in those three cases '/opca/dashboard' |
| AuthContext.RedirectIgnoresRole | src/context/AuthContext.tsx:98-106 | admin and non-admin users get the same target |
| AuthContext.LoginError | src/context/AuthContext.tsx:114-124 | a rejected request passes its own error to the catch path; a malformed success body becomes the format error |
| AuthContext.LoginAgreesOnCompleteData | src/context/AuthContext.tsx:83-124 | checking the three fields of `data` changes nothing for a complete response or for one the handler already rejects |
| AuthContext.MissingTokenAsWritten | src/context/AuthContext.tsx:83-113 | as written, a success body without a token sets the user, stores the token as "undefined" and, with a returnUrl, redirects without calling the error callback |
| AuthContext.MissingUserAsWritten | src/context/AuthContext.tsx:83-100 | as written, a success body without a user overwrites all three keys before reading `user.role` throws; the callback gets that TypeError, and the next startup stops with loading still true |
| AuthContext.IncompleteLoginRejected | src/context/AuthContext.tsx:83-124 | with the fields checked, an incomplete `data` leaves user, route and storage unchanged and reaches the callback once, as the format error |
| AuthContext.StartupPurgesMockFirst | src/context/AuthContext.tsx:54-57 | a mock session ends startup with nothing stored and no user |
| AuthContext.StartupSetsUserOnlyWhenValid | src/context/AuthContext.tsx:59-61 | startup sets the user iff a token and a profile are both stored and the token is valid, and then the user is the stored profile |
| AuthContext.StartupClearsInvalidToken | src/context/AuthContext.tsx:62-65 | a stored token that fails the check gets all three keys cleared |
| AuthContext.StartupValidTokenWithoutProfile | src/context/AuthContext.tsx:59-67 | a valid token without a profile changes nothing but the loading flag |
| AuthContext.StartupEndsLoading | src/context/AuthContext.tsx:51-68 | loading ends false on every path except a profile that JSON.parse rejects |
| AuthContext.AuthSession.constructor | src/context/AuthContext.tsx:28-46 | no user, loading, no navigation |
| AuthContext.AuthSession.InitAuth | src/context/AuthContext.tsx:51-68 | the new user, loading flag and storage are those of the startup reconciliation on the old storage |
| AuthContext.AuthSession.HandleLogin | src/context/AuthContext.tsx:73-125 | with the three fields of `data` checked first, an accepted response stores exactly token, refresh token and profile, which read back unchanged, sets the user and targets the redirect; anything else leaves user and storage alone and hands the error to the callback if there is one; loading ends false |
| AuthContext.AuthSession.HandleLogout | src/context/AuthContext.tsx:127-131 | clears the three keys, drops the user and targets '/auth/login' |
| ApiClient.BearerValue | src/services/api.ts:34 | the header value is the bearer prefix followed by the token |
| ApiClient.CredentialOf | src/services/api.ts:34 | a credential is read back only from a header of the form "Bearer " + credential |
| ApiClient.BearerRoundTrip | src/services/api.ts:31-35 | the token is recovered from the header the interceptor writes |
| ApiClient.AuthorizedHeaders | src/services/api.ts:31-35 | with a stored token, Authorization carries exactly that token; without one, the headers are unchanged; no other header is touched |
| ApiClient.CallHeaders | src/services/api.ts:12-17 | a call sends its own headers over the defaults; default headers it does not set keep their values |
| ApiClient.UploadOverridesContentType | src/services/api.ts:224-228 | an upload sends multipart form data while a plain call still sends JSON |
| ApiClient.RequestConfig.constructor | src/services/api.ts:12-17 | a config with the given url and headers |
| ApiClient.InterceptRequest | src/services/api.ts:30-38 | returns the config it received, with only its headers updated as above |
| ApiClient.LogApiRequest | src/services/api.ts:20-27 | returns the same config |
| ApiClient.OnResponse | src/services/api.ts:48-52 | the response is passed on unchanged |
| ApiClient.OnRejected | src/services/api.ts:39-43 | the request and response error handlers reject again with the same error |
| ApiClient.ErrorLogOf | src/services/api.ts:53-61 | a server response is logged with its status; every other error is logged as a connection error |
| ApiClient.UserPathFields | src/services/api.ts:251-276 | the user path splits back into its fixed parts and the id |
| ApiClient.ParasitePathFields | src/services/api.ts:138-141 | the parasite path splits back into its fixed parts and the type |
| ApiClient.AnalysisResultPathFields | src/services/api.ts:101-104 | the analysis result path splits back into its fixed parts and the id |
| ApiClient.ModelMetadataPathFields | src/services/api.ts:204-208 | the metadata path splits back into type, name and version in their places |
| ApiClient.ModelCheckUpdatePathFields | src/services/api.ts:211-215 | the update-check path splits back into type, name and version, ending in "check-update" |
| ApiClient.DigitPathFields | src/services/api.ts:171-174 | the digit path ends in the value's decimal text, which parseInt reads back |
| MockApi.ProfileOf | src/services/mockApi.ts:362 | the profile has no password field |
| MockApi.ProfileFields | src/services/mockApi.ts:362-364 | the profile keeps the id, email and role and has no password |
| MockApi.GeneratedTokensAreMock | src/services/mockApi.ts:334-342 | issued tokens carry the prefixes the credential store rejects and purges |
| MockApi.RefreshTokenFields | src/services/mockApi.ts:340-342 | split on '_', a refresh token holds the id in field 3 and the clock in field 4 |
| MockApi.FindUser | src/services/mockApi.ts:349 | a user is found iff some mock user has exactly that email and password |
| MockApi.MockCredentials | src/services/mockApi.ts:8-25 | each mock account logs in with its own password only |
| MockApi.Login | src/services/mockApi.ts:346-383 | resolves iff the credentials match; then it saves both tokens and the password-free profile and returns them; otherwise it rejects with the login error and stores nothing |
| MockApi.FindById | src/services/mockApi.ts:390 | a user is found only for a numeric id equal to theirs |
| MockApi.RefreshAsWrittenAlwaysRejects | src/services/mockApi.ts:385-414 | as written, every refresh rejects |
| MockApi.RefreshTokenRoundTrip | src/services/mockApi.ts:385-414 | read from field 3, a refresh token issued to a mock user yields that user's access token |
| MockApi.RefreshRejectsForeignTokens | src/services/mockApi.ts:388-412 | a token without the refresh prefix is rejected |
| MockApi.GetParasiteByType | src/services/mockApi.ts:429-445 | resolves with a parasite of that type, and rejects with the not-found message iff there is none |
| MockApi.GetDigitByValue | src/services/mockApi.ts:460-476 | resolves exactly for the values 0 to 9, with that value |
| MockApi.GetAnalysisById | src/services/mockApi.ts:512-528 | resolves with an analysis with that id, and rejects with the not-found message iff there is none |
| MockApi.ListingSpec | src/services/mockApi.ts:483-491 | the listing is newest first and holds exactly the selected analyses; with no type or 'all' it holds every one |
| MockApi.TotalPages | src/services/mockApi.ts:505 | no page count for a zero limit |
| MockApi.TotalPagesIsCeiling | src/services/mockApi.ts:505 | with a positive limit, the page count is the least number of pages that holds every item |
| MockApi.PageWindow | src/services/mockApi.ts:494-496 | a page is the run of the listing from (page-1)*limit, at most limit long |
| MockApi.GetAnalyses | src/services/mockApi.ts:481-510 | the items are that window of the newest-first filtered listing; total is the filtered count; page, limit and totalPages are echoed or derived |
| MockApi.MockListingOrder | src/services/mockApi.ts:228-331 | the concrete order of the six mock analyses, with a tie kept in table order |
| LoginPage.ConnectivityMessage | src/pages/auth/login.tsx:126-129 | the connectivity text names the API base URL |
| LoginPage.SetupMessage | src/pages/auth/login.tsx:130-134 | the setup text is the fixed prefix followed by the error message |
| LoginPage.StatusMessage | src/pages/auth/login.tsx:125 | the fallback text is the prefix, the status and the suffix |
| LoginPage.StatusMessageStatus | src/pages/auth/login.tsx:125 | the status can be read back out of the fallback text |
| LoginPage.LoginErrorMessage | src/pages/auth/login.tsx:116-135 | the server's message if it sent a truthy one, else the status text; the connectivity text without a response; the setup text otherwise |
| LoginPage.MalformedResponseMessage | src/pages/auth/login.tsx:130-134 | a malformed login body is shown as a setup error carrying the format message |
| LoginPage.SignedInRedirect | src/pages/auth/login.tsx:72-78 | redirects to '/opca/dashboard' iff a user is set and loading has ended |
| LoginPage.PostLoginRedirect | src/pages/auth/login.tsx:139-151 | both roles go to '/opca/dashboard', and only when a user is set and no error was captured |
| LoginPage.LoginForm.constructor | src/pages/auth/login.tsx:64-65 | no error, no success flag, no navigation |
| LoginPage.LoginForm.HandleSubmit | src/pages/auth/login.tsx:96-156 | the old error is cleared; an empty field sets the required-fields error without a login; otherwise a failed login shows the classified message |
| LoginPage.LoginForm.AfterDelay | src/pages/auth/login.tsx:139-151 | marks success and targets the dashboard exactly when the captured user is set and no error was captured |
| RegisterPage.EmailShapeMatchesPattern | src/pages/auth/register.tsx:109 | a string has the `\S+@\S+\.\S+` shape exactly when some '@' and a later '.' each have non-space characters on both sides, in both directions |
| RegisterPage.EmailPatternUnanchored | src/pages/auth/register.tsx:109 | the unanchored pattern accepts an address surrounded by spaces and other text |
| RegisterPage.ValidateForm | src/pages/auth/register.tsx:101-134 | the first failing check in order name, e-mail, password, confirmation, terms gives its message; no message exactly when every check passes |
| RegisterPage.PasswordLengthUntrimmed | src/pages/auth/register.tsx:115-119 | the length check counts the untrimmed password, so a four-letter password padded by spaces passes |
| RegisterPage.PayloadOf | src/pages/auth/register.tsx:149-154 | the request carries the full name as `name`, the e-mail, the password and the role |
| RegisterPage.PayloadIgnoresConfirmation | src/pages/auth/register.tsx:149-154 | two forms give the same request exactly when they differ at most in the confirmation field |
| RegisterPage.RegisterErrorMessage | src/pages/auth/register.tsx:165-185 | 409 gives the duplicate-address text; another status gives the server's non-empty message or the status text; no response gives the connectivity text; a setup error gives the setup text |
| RegisterPage.RegisterAgreesWithLogin | src/pages/auth/register.tsx:175-184 | outside 409 and empty messages the sign-up page words an error as the sign-in page does |
| RegisterPage.RegisterStatusReadsBack | src/pages/auth/register.tsx:175 | without a message the shown text ends in the status's decimal digits, which parse back to the status |
| RegisterPage.RegisterForm.constructor | src/pages/auth/register.tsx:64-76 | no error, not loading, no success, no navigation |
| RegisterPage.RegisterForm.HandleSubmit | src/pages/auth/register.tsx:136-189 | an invalid form sends nothing and shows its validation message; a valid one sends its payload and ends not loading, with success and the sign-in page as target on an answer and the classified message on an error |
| UploadPage.Images | src/pages/opca/upload/index.tsx:99-105 | the kept files are, in selection order, the selected files whose type starts with `image/`, each as often as it was selected |
| UploadPage.NewEntry | src/pages/opca/upload/index.tsx:110-117 | a new entry is uploading at 0% with its own id and the file's name, size and type |
| UploadPage.BumpNSpec | src/pages/opca/upload/index.tsx:145-149 | n progress ticks raise progress by 10 each, capped at 90 |
| UploadPage.SettleSpec | src/pages/opca/upload/index.tsx:150-174 | an answered upload ends at 100% with the server's status, error and result; a failed request ends as a mock success at 100%; the id is kept |
| UploadPage.LateTickLowersProgress | src/pages/opca/upload/index.tsx:145-174 | as written, a tick after a failed request's mock success leaves a successful entry at 90% where the intended behaviour shows 100% |
| UploadPage.BumpNKeeps | src/pages/opca/upload/index.tsx:145-149 | ticks change nothing but the progress |
| UploadPage.SettleKeepsId | src/pages/opca/upload/index.tsx:150-174 | settling an upload keeps its entry's id |
| UploadPage.BumpNShift | src/pages/opca/upload/index.tsx:145-149 | n+1 ticks are one tick followed by n ticks |
| UploadPage.LateTicksStayAtCap | src/pages/opca/upload/index.tsx:145-149 | ticks leave an entry at the 90% cap unchanged |
| UploadPage.RunUploadsPrefix | src/pages/opca/upload/index.tsx:122-131 | after the first k sequential uploads the first k new entries are settled, the rest untouched, the length kept |
| UploadPage.UploadStepAt | src/pages/opca/upload/index.tsx:122-131 | one further upload settles its own entry and leaves every other entry as it was |
| UploadPage.StatsBounds | src/pages/opca/upload/index.tsx:200-212 | successes plus errors never exceed the file count, and every file's size is within the total size |
| UploadPage.SizeBound | src/pages/opca/upload/index.tsx:205 | every file's size is at most the sum of all sizes |
| UploadPage.UploadQueue.constructor | src/pages/opca/upload/index.tsx:59-67 | no files, zero statistics, not uploading |
| UploadPage.UploadQueue.Tick | src/pages/opca/upload/index.tsx:145-149 | the entry with that id gains one tick, every other entry is unchanged |
| UploadPage.UploadQueue.UpdateFileStatus | src/pages/opca/upload/index.tsx:178-197 | entries with that id take the new status, error and result; other entries, the length and the statistics are unchanged |
| UploadPage.UploadQueue.UploadFile | src/pages/opca/upload/index.tsx:138-175 | the list after the ticks and the settlement is the one step function of the old list |
| UploadPage.UploadQueue.UpdateStats | src/pages/opca/upload/index.tsx:200-212 | the statistics are those of the list the closure saw; the files are unchanged |
| UploadPage.UploadQueue.HandleFiles | src/pages/opca/upload/index.tsx:98-135 | a selection without images only alerts; otherwise the new entries go in front and are uploaded one at a time, uploading ends false, and the statistics are those of the list the handler's render saw |
| UploadPage.UploadQueue.HandleFileInput | src/pages/opca/upload/index.tsx:91-95 | the file input's handler sees the current list, so the statistics are those of the list before the new entries |
| UploadPage.UploadQueue.HandleDrop | src/pages/opca/upload/index.tsx:80-88 | an empty drop does nothing; otherwise the memoised handler uploads the images like the file input, but its statistics come from the first render's empty list and so are all zero |
| UploadPage.UploadQueue.RemoveFile | src/pages/opca/upload/index.tsx:215-218 | the list keeps, in order, exactly the entries with another id |
| UploadPage.UploadQueue.ClearAllFiles | src/pages/opca/upload/index.tsx:221-229 | no files and zero statistics |
| UploadPage.NewEntriesInPlace | src/pages/opca/upload/index.tsx:110-119 | with fresh ids, the i-th new entry sits at position i of the list after prepending |
| UploadPage.HandledSelection | src/pages/opca/upload/index.tsx:110-131 | after the whole selection the i-th image's entry is settled by its own upload and the older entries follow unchanged |
| BatchUpload.StatsOf | src/pages/opca/analysis/batch-upload/index.tsx:128-140 | the total is the row count and the last upload is the first row's time, absent for no rows |
| BatchUpload.StatusCountsPartition | src/pages/opca/analysis/batch-upload/index.tsx:128-131 | when every row has a known status the three counts add up to the total |
| BatchUpload.SimulatedCountsSum | src/pages/opca/analysis/batch-upload/index.tsx:185-187 | the reported successes, floor of 0.9·n, and errors, ceil of 0.1·n, add up to n, with errors at most successes plus one |
| BatchUpload.SimulateCountInput | src/pages/opca/analysis/batch-upload/index.tsx:501 | a non-number or 0 becomes 5, any other parsed integer is kept, so the count is never 0 |
| BatchUpload.SimulateCountInputRoundTrip | src/pages/opca/analysis/batch-upload/index.tsx:501 | typing a positive count gives that count |
| BatchUpload.BatchPage.constructor | src/pages/opca/analysis/batch-upload/index.tsx:61-72 | no rows, zero statistics, count 5, loading |
| BatchUpload.BatchPage.FetchHistory | src/pages/opca/analysis/batch-upload/index.tsx:75-147 | the rows are the sample history and the statistics are computed from it |
| BatchUpload.BatchPage.SetCountInput | src/pages/opca/analysis/batch-upload/index.tsx:501 | the count becomes the input's reading; nothing else changes |
| BatchUpload.BatchPage.Simulate | src/pages/opca/analysis/batch-upload/index.tsx:150-222 | the drawn rows go in front; the statistics add the formula counts, not the rows' own; the dialog closes and the count returns to 5 |
| BatchUpload.SimulatedStatsIgnoreRows | src/pages/opca/analysis/batch-upload/index.tsx:181-209 | ten failed rows still add nine successes to the statistics |
| BatchUpload.RatingOf | src/pages/opca/analysis/batch-upload/index.tsx:370-384 | excellent iff some uploads and a success share of at least 90%; good iff between 70% and 90%; no uploads needs work |
| BatchUpload.RatingDisplayDistinct | src/pages/opca/analysis/batch-upload/index.tsx:370-384 | different ratings have different chip labels and colours |
| BatchUpload.RatingMonotone | src/pages/opca/analysis/batch-upload/index.tsx:370-384 | more successes never lower the rating |
| BatchUpload.StatusColor | src/pages/opca/analysis/batch-upload/index.tsx:228-239 | the default colour exactly for a status other than success, error and pending |
| BatchUpload.StatusLabel | src/pages/opca/analysis/batch-upload/index.tsx:241-252 | the unknown label exactly for a status other than success, error and pending |
| BatchUpload.StatusDisplayDistinct | src/pages/opca/analysis/batch-upload/index.tsx:228-252 | the three known statuses have distinct labels and colours |
| Dashboard.TypeCountsWithinTotal | src/pages/opca/dashboard/index.tsx:156-158 | parasite and digit counts together never exceed the total |
| Dashboard.DayOf | src/pages/opca/dashboard/index.tsx:163 | the day of an analysis is read from its timestamp when that is non-empty, else from its creation time |
| Dashboard.Average | src/pages/opca/dashboard/index.tsx:177 | no confidences give 0; otherwise the average times the count is 100 times the total |
| Dashboard.SumConfidence | src/pages/opca/dashboard/index.tsx:168-176 | the loop's sum and count are the sum and count of the analyses that have a dominant confidence |
| Dashboard.ConfidenceSumBounds | src/pages/opca/dashboard/index.tsx:168-176 | confidences in [0, 1] sum to between 0 and their count |
| Dashboard.AverageIsPercentage | src/pages/opca/dashboard/index.tsx:177 | the average confidence is a percentage between 0 and 100 |
| Dashboard.RatioWithinOne | src/pages/opca/dashboard/index.tsx:188-193 | a part of a positive whole is a share between 0 and 1 |
| Dashboard.IndexOfKey | src/pages/opca/dashboard/index.tsx:185 | the position of a key in the tally, or the end when no earlier entry holds it |
| Dashboard.Tally | src/pages/opca/dashboard/index.tsx:180-187 | the counting loop yields the histogram of the rows |
| Dashboard.HistogramTallies | src/pages/opca/dashboard/index.tsx:180-205 | the histogram has distinct keys, in first-seen order, exactly the keys that occur, each with its number of rows |
| Dashboard.DominantType | src/pages/opca/dashboard/index.tsx:184 | a row counts under its dominant type exactly when that type is non-empty |
| Dashboard.DominantDigit | src/pages/opca/dashboard/index.tsx:201-202 | a row counts under its dominant digit exactly when it has one |
| Dashboard.ParasiteHistogram | src/pages/opca/dashboard/index.tsx:180-187 | the parasite tally counts the parasite analyses by dominant type and counts at most all of them |
| Dashboard.DigitHistogram | src/pages/opca/dashboard/index.tsx:198-205 | the digit tally counts the digit analyses by dominant digit and counts at most all of them |
| Dashboard.TopEntries | src/pages/opca/dashboard/index.tsx:194-195 | at most five entries |
| Dashboard.TopEntriesRank | src/pages/opca/dashboard/index.tsx:188-213 | the top entries are sorted by count, drawn from the tally, and no left-out entry outranks a kept one |
| Dashboard.TopEntriesTies | src/pages/opca/dashboard/index.tsx:194-195 | among entries with equal counts the kept ones are the first ones in tally order |
| Dashboard.EntriesOrderSpec | src/pages/opca/dashboard/index.tsx:206 | the digit entries are the tally's entries, with the array-index keys first in ascending order and the others after |
| Dashboard.Week | src/pages/opca/dashboard/index.tsx:223-247 | seven days |
| Dashboard.WeekBounds | src/pages/opca/dashboard/index.tsx:223-247 | the days run up to today in order, each day's counts stay within the type totals, and today's two counts stay within today's analyses |
| Dashboard.WeeklyData | src/pages/opca/dashboard/index.tsx:223-247 | the loop builds the seven-day series |
| Dashboard.DashboardPage.constructor | src/pages/opca/dashboard/index.tsx:51-61 | the zero statistics, loading |
| Dashboard.DashboardPage.FetchDashboardData | src/pages/opca/dashboard/index.tsx:139-266 | the general list is asked for exactly when the administrator list fails; a usable answer gives its statistics, anything else keeps the old ones; loading ends |
| ModelsPage.SampleModelsAgree | src/pages/opca/models/index.tsx:81-155 | the failure list is the first two sample models; exactly the digit model is flagged as updatable and exactly the 1.0.0 models as latest |
| ModelsPage.SampleMetadata | src/pages/opca/models/index.tsx:164-193 | the sample record keeps the model's kind, name and version and carries the kind's classes |
| ModelsPage.CheckKey | src/pages/opca/models/index.tsx:200 | the key is kind, dash, name, dash, version |
| ModelsPage.CheckKeyInjective | src/pages/opca/models/index.tsx:200 | with dash-free kinds and versions equal keys name the same model |
| ModelsPage.CheckKeyCollides | src/pages/opca/models/index.tsx:200 | a dash in the kind lets two different models share a key |
| ModelsPage.UpdatedModels | src/pages/opca/models/index.tsx:204-213 | only rows naming the checked model take the answer's update flag |
| ModelsPage.UpdatedModelsSpec | src/pages/opca/models/index.tsx:204-213 | no field but the update flag changes, taking the same answer twice is taking it once, and no matching row means no change |
| ModelsPage.ModelIcon | src/pages/opca/models/index.tsx:225-234 | bug for parasite, numbers for mnist, cpu otherwise |
| ModelsPage.ModelColor | src/pages/opca/models/index.tsx:236-245 | success for parasite, info for mnist, primary otherwise |
| ModelsPage.IconAndColorAgree | src/pages/opca/models/index.tsx:225-245 | two kinds share an icon exactly when they share a colour |
| ModelsPage.ModelsView.constructor | src/pages/opca/models/index.tsx:67-72 | loading, no models, no selection, no check running, no error |
| ModelsPage.ModelsView.FetchModels | src/pages/opca/models/index.tsx:75-156 | the server's list when given, the sample list when answered without one, the failure list with a warning on an error; loading ends |
| ModelsPage.ModelsView.FetchModelMetadata | src/pages/opca/models/index.tsx:159-196 | the server's record when given, the sample record when answered without one, the old selection on an error |
| ModelsPage.ModelsView.CheckModelUpdate | src/pages/opca/models/index.tsx:199-219 | the check holds the model's key while it runs; a successful answer updates the matching rows; afterwards no check runs |
| ModelsPage.ModelsView.DismissError | src/pages/opca/models/index.tsx:282 | the warning is cleared and nothing else changes |
| ModelsPage.CheckDisablesOnlyThatModel | src/pages/opca/models/index.tsx:360-361 | with dash-free kinds and versions a running check disables exactly the rows of the checked model |
| UsersPage.UpdatePayload | src/pages/opca/users/index.tsx:251-254 | the update keeps name, e-mail and role and carries the password exactly when it is non-empty |
| UsersPage.EditFormOf | src/pages/opca/users/index.tsx:301-310 | the edit form holds the user's name, e-mail and role and an empty password |
| UsersPage.EditPayloads | src/pages/opca/users/index.tsx:251-254 | an unchanged edit sends no password; a typed password is sent |
| UsersPage.UpdatePayloadIdempotent | src/pages/opca/users/index.tsx:251-254 | the payload of a payload is itself |
| UsersPage.EnablementOrder | src/pages/opca/users/index.tsx:637 | a creatable form is savable, a blank form is neither, the edit form of a named user is savable but not creatable, and nothing is while saving |
| UsersPage.RoleColor | src/pages/opca/users/index.tsx:322-333 | error for admin, warning for veterinarian, primary for user, default otherwise |
| UsersPage.DeleteGuard | src/pages/opca/users/index.tsx:555 | the delete button is disabled exactly on rows in the administrator's colour, that is for the admin role |
| UsersPage.RoleLabel | src/pages/opca/users/index.tsx:335-346 | Turkish labels for the three roles, any other role shown as itself |
| UsersPage.RoleMapsAgree | src/pages/opca/users/index.tsx:322-346 | a role is shown under its own name exactly when it has the default colour, and two known roles share a colour, or a label, only when they are the same role |
| UsersPage.UsersView.constructor | src/pages/opca/users/index.tsx:84-102 | no dialogs, a blank form, page 1, no filters, no error |
| UsersPage.UsersView.OpenCreateDialog | src/pages/opca/users/index.tsx:296-299 | a blank form in the open create dialog |
| UsersPage.UsersView.OpenEditDialog | src/pages/opca/users/index.tsx:301-310 | the user is selected and the form holds the user's fields |
| UsersPage.UsersView.OpenDeleteDialog | src/pages/opca/users/index.tsx:312-315 | the user is selected; the form is left as it is |
| UsersPage.UsersView.HandleCreateUser | src/pages/opca/users/index.tsx:226-243 | the form is sent; a successful answer closes the dialog, blanks the form and refetches; an error shows the create message |
| UsersPage.UsersView.HandleUpdateUser | src/pages/opca/users/index.tsx:246-271 | with no selection nothing is sent; otherwise the selected id and the update payload are sent; success closes the dialog, clears the selection, blanks the form and refetches; an error shows the update message |
| UsersPage.UsersView.HandleDeleteUser | src/pages/opca/users/index.tsx:274-293 | with no selection nothing is sent; otherwise the selected id is deleted; success closes the dialog, clears the selection and refetches; an error shows the delete message |
| UsersPage.UsersView.ClearFilters | src/pages/opca/users/index.tsx:477-481 | no search, every role, page 1 |
| AdminAnalysis.DominantOf | src/pages/opca/analysis/admin/index.tsx:310-323 | the first result of the row's own type, none when that list is empty |
| AdminAnalysis.DominantText | src/pages/opca/analysis/admin/index.tsx:310-323 | type and percentage for a parasite, "Rakam" with the digit and percentage for a digit, the no-result text otherwise |
| AdminAnalysis.NoResultTextExactly | src/pages/opca/analysis/admin/index.tsx:310-323 | the column reads "no result" exactly when the row has no result of its own type |
| AdminAnalysis.OtherListIgnored | src/pages/opca/analysis/admin/index.tsx:316-322 | a digit row without digit results shows no result even with parasite results |
| AdminAnalysis.TypeColor | src/pages/opca/analysis/admin/index.tsx:283-285 | success exactly for Parasite, info otherwise |
| AdminAnalysis.SortValue | src/pages/opca/analysis/admin/index.tsx:455-467 | the selector value joins field and order with a dash |
| AdminAnalysis.SortValueRoundTrip | src/pages/opca/analysis/admin/index.tsx:455-467 | splitting a dash-free field and order's value on '-' gives them back |
| AdminAnalysis.SortOptionsRoundTrip | src/pages/opca/analysis/admin/index.tsx:455-467 | every offered option splits into two halves that rebuild it |
| AdminAnalysis.QueryOf | src/pages/opca/analysis/admin/index.tsx:118-120 | an empty type, a blank user id and an unticked mobile box are left out; the user id is trimmed; sort and page pass through |
| AdminAnalysis.Filters.constructor | src/pages/opca/analysis/admin/index.tsx:118-120 | every filter empty, newest first, page 1 |
| AdminAnalysis.Filters.ClearFilters | src/pages/opca/analysis/admin/index.tsx:274-281 | every filter back to its initial value |
| AdminAnalysis.Filters.SetMobileChecked | src/pages/opca/analysis/admin/index.tsx:475-477 | ticking asks for mobile analyses only, unticking drops the filter, never "not on mobile" |
| AdminAnalysis.Filters.SelectSort | src/pages/opca/analysis/admin/index.tsx:455-467 | the chosen option's halves become field and order, so the selector shows the option again |
| AdminAnalysis.ClearedQuery | src/pages/opca/analysis/admin/index.tsx:274-281 | after clearing, the list asks for every analysis, newest first, page 1 |
| Analyses.OrEmpty | src/pages/opca/analysis/list/index.tsx:115 | the answer's list, or an empty list when absent |
| Analyses.ResolvedId | src/pages/opca/analysis/list/index.tsx:132 | the first non-empty of id, analysisId and _id, and empty exactly when all three are |
| Analyses.ResolvedType | src/pages/opca/analysis/list/index.tsx:133 | the type, else the analysis type, and empty exactly when both are |
| Analyses.TopResult | src/pages/opca/analysis/list/index.tsx:183 | the first result when there is one, else the dominant result |
| Analyses.ConfidenceColor | src/pages/opca/analysis/list/index.tsx:62-67 | success from 0.75, warning from 0.5, error below, each an if-and-only-if |
| Analyses.ConfidenceColorMonotone | src/pages/opca/analysis/list/index.tsx:62-67 | a higher confidence never gets a worse colour |
| AnalysisList.TypeParam | src/pages/opca/analysis/list/index.tsx:109 | the 'all' tab asks for every type, another tab for its own type |
| AnalysisList.MatchesEmptySearch | src/pages/opca/analysis/list/index.tsx:137-139 | every text contains the empty search |
| AnalysisList.FilteredAnalyses | src/pages/opca/analysis/list/index.tsx:130-141 | the kept rows are, in order, the rows matching the search, each as often as it occurs |
| AnalysisList.EmptySearchKeepsAll | src/pages/opca/analysis/list/index.tsx:131 | an empty search keeps every row |
| AnalysisList.LinkId | src/pages/opca/analysis/list/index.tsx:229-231 | the resolved id, or "undefined" when no id field is set |
| AnalysisList.LinkType | src/pages/opca/analysis/list/index.tsx:229-231 | the lower-cased resolved type, or "unknown" |
| AnalysisList.DetailPath | src/pages/opca/analysis/list/index.tsx:229-231 | the link starts with '/opca/analysis/' |
| AnalysisList.DetailPathFields | src/pages/opca/analysis/list/index.tsx:229-231 | the link splits on '/' into the page, the type and the id |
| AnalysisList.DetailFieldsSplit | src/pages/opca/analysis/list/index.tsx:229-231 | a detail path built from a slash-free type and id splits back into them |
| MnistPage.FilteredAnalyses | src/pages/opca/analysis/mnist/index.tsx:137-155 | the kept rows are, in order, the rows matching the search, each as often as it occurs |
| MnistPage.EmptySearchKeepsAll | src/pages/opca/analysis/mnist/index.tsx:138 | an empty search keeps every row |
| MnistPage.DigitSearchFindsValue | src/pages/opca/analysis/mnist/index.tsx:150-152 | searching a result's digit finds its row |
| MnistPage.FirstDigit | src/pages/opca/analysis/mnist/index.tsx:119-121 | the first result's digit, present exactly when the row has a first result |
| MnistPage.Digits | src/pages/opca/analysis/mnist/index.tsx:116-125 | one digit per row with a first result, in row order: the i-th digit is the first result of the i-th such row |
| MnistPage.RecentDigits | src/pages/opca/analysis/mnist/index.tsx:116-125 | the digits of the first ten rows, in row order, so at most ten |
| MnistPage.DigitsOfFullRows | src/pages/opca/analysis/mnist/index.tsx:116-125 | when every row has a result, the i-th digit is the i-th row's first result |
| MnistPage.DigitsIgnoreDominant | src/pages/opca/analysis/mnist/index.tsx:116-125 | the recent digits depend on the result lists only |
| MnistPage.Devices | src/pages/opca/analysis/mnist/index.tsx:297 | the device set is exactly the rows' non-empty device texts |
| MnistPage.DistinctDevices | src/pages/opca/analysis/mnist/index.tsx:297 | the device count is at most the rows with a device |
| MnistPage.OneDevice | src/pages/opca/analysis/mnist/index.tsx:297 | rows all from one device count one device |
| ParasitePage.FilteredAnalyses | src/pages/opca/analysis/parasite/index.tsx:129-147 | the kept rows are, in order, the rows matching the search, each as often as it occurs |
| ParasitePage.EmptySearchKeepsAll | src/pages/opca/analysis/parasite/index.tsx:130 | an empty search keeps every row |
| ParasitePage.SearchFindsTopType | src/pages/opca/analysis/parasite/index.tsx:141-143 | searching a row's shown parasite type finds the row |
| ParasitePage.AnalysesPage.constructor | src/pages/opca/analysis/parasite/index.tsx:87-91 | loading, no analyses, no catalogue |
| ParasitePage.AnalysesPage.FetchData | src/pages/opca/analysis/parasite/index.tsx:99-126 | the request is page 1 of up to 100 analyses of type Parasite; the catalogue is asked for exactly after the analyses arrive; each list is set from its answer or empty; a failure keeps the old lists; loading ends |
| ParasitesPage.FilteredParasites | src/pages/opca/parasites/index.tsx:145-153 | the kept entries are, in order, those whose type, name or description contains the search, each as often as it occurs |
| ParasitesPage.EmptySearchKeepsAll | src/pages/opca/parasites/index.tsx:146 | an empty search keeps every entry |
| ParasitesPage.SearchFindsName | src/pages/opca/parasites/index.tsx:145-153 | searching an entry's name finds it |
| ParasitesPage.Field | src/pages/opca/parasites/index.tsx:103-106 | a form field is present exactly when it was set |
| ParasitesPage.WithField | src/pages/opca/parasites/index.tsx:103-106 | an input sets its own field and leaves every other field unchanged |
| ParasitesPage.FillingTheForm | src/pages/opca/parasites/index.tsx:108-122 | the empty form cannot be submitted; filling type, name and description makes it complete |
| ParasitesPage.CataloguePage.constructor | src/pages/opca/parasites/index.tsx:62-72 | loading, no entries, the dialog closed, the empty form |
| ParasitesPage.CataloguePage.OpenNewDialog | src/pages/opca/parasites/index.tsx:90-97 | the empty form in the open dialog |
| ParasitesPage.CataloguePage.HandleInputChange | src/pages/opca/parasites/index.tsx:103-106 | the form with that field set |
| ParasitesPage.CataloguePage.SubmitNewParasite | src/pages/opca/parasites/index.tsx:108-122 | submits and closes the dialog exactly when the form is complete |
| ParasitesPage.CataloguePage.FetchParasites | src/pages/opca/parasites/index.tsx:125-142 | the answer's list or an empty list; a failure keeps the old list; loading ends |
| DigitsPage.FilteredDigits | src/pages/opca/digits/index.tsx:184-190 | the kept entries are, in order, those matching the search, each as often as it occurs |
| DigitsPage.EmptySearchKeepsAll | src/pages/opca/digits/index.tsx:185 | an empty search keeps every entry |
| DigitsPage.SearchFindsValue | src/pages/opca/digits/index.tsx:184-190 | searching an entry's digit finds it |
| DigitsPage.NumberInput | src/pages/opca/digits/index.tsx:143 | a non-number reads as 0, any other parsed integer as itself |
| DigitsPage.NumberInputOfDigit | src/pages/opca/digits/index.tsx:143 | typing a number's decimal text gives the number |
| DigitsPage.NumberInputOfWord | src/pages/opca/digits/index.tsx:143 | text starting with a letter reads as 0 |
| DigitsPage.WithInput | src/pages/opca/digits/index.tsx:139-145 | the value input sets the parsed value, the description input the text, the other field unchanged |
| DigitsPage.DescriptionCompletesForm | src/pages/opca/digits/index.tsx:147-161 | the empty form cannot be submitted; a value and a non-empty description in either order complete it |
| DigitsPage.CataloguePage.constructor | src/pages/opca/digits/index.tsx:89-100 | loading, no entries, the dialog closed, the empty form |
| DigitsPage.CataloguePage.OpenAddDialog | src/pages/opca/digits/index.tsx:118-124 | the empty form in the open dialog |
| DigitsPage.CataloguePage.HandleInputChange | src/pages/opca/digits/index.tsx:139-145 | the form with that input applied |
| DigitsPage.CataloguePage.SubmitNewDigit | src/pages/opca/digits/index.tsx:147-161 | submits and closes the dialog exactly when the form is complete |
| DigitsPage.CataloguePage.FetchDigits | src/pages/opca/digits/index.tsx:164-181 | the answer's list or an empty list; a failure keeps the old list; loading ends |
| JsText.OrElse | src/pages/opca/analysis/list/index.tsx:132-134 | `a \|\| b` on strings: a when non-empty, else b |
| JsText.OrDefault | src/pages/opca/analysis/list/index.tsx:132-134 | `a \|\| d`: a's text when non-empty, else the default |
| JsText.ContainsEmpty | src/pages/opca/analysis/list/index.tsx:137-139 | every string includes the empty string |
| JsText.ToLower | src/pages/opca/analysis/list/index.tsx:137-139 | lower-casing keeps the length and maps each character on its own |
| JsText.SplitJoin | src/utils/jwt.ts:83 | splitting fields joined by a separator they lack gives them back |
| JsText.JoinSplit | src/services/mockApi.ts:389 | joining the split fields gives the string back |
| JsText.Trim | src/pages/auth/register.tsx:103 | trimming gives the empty string exactly for a blank string |
| JsText.IntToString | src/services/mockApi.ts:389 | the decimal text, with a minus sign for negatives |
| JsText.ParseIntOfNatToString | src/services/mockApi.ts:389 | `parseInt` reads back a number's decimal text |
| JsText.ParseIntNoDigit | src/services/mockApi.ts:389 | `parseInt` of text starting with no digit, sign or space is NaN |
| JsArray.FilterSpec | src/pages/opca/analysis/list/index.tsx:130-141 | the filtered list is a subsequence holding exactly the elements that pass |
| JsArray.FilterCounts | src/pages/opca/analysis/list/index.tsx:130-141 | each passing element is kept as often as it occurs, and no failing one is kept |
| JsArray.FilterKeepsAll | src/pages/opca/analysis/list/index.tsx:131 | when every element passes the list is unchanged |
| JsArray.Find | src/services/mockApi.ts:349 | the first element that passes, absent exactly when none does |
| JsArray.SliceIndex | src/services/mockApi.ts:496 | an index clamped into the list, unchanged when already inside |
| JsArray.SliceFront | src/pages/opca/dashboard/index.tsx:195 | `slice(0, n)` is the first min(n, length) elements |
| JsArray.SortDescSpec | src/pages/opca/dashboard/index.tsx:194 | the sort is ordered by descending key and a permutation |
| JsArray.SortDescStable | src/pages/opca/dashboard/index.tsx:194 | elements with equal keys keep their relative order |
| JsonCodec.Lookup | src/utils/jwt.ts:52 | a key's value is in the object, absent exactly when no member has the key |
| JsonCodec.EscapeRoundTrip | src/utils/jwt.ts:43 | reading back an escaped string gives the string and the rest |
| JsonCodec.ValueRoundTrip | src/utils/jwt.ts:43 | reading back a serialised value gives the value and the rest |
| JsonCodec.MembersRoundTrip | src/utils/jwt.ts:43 | reading back serialised members gives them and the rest |
| JsonCodec.StringifyRoundTrip | src/utils/jwt.ts:43-52 | parsing a stringified flat object gives the object back |

## Left out

- Rendering, styling, charts, dialogs' visuals and console logging are not modelled; only the state the handlers change and the values the views compute are.
- Network I/O, axios and its header merging and parameter serialisation are not modelled: every request's settlement is an `Outcome` argument, and a refetch the pages trigger is a returned flag.
- Timers, delays and async scheduling are not modelled: the sign-in delay, the mock back end's one-second delays, the upload progress interval and the one-second mock success each become a sequence of steps (a number of ticks before and after the settlement), and concurrent logins or uploads are not modelled.
- React's stale closures are modelled as explicit snapshots: the upload page's `updateStats` and `removeFile` take the list as the handler saw it (the current list for the file input, the initial empty list for a drop, whose memoised callback keeps the first render's handlers), and the sign-in page's delayed check takes the user and error captured at submit time.
- Clocks, random draws and generated ids are parameters: `nowMs`, the batch simulation's `draw` and timestamp, the upload ids, the mock token times, and the dashboard's `today`. The mock analyses' six `Date.now()` readings at module load are one `loadMs`, so their creation times are exact offsets of 2 days, 1 day, 12 hours, 3 days, 1 day and 8 hours before it.
- Jwt.Check: the base64url decoding, `atob`, `decodeURIComponent` and `JSON.parse` of the payload are the `decode` parameter; only the character mapping of base64url to base64 and the reading of segment 1 are modelled.
- JsonCodec covers flat objects whose values are strings or integers, which is what the stored profile is; nested values, floating-point numbers and the full JSON grammar are not modelled.
- AuthContext.AuthSession.InitAuth: when the stored profile is not valid JSON, `JSON.parse` throws and startup stops with `loading` still true; the model follows the code here, not the promise that loading always ends. Since `JsonCodec.Parse` reads only the compact flat form `JSON.stringify` writes, a stored profile that is valid JSON in another form (with white space, booleans, nested values) also counts as rejected here, where the browser would accept it.
- Floating point is not modelled: confidences and percentages are exact reals, `toFixed(1)` is the `fixed1` parameter, the rating compares the success share as exact rationals, and the simulation's `Math.floor(n * 0.9)` and `Math.ceil(n * 0.1)` are the exact integer floor and ceiling of 9n/10 and n/10, without the rounding of the floating products.
- Dates are not modelled: `dateOf` maps a timestamp to its UTC day number, or to none when `toISOString` would throw; locale formatting, day names, time zones and the models page's `formatDate` are left out.
- Dashboard.DashboardPage.FetchDashboardData: the device shares (floor of 60%, 30% and 10% of the total) and the percentages of the top entries are left out, being floating-point presentation.
- Dashboard.HistogramTallies: parasite type keys are kept in insertion order, which is what `Object.entries` does for every key except integer-like ones and `__proto__`; type names of those shapes are not modelled.
- Dashboard.EntriesOrderSpec: every non-negative digit is treated as an array-index key, which holds for keys below 2^32 - 1.
- Text is a sequence of Unicode code points: lengths counted in UTF-16 units (the password's length check) differ for characters outside the Basic Multilingual Plane, and `toLowerCase` is modelled for ASCII, Latin-1 and the Turkish capitals Ğ and Ş only.
- MnistPage.FilteredAnalyses and ParasitePage.FilteredAnalyses: a result without a digit or a type, on which the page would throw, is treated as not matching.
- UsersPage and AdminAnalysis: the user list, the analysis list, their statistics, pagination and the mock data those pages fall back to are not modelled; the administrator page's role colours are the user page's `UsersPage.RoleColor`, one definition for two identical maps.
- AnalysisList and MnistPage: their fetch handlers are modelled only through the type parameter and the empty-list fallback (`Analyses.OrEmpty`); their loading flags are not.
- AdminAnalysis.Filters.SelectSort: the selector is modelled for the four options it offers; other values cannot be chosen in the page.
- ModelsPage.CheckKeyInjective: keys identify models only when kinds and versions carry no '-'; `CheckKeyCollides` shows a collision otherwise, which no model of the page can produce.
- ApiClient: the services other than the listed resource paths and the upload headers are not modelled, being plain calls with no logic.
- AuthContext.AuthSession.HandleLogin: follows the corrected handler of the Findings table, which checks the three fields of `data`; the code as written is the function `AuthContext.LoginAsWritten`.
- AuthContext: a `null` field of the login `data` is treated as missing; the source would store the text "null" for it. The TypeError message is the one V8 gives.
- MockApi.GetAnalyses: the default arguments `page = 1, limit = 10` are not modelled; every caller passes both.
- Static configuration, the router redirect of the index page, the error page and the navigation are not modelled; the API base URL is a parameter of the messages that show it.

## Findings

| source | as written | input that shows it | evidently intended | confidence | as-written member | corrected member |
|---|---|---|---|---|---|---|
| src/services/mockApi.ts:389 | the user id is read from field 2 of the refresh token split on '_', which is always `token`, so `parseInt` gives NaN and every refresh is rejected | `mock_refresh_token_1_1700000000000` | read the id from field 3, so a refresh token issued to a mock user yields a new access token for that user | not executed | MockApi.RefreshAsWrittenAlwaysRejects | MockApi.RefreshTokenRoundTrip |
| src/context/AuthContext.tsx:83-100 | a success body with a `data` object is saved field by field without checking the fields: a missing token or refresh token is stored as "undefined", a missing user overwrites the stored profile with "undefined" and throws a TypeError at `user.role` only when no returnUrl is set | `{ success: true, data: { refreshToken: "r", user: { role: "admin" } } }` with returnUrl `/x` | treat a `data` without token, refresh token or user like a missing `data`: save nothing, set no user, and hand the format error to the callback once | not executed | AuthContext.MissingTokenAsWritten | AuthContext.IncompleteLoginRejected |
| src/pages/opca/upload/index.tsx:145-174 | when the upload request throws, the progress interval is never cleared, so after the mock success sets progress to 100 the next tick sets it back to 90 | an upload whose request rejects, followed by one more 200 ms tick | clear the interval on every path, so a finished upload stays at 100 | not executed | UploadPage.LateTickLowersProgress | UploadPage.SettleSpec |
