# send-allure-results: a verified model of `runAction`

This GitHub Action uploads the files of an Allure results directory to an
allure-docker-service server. Optionally it also asks the server to clean the
old results and to generate a report. `runAction` (index.js:21-185) reads the
action's inputs and lists the results directory. It then runs five blocks in
a fixed order:

1. log in (secure mode only);
2. fetch the project and log a predicted report link;
3. clean the results (when asked for);
4. send the results;
5. generate the report (when asked for).

The first block that fails ends the run.

The model has three parts.

**The run as a chain of stages** (module `Action`).
- The environment is one value, `Env`. It holds:
  - the inputs (`Config`), as the input reader returns them;
  - the directory listing;
  - the workflow-run context;
  - two library functions: the text of `new URL(...)` and `encodeURIComponent`;
  - a `Server` oracle that answers each request ok or not ok. It also supplies the login cookies, the project's `reports_id` list and the generated report's URL.
- `DerivedOf` computes what depends on the environment alone: the URL of each request, the predicted report link, and the CSRF token and `Cookie` header that an ok login sets up.
- The stage functions `StepReadInputs` … `StepGenerateReport` each update a `Machine`. The machine holds the run's locals (files, `csrfAccessToken`, `cookies`), the requests issued, the links logged and, once the run has ended, its outcome.
- `Final` chains the stages. `Continue` skips every stage after the one that ended the run, which is how an early `return` or `throw` behaves. `Run` reads off the ordered request trace, the logged links and the terminal `Outcome`.
- The imperative `RunAction`, and one method per block (`LogIn` … `GenerateProjectReport`), follow the source's control flow over local variables. Each is proved equal to its stage function.

**The CSRF token and the session cookie** (module `Cookies`).
- `CsrfCapture` is the capture group of `/csrf_access_token=([^;]+)/`: the leftmost match, with a greedy value that stops at the first `;`.
- `FirstCsrfToken` is the capture of the first cookie that matches. The method `ExtractCsrfToken` is the source's `for … of` loop with `break`.
- `Join` is `Array.prototype.join`.

**The predicted report link** (modules `Numbers` and `Endpoints`).
- `PredictedReportId` is `parseInt(reports_id[1]) + 1` rendered in decimal. It is `"NaN"` when there is no element at index 1, or when the element does not start with a digit.
- `ReportLink` puts the id into the UI URL template.

The module `RunProperties` defines the invariant `Inv` of the stage chain and proves it stage by stage (`FinalInv`). After `k` stages, a run that is still going:
- has passed the checks of those stages;
- holds their session;
- has issued exactly the requests they plan, all answered ok;
- has logged exactly their links.

A run that has ended did so at an earlier stage, for that stage's cause, after the planned requests of the stages before it. When a request was answered not ok, that request comes last. In both cases every request carries its URL, its credentials, its session headers and its files.

The module `RunTheorems` draws the consequences for a whole run: which outcome it ends with and exactly when, the order of the requests, what each request carries, and which links are logged. Each theorem is a lemma `…Of` about any run result described by `Ends`. A wrapper `Run…` states it for `Run(env)`.

## Model

| member | source | states |
|---|---|---|
| Numbers.Decimal | index.js:101-103 | the text of a number is non-empty, all decimal digits, and has no leading zero |
| Numbers.ParseInt | index.js:102 | `parseInt` yields NaN (None) exactly when the text is empty or does not start with a digit |
| Numbers.LeadingDigits | index.js:102 | the digits `parseInt` reads are the longest all-digit prefix of the text |
| Numbers.ParseIntDecimal | index.js:102 | `parseInt` reads back the decimal text of `n` as `n`, also when non-digit text follows |
| Numbers.DecimalValue | index.js:101-103 | the digits of the decimal text of `n` denote `n` |
| Cookies.FirstMatchFrom | index.js:70-72 | the regex search settles on the leftmost position where the key is followed by a character other than `;`; None exactly when there is no such position |
| Cookies.ValueRun | index.js:70 | the greedy `[^;]+` takes the longest run of non-`;` characters, up to a `;` or the end of the cookie |
| Cookies.CsrfCapture | index.js:70-73 | no contract of its own: `cookie.match(/csrf_access_token=([^;]+)/)[1]`, or None; its meaning is stated by CsrfCaptureIsLeftmostMatch and CaptureOfTokenCookie |
| Cookies.CsrfCaptureIsLeftmostMatch | index.js:70-73 | the capture is None exactly when the regex matches nowhere; otherwise it is the non-empty, `;`-free value of the leftmost match, so `match && match[1]` is the same test as `match` |
| Cookies.CaptureOfTokenCookie | index.js:70-74 | a cookie `csrf_access_token=v` followed by nothing or by `;…` yields exactly `v` |
| Cookies.FirstCsrfToken | index.js:71-77 | no contract of its own: the token the login loop settles on; its meaning is stated by FirstCsrfTokenIsFirstMatch and FirstCsrfTokenAppend, and ExtractCsrfToken proves the loop equal to it |
| Cookies.FirstCsrfTokenIsFirstMatch | index.js:71-77 | the token is the capture of the first matching cookie in list order, with no match before it; unset when no cookie matches |
| Cookies.FirstCsrfTokenAppend | index.js:71-77 | cookies after the first matching one do not affect the token |
| Cookies.ExtractCsrfToken | index.js:71-77 | the loop with `break` leaves `csrfAccessToken` equal to FirstCsrfToken of the login cookies |
| Cookies.Join | index.js:78 | no contract of its own: `Array.prototype.join`; its meaning is stated by JoinConcat and JoinLength |
| Cookies.JoinConcat | index.js:78 | joining with "; " keeps the cookies in order, with the separator between the joined parts |
| Cookies.JoinLength | index.js:78 | the joined header is as long as all the cookies plus one separator between each neighbouring pair |
| Endpoints.LoginUrl | index.js:56 | no contract of its own: the login URL template; InvLogin and RunSecureSession state that the login request carries it |
| Endpoints.ProjectUrl | index.js:93 | no contract of its own: the project URL template; InvFetchReport states that the fetch request carries it |
| Endpoints.CleanResultsUrl | index.js:114 | no contract of its own: the clean-results URL template; InvClean states that the clean request carries it |
| Endpoints.SendResultsUrl | index.js:136 | no contract of its own: the send-results URL template; InvUpload states that the upload carries it |
| Endpoints.ExecutionFrom | index.js:164 | no contract of its own: the workflow run page, before percent-encoding; GenerateReportUrl receives its encoding |
| Endpoints.GenerateReportUrl | index.js:163-166 | no contract of its own: the generate-report URL template with the fixed execution name; InvGenerate states that the generate request carries it |
| Endpoints.ReportLink | index.js:101-103 | no contract of its own: the report page template; InvFetchReport and RunPredictedLink state that the first link logged is it |
| Endpoints.PredictedReportId | index.js:100-103 | no contract of its own: `parseInt(reports_id[1]) + 1` as text; its meaning is stated by PredictedReportIdMeaning and PredictedReportIdOfDecimal |
| Endpoints.PredictedReportIdMeaning | index.js:100-103 | the predicted id is "NaN" exactly when `reports_id[1]` is missing or does not start with a digit; otherwise its digits denote the parsed id plus one |
| Endpoints.PredictedReportIdOfDecimal | index.js:100-103 | when `reports_id[1]` is the decimal text of `k`, the predicted id is the decimal text of `k + 1` |
| Endpoints.PredictedReportIdExample | index.js:100-103 | the report index `[5, 12]` predicts report id 13 |
| Action.MissingRequiredInput | index.js:22-35 | None exactly when all six required inputs are supplied |
| Action.MissingRequiredInputIsFirst | index.js:22-35 | the input named is the first required input, in the order index.js reads them, that reads as "": every input read before it was supplied; None exactly when every input in that order was supplied |
| Action.ReadOrder | index.js:22-35 | no contract of its own: the required inputs in read order; MissingRequiredInputIsFirst ties MissingRequiredInput to it |
| Action.UploadParts | index.js:137-140 | no contract of its own: the multipart body; its meaning is stated by UploadPartsOnePerFile, and BuildUploadForm proves the loop equal to it |
| Action.UploadPartsOnePerFile | index.js:137-140 | the upload body has one `files[]` part per listed file, in listing order |
| Action.FormData.constructor | index.js:137 | a new form has no parts |
| Action.FormData.Append | index.js:139 | appending adds one part at the end |
| Action.BuildUploadForm | index.js:137-140 | the `forEach` loop builds a fresh form whose parts are UploadParts of the files |
| Action.DerivedOf | index.js:55-166 | no contract of its own: the URLs, the report link and the session computed from the environment alone; InvLogin, InvFetchReport, InvClean, InvUpload and InvGenerate state what each request takes from it |
| Action.StepReadInputs | index.js:22-35 | no contract of its own: the input-reading stage; its preserved invariant is InvReadInputs |
| Action.StepDiscover | index.js:39-44 | no contract of its own: the directory-listing stage; its preserved invariant is InvDiscover |
| Action.StepAuthenticate | index.js:46-90 | no contract of its own: the login stage; its preserved invariants are InvAuthenticate and InvLogin, and LogIn proves the block equal to it |
| Action.StepFetchReport | index.js:92-109 | no contract of its own: the project-fetch stage; its preserved invariant is InvFetchReport, and FetchLatestReportId proves the block equal to it |
| Action.StepCleanResults | index.js:111-132 | no contract of its own: the clean stage; its preserved invariants are InvCleanResults and InvClean, and CleanProjectResults proves the block equal to it |
| Action.StepUpload | index.js:134-158 | no contract of its own: the upload stage; its preserved invariant is InvUpload, and SendProjectResults proves the block equal to it |
| Action.StepGenerateReport | index.js:160-184 | no contract of its own: the generate stage; its preserved invariants are InvGenerateReport and InvGenerate, and GenerateProjectReport proves the block equal to it |
| Action.Final | index.js:21-185 | the chain of the eight stages, each skipped once an earlier one ended the run, always ends; FinalInv states the invariant it satisfies |
| Action.Run | index.js:21-185 | no contract of its own: the trace, links and outcome of the chain; RunTrace and the RunTheorems lemmas state its meaning, and RunAction proves the imperative run equal to it |
| Action.LogIn | index.js:46-90 | the login block: an is-secure value other than "true"/"false" fails; in secure mode a missing username, then a missing password, fail; all of these before any request. Otherwise in secure mode one login request is sent; an ok answer with cookies sets the token and the joined cookies; a not-ok answer, or an ok one without a `set-cookie` header, fails the run. All of this equals StepAuthenticate |
| Action.FetchLatestReportId | index.js:92-109 | the project is fetched with the session cookie; an ok answer logs the predicted link and a not-ok answer fails the run, as StepFetchReport |
| Action.CleanProjectResults | index.js:111-132 | "true" sends the clean request, which fails the run when answered not ok; "false" sends nothing; any other value fails, as StepCleanResults |
| Action.SendProjectResults | index.js:134-158 | the upload carries the URL, token, cookie and form parts; a not-ok answer fails the run, as StepUpload |
| Action.GenerateProjectReport | index.js:160-184 | "true" sends the generate request and logs the server's report URL on ok; "false" sends nothing; any other value fails, as StepGenerateReport |
| Action.RunAction | index.js:21-185 | the imperative run produces exactly the trace, links and outcome of the stage chain `Run(env)` |
| RunProperties.InvReadInputs | index.js:22-35 | reading the inputs either ends the run on the first missing input or keeps it going with nothing sent |
| RunProperties.InvDiscover | index.js:39-44 | a listing failure or an empty listing ends the run with no request; otherwise the listed files are kept for the upload |
| RunProperties.InvAuthenticate | index.js:46-90 | the login block ends the run for a missing username, a missing password, a bad is-secure value, an answer that is not ok or an ok answer without a `set-cookie` header; otherwise it opens the session in secure mode and changes nothing in insecure mode |
| RunProperties.InvLogin | index.js:54-85 | with both credentials, the login request carries the login URL and the credentials, and an ok answer with a `set-cookie` header holds the first CSRF token and the joined cookies |
| RunProperties.InvFetchReport | index.js:92-109 | the fetch request carries the project URL and the session cookie; an ok answer logs the predicted link |
| RunProperties.InvCleanResults | index.js:111-132 | the clean block ends the run for a bad flag or a not-ok answer, and keeps it going otherwise |
| RunProperties.InvClean | index.js:112-127 | with the flag "true", the clean request carries the clean URL and the session cookie |
| RunProperties.InvUpload | index.js:134-158 | the upload request carries the send URL, the session token and cookie, and one part per listed file |
| RunProperties.InvGenerateReport | index.js:160-184 | the generate block ends the run for a bad flag or a not-ok answer, and keeps it going otherwise |
| RunProperties.InvGenerate | index.js:161-179 | with the flag "true", the generate request carries the generate URL and the session headers, and an ok answer logs the report URL |
| RunProperties.InvFinish | index.js:185 | a run that reaches the end succeeds, with what it sent and logged unchanged |
| RunProperties.FinalInv | index.js:21-185 | every run ends, and it satisfies the invariant after all eight stages |
| RunTheorems.RunTrace | index.js:21-185 | every run is described by `Ends`: it ended at one stage, for that stage's cause, after the plan of the earlier stages; the requests that were sent are all accounted for |
| RunTheorems.RunFailFast | index.js:55-184 | a not-ok answer ends the run at once: the failed request is the last one sent and every earlier one was answered ok; any other ending had all its requests answered ok |
| RunTheorems.RunOrder | index.js:46-184 | the requests sent are always a prefix of Login (secure mode), FetchProject, Clean (when asked for), SendResults, Generate (when asked for) |
| RunTheorems.RunGetsPast | index.js:21-185 | the run gets past its first `k` stages if and only if their checks pass and every request they plan is answered ok |
| RunTheorems.RunSuccess | index.js:21-185 | the run succeeds if and only if every check passes and every planned request is answered ok; it then sent the whole plan and logged the predicted link, followed by the server's report URL when generation is on |
| RunTheorems.RunNoFiles | index.js:40-44 | the run ends as a no-op if and only if the inputs are supplied and the directory is empty; it then sends and logs nothing |
| RunTheorems.RunMissingCredentials | index.js:47-53 | in secure mode a missing username, and then a missing password, end the run before any request |
| RunTheorems.RunBadIsSecure | index.js:86-90 | an is-secure value other than "true" and "false" ends the run before any request |
| RunTheorems.RunBadCleanResults | index.js:128-132 | a bad clean-results flag fails only once the login and the project fetch have been sent and the predicted link logged |
| RunTheorems.RunBadGenerate | index.js:180-184 | a bad allure-generate flag fails only after the results were uploaded: the last request is SendResults |
| RunTheorems.RunInsecure | index.js:36-37 | in insecure mode there is no login, every request carries the initial empty cookie, and `csrfAccessToken` stays undefined (None) for the upload and the generate request |
| RunTheorems.RunSecureSession | index.js:55-78 | in secure mode the login is the first request, with the login URL and the credentials; every later request carries the joined login cookies; the upload and the generate request carry the first CSRF token |
| RunTheorems.RunUploadsEveryFile | index.js:137-149 | an upload is only sent once a non-empty listing has been read, and it carries one `files[]` part per listed file, in order |
| RunTheorems.RunPredictedLink | index.js:99-104 | a link is logged if and only if the run got past the project fetch; the first link is the report page of the predicted id |

## Left out

- Reading the inputs, listing the directory, the HTTP calls and logging are I/O. They are parameters of `Env`: the inputs, the listing, the `Server` answers and the CI context. Their results are recorded in the trace and the link list.
- Text of log and error messages: the model keeps which outcome ends the run, not the message. This covers the console lines, the status code and the body in error messages, and the `catch` that passes the message to `core.setFailed` (index.js:187-190).
- `core.getInput` trimming whitespace: the inputs are taken as already read and trimmed, and an input that reads as "" is taken as not supplied. This differs from the source when a required input was supplied as only whitespace: `core.getInput` tests `required` before it trims, so the source goes on with "" (with `is-secure: " "` and an empty directory it exits as a no-op at index.js:41-43), while the model ends with `InputRequired`.
- `new URL(...)` rejecting a malformed server URL: `UrlLibrary.href` is total and gives the normalised text. `encodeURIComponent` is a parameter too.
- A body that is not JSON. For the fetch and generate requests the source parses the body before it tests the status (index.js:98, 171), so a body that is not JSON throws even after an ok status. `Server.fetchOk` and `Server.generateOk` therefore mean an ok status with a JSON body; anything else is the not-ok answer, which fails the run at the same step. For the other requests a body that is not JSON only changes the error message.
- An ok login answer without a `set-cookie` header: the source then throws a TypeError in its loop (index.js:71). The model reads an empty `loginCookies` as that case and counts the login as answered not ok (`Answer`), so the run fails at the login step, as the throw does; only the error message differs.
- An ok project answer without `data.project.reports_id`: the source then throws a TypeError at index.js:100. The model has no such answer: `Server.fetchOk` means an ok status with a JSON body that holds `data.project.reports_id`, and anything else is the not-ok answer, which fails the run at the project fetch, as the throw does.
- Action.GenerateProjectReport: an ok generate answer whose JSON body has no `data` throws a TypeError at index.js:173 in the source. The model has no such answer: `Server.generateOk` means an ok status with a JSON body that holds `data`, and anything else is the not-ok answer, which fails the run at the generate step, as the throw does. A body with `data` but no `report_url` logs `undefined` in the source; the model's `reportUrl` is whatever text the server supplied.
- Numbers.ParseInt: `parseInt` is modelled only for text that starts with its digits. Leading whitespace, a sign, a `0x` prefix and numbers beyond the precision of a JavaScript number are not modelled.
- Concurrency: none exists. The source awaits each request in turn, and the model is sequential.
- Bad flags are rejected lazily. The source checks is-secure, allure-clean-results and allure-generate only when control reaches their block, after the earlier requests have run. The model follows the source (RunTheorems.RunBadCleanResults, RunTheorems.RunBadGenerate).
- DerivedOf: the URLs, the predicted link and the session values are computed once, from the environment, and the chain of stages reads them. The source also computes each of them once, in the block that uses it. Since they are pure, the two agree.
