/** The run of the action (`runAction`, index.js:21-185) as a linear chain
    of stages. Each stage is skipped, succeeds and hands over to the next
    stage, or fails and ends the run. The network is an oracle (`Server`)
    that answers each request ok or not ok, and the outcome of a run is the
    ordered list of requests issued, the report links logged and a
    terminal outcome. */
module Action {

  import opened Wrappers
  import opened Numbers
  import opened Cookies
  import opened Endpoints

  /** The action's inputs as the input-reading facility returns them, that
      is trimmed; an input that reads as "" is taken as not supplied. The
      facility tests `required` before trimming, so a required input that
      was only whitespace passes its test there but fails it here. */
  datatype Config = Config(
    serverUrl: string,
    resultsDirectory: string,
    projectId: string,
    isSecure: string,
    securityUser: string,
    securityPass: string,
    allureGenerate: string,
    allureCleanResults: string)

  /** Library behaviour the model does not define: the text of `new URL(s)`
      and `encodeURIComponent`. */
  datatype UrlLibrary = UrlLibrary(href: string -> string, encodeUriComponent: string -> string)

  /** The report server's answers: whether each request is answered ok, and
      the data read from successful answers. An ok answer is one the source
      goes on from: for the login, an ok status (`loginOk`) with a
      `set-cookie` header, whose values are `loginCookies`; the header
      lists only the cookies present, so an empty list means there was no
      header and the loop of index.js:71 throws; for the project fetch, an
      ok status with a JSON body that holds `data.project.reports_id` (index.js:98-100); for the
      generate request, an ok status with a JSON body that holds `data`
      (index.js:171-173). Any other answer makes the source throw at that
      step, which is the not-ok answer here. */
  datatype Server = Server(
    loginOk: bool,
    loginCookies: seq<string>,
    fetchOk: bool,
    reportsId: seq<string>,
    cleanOk: bool,
    sendOk: bool,
    generateOk: bool,
    reportUrl: string)

  /** Everything a run depends on. `listing` is the directory listing
      (already joined with the directory), None when reading it fails. */
  datatype Env = Env(cfg: Config, lib: UrlLibrary, ci: CiContext, listing: Option<seq<string>>, server: Server)

  /** The `Cookie` header value: the initial empty array `[]`, or the
      joined login cookies. */
  datatype CookieHeader = InitialEmpty | Joined(value: string)

  datatype FormPart = FormPart(field: string, path: string)

  /** The HTTP requests the run can issue, with the headers and body parts
      that matter to the server. */
  datatype Request =
    | LoginRequest(url: string, username: string, password: string)
    | FetchProjectRequest(url: string, cookie: CookieHeader)
    | CleanRequest(url: string, cookie: CookieHeader)
    | SendResultsRequest(url: string, csrfToken: Option<string>, cookie: CookieHeader, parts: seq<FormPart>)
    | GenerateRequest(url: string, csrfToken: Option<string>, cookie: CookieHeader)

  datatype Call = Login | FetchProject | Clean | SendResults | Generate

  function CallOf(r: Request): Call {
    match r
    case LoginRequest(_, _, _) => Login
    case FetchProjectRequest(_, _) => FetchProject
    case CleanRequest(_, _) => Clean
    case SendResultsRequest(_, _, _, _) => SendResults
    case GenerateRequest(_, _, _) => Generate
  }

  /** Whether the server answers the request of this step ok. */
  function Answer(srv: Server, c: Call): bool {
    match c
    case Login => srv.loginOk && srv.loginCookies != []
    case FetchProject => srv.fetchOk
    case Clean => srv.cleanOk
    case SendResults => srv.sendOk
    case Generate => srv.generateOk
  }

  datatype ConfigError =
    | InputRequired(name: string)
    | NoUsername
    | NoPassword
    | BadIsSecure
    | BadCleanResults
    | BadGenerate

  datatype Outcome =
    | NoFiles
    | Success
    | ConfigFailure(error: ConfigError)
    | UpstreamFailure(call: Call)
    | ListingFailure

  datatype RunResult = RunResult(trace: seq<Request>, links: seq<string>, outcome: Outcome)

  /** The first required input, in the order index.js:22-35 reads them,
      that was not supplied. */
  function MissingRequiredInput(cfg: Config): (r: Option<string>)
    ensures r.None? <==> cfg.serverUrl != "" && cfg.resultsDirectory != "" && cfg.projectId != ""
                          && cfg.isSecure != "" && cfg.allureGenerate != "" && cfg.allureCleanResults != ""
  {
    if cfg.serverUrl == "" then Some("allure-server-url")
    else if cfg.resultsDirectory == "" then Some("allure-results-directory")
    else if cfg.projectId == "" then Some("project-id")
    else if cfg.isSecure == "" then Some("is-secure")
    else if cfg.allureGenerate == "" then Some("allure-generate")
    else if cfg.allureCleanResults == "" then Some("allure-clean-results")
    else None
  }

  /** The required inputs with their values, in the order index.js:22-35
      reads them. */
  function ReadOrder(cfg: Config): seq<(string, string)> {
    [("allure-server-url", cfg.serverUrl), ("allure-results-directory", cfg.resultsDirectory),
     ("project-id", cfg.projectId), ("is-secure", cfg.isSecure),
     ("allure-generate", cfg.allureGenerate), ("allure-clean-results", cfg.allureCleanResults)]
  }

  /** The input the run reports is the first one, in read order, that was
      not supplied. */
  lemma MissingRequiredInputIsFirst(cfg: Config)
    ensures MissingRequiredInput(cfg).None? <==> forall j :: 0 <= j < |ReadOrder(cfg)| ==> ReadOrder(cfg)[j].1 != ""
    ensures MissingRequiredInput(cfg).Some? ==>
      exists k :: 0 <= k < |ReadOrder(cfg)| && ReadOrder(cfg)[k] == (MissingRequiredInput(cfg).value, "")
                  && forall j :: 0 <= j < k ==> ReadOrder(cfg)[j].1 != ""
  {
    var order := ReadOrder(cfg);
    if cfg.serverUrl == "" {
      assert order[0] == ("allure-server-url", "");
    } else if cfg.resultsDirectory == "" {
      assert order[1] == ("allure-results-directory", "");
    } else if cfg.projectId == "" {
      assert order[2] == ("project-id", "");
    } else if cfg.isSecure == "" {
      assert order[3] == ("is-secure", "");
    } else if cfg.allureGenerate == "" {
      assert order[4] == ("allure-generate", "");
    } else if cfg.allureCleanResults == "" {
      assert order[5] == ("allure-clean-results", "");
    }
  }

  const FilesField: string := "files[]"

  /** The multipart body of the upload: one `files[]` part per file. */
  function UploadParts(files: seq<string>): seq<FormPart>
    decreases |files|
  {
    if files == [] then [] else [FormPart(FilesField, files[0])] + UploadParts(files[1..])
  }

  lemma {:induction false} UploadPartsOnePerFile(files: seq<string>)
    ensures |UploadParts(files)| == |files|
    ensures forall k :: 0 <= k < |files| ==> UploadParts(files)[k] == FormPart(FilesField, files[k])
    decreases |files|
  {
    if files != [] {
      UploadPartsOnePerFile(files[1..]);
      forall k | 0 <= k < |files| ensures UploadParts(files)[k] == FormPart(FilesField, files[k]) {
        if k > 0 { assert files[k] == files[1..][k - 1]; }
      }
    }
  }

  /** The `form-data` object the upload is built in. */
  class FormData {
    var parts: seq<FormPart>

    constructor ()
      ensures parts == []
    {
      parts := [];
    }

    method Append(field: string, path: string)
      modifies this
      ensures parts == old(parts) + [FormPart(field, path)]
    {
      parts := parts + [FormPart(field, path)];
    }
  }

  /** The `files.forEach` of index.js:137-140. */
  method BuildUploadForm(files: seq<string>) returns (form: FormData)
    ensures fresh(form)
    ensures form.parts == UploadParts(files)
  {
    form := new FormData();
    var i := 0;
    while i < |files|
      invariant 0 <= i <= |files|
      invariant |form.parts| == i
      invariant forall k :: 0 <= k < i ==> form.parts[k] == FormPart(FilesField, files[k])
    {
      form.Append(FilesField, files[i]);
      i := i + 1;
    }
    UploadPartsOnePerFile(files);
  }

  // ---------------------------------------------------------------------
  // The run as a state machine

  /** The run's state between stages: the files, `csrfAccessToken`,
      `cookies`, what has been sent and logged, and the outcome once the
      run has ended. */
  datatype Machine = Machine(
    files: seq<string>,
    csrfToken: Option<string>,
    cookie: CookieHeader,
    trace: seq<Request>,
    links: seq<string>,
    halted: Option<Outcome>)

  const Initial: Machine := Machine([], None, InitialEmpty, [], [], None)

  function Halt(m: Machine, o: Outcome): Machine {
    m.(halted := Some(o))
  }

  function Issue(m: Machine, r: Request): Machine {
    m.(trace := m.trace + [r])
  }

  /** What the run computes from its environment alone: the URL of each
      request (index.js:56, 93, 114, 136, 166), the report link of
      index.js:101-103, and the session an ok login sets up
      (index.js:69-78). `Final` hands each stage the values it uses. */
  datatype Derived = Derived(
    loginUrl: string,
    projectUrl: string,
    cleanUrl: string,
    sendUrl: string,
    generateUrl: string,
    reportLink: string,
    sessionToken: Option<string>,
    sessionCookie: CookieHeader)

  function DerivedOf(env: Env): Derived {
    var cfg, srv, base := env.cfg, env.server, env.lib.href(env.cfg.serverUrl);
    Derived(
      LoginUrl(base),
      ProjectUrl(base, cfg.projectId),
      CleanResultsUrl(base, cfg.projectId),
      SendResultsUrl(base, cfg.projectId),
      GenerateReportUrl(base, cfg.projectId, env.lib.encodeUriComponent(ExecutionFrom(env.ci))),
      ReportLink(base, cfg.projectId, PredictedReportId(srv.reportsId)),
      FirstCsrfToken(srv.loginCookies),
      Joined(Join(srv.loginCookies, "; ")))
  }

  /** Reading the inputs, index.js:22-35: the first required input that is
      empty ends the run. */
  function StepReadInputs(env: Env, m: Machine): Machine {
    match MissingRequiredInput(env.cfg)
    case Some(name) => Halt(m, ConfigFailure(InputRequired(name)))
    case None => m
  }

  /** Listing the results directory, index.js:39-44: a failed listing or an
      empty one ends the run before any request. */
  function StepDiscover(env: Env, m: Machine): Machine {
    match env.listing
    case None => Halt(m, ListingFailure)
    case Some(fs) => if fs == [] then Halt(m.(files := fs), NoFiles) else m.(files := fs)
  }

  /** The "Login if needed" block, index.js:46-90. */
  function StepAuthenticate(env: Env, loginUrl: string, sessionToken: Option<string>, sessionCookie: CookieHeader,
                            m: Machine): Machine {
    var cfg, srv := env.cfg, env.server;
    if cfg.isSecure == "true" then
      if cfg.securityUser == "" then Halt(m, ConfigFailure(NoUsername))
      else if cfg.securityPass == "" then Halt(m, ConfigFailure(NoPassword))
      else
        var m' := Issue(m, LoginRequest(loginUrl, cfg.securityUser, cfg.securityPass));
        if srv.loginOk && srv.loginCookies != [] then m'.(csrfToken := sessionToken, cookie := sessionCookie)
        else Halt(m', UpstreamFailure(Login))
    else if cfg.isSecure == "false" then m
    else Halt(m, ConfigFailure(BadIsSecure))
  }

  /** The "Fetch latest report ID" block, index.js:92-109. */
  function StepFetchReport(env: Env, projectUrl: string, reportLink: string, m: Machine): Machine {
    var m' := Issue(m, FetchProjectRequest(projectUrl, m.cookie));
    if env.server.fetchOk then m'.(links := m'.links + [reportLink])
    else Halt(m', UpstreamFailure(FetchProject))
  }

  /** The "Clean results" block, index.js:111-132. */
  function StepCleanResults(env: Env, cleanUrl: string, m: Machine): Machine {
    var cfg, srv := env.cfg, env.server;
    if cfg.allureCleanResults == "true" then
      var m' := Issue(m, CleanRequest(cleanUrl, m.cookie));
      if srv.cleanOk then m' else Halt(m', UpstreamFailure(Clean))
    else if cfg.allureCleanResults == "false" then m
    else Halt(m, ConfigFailure(BadCleanResults))
  }

  /** The "Send results" block, index.js:134-158. */
  function StepUpload(env: Env, sendUrl: string, m: Machine): Machine {
    var m' := Issue(m, SendResultsRequest(sendUrl, m.csrfToken, m.cookie, UploadParts(m.files)));
    if env.server.sendOk then m' else Halt(m', UpstreamFailure(SendResults))
  }

  /** The "allure-generate" block, index.js:160-184. */
  function StepGenerateReport(env: Env, generateUrl: string, m: Machine): Machine {
    var cfg, srv := env.cfg, env.server;
    if cfg.allureGenerate == "true" then
      var m' := Issue(m, GenerateRequest(generateUrl, m.csrfToken, m.cookie));
      if srv.generateOk then m'.(links := m'.links + [srv.reportUrl])
      else Halt(m', UpstreamFailure(Generate))
    else if cfg.allureGenerate == "false" then m
    else Halt(m, ConfigFailure(BadGenerate))
  }

  /** The machine after a stage: `next` when the run is still going,
      otherwise `m` itself, since an early return skips every later stage. */
  function Continue(m: Machine, next: Machine): Machine {
    if m.halted.Some? then m else next
  }

  /** The machine when the chain has ended, after all eight stages. */
  function Final(env: Env): (r: Machine)
    ensures r.halted.Some?
  {
    var d := DerivedOf(env);
    var m1 := StepReadInputs(env, Initial);
    var m2 := Continue(m1, StepDiscover(env, m1));
    var m3 := Continue(m2, StepAuthenticate(env, d.loginUrl, d.sessionToken, d.sessionCookie, m2));
    var m4 := Continue(m3, StepFetchReport(env, d.projectUrl, d.reportLink, m3));
    var m5 := Continue(m4, StepCleanResults(env, d.cleanUrl, m4));
    var m6 := Continue(m5, StepUpload(env, d.sendUrl, m5));
    var m7 := Continue(m6, StepGenerateReport(env, d.generateUrl, m6));
    Continue(m7, Halt(m7, Success))
  }

  /** The specification of a whole run. */
  function Run(env: Env): RunResult {
    var m := Final(env);
    RunResult(m.trace, m.links, m.halted.value)
  }

  // ---------------------------------------------------------------------
  // The run as the source writes it

  /** The machine the run holds when it reaches a stage without having ended. */
  function At(files: seq<string>, token: Option<string>, cookies: CookieHeader,
              trace: seq<Request>, links: seq<string>): Machine {
    Machine(files, token, cookies, trace, links, None)
  }

  /** The "Login if needed" block, index.js:46-90. */
  method LogIn(env: Env, ghost files: seq<string>)
    returns (trace: seq<Request>, csrfAccessToken: Option<string>, cookies: CookieHeader, failed: Option<Outcome>)
    ensures var loginCookies := env.server.loginCookies;
      var m' := StepAuthenticate(env, LoginUrl(env.lib.href(env.cfg.serverUrl)), FirstCsrfToken(loginCookies),
                                 Joined(Join(loginCookies, "; ")), At(files, None, InitialEmpty, [], []));
      trace == m'.trace && csrfAccessToken == m'.csrfToken && cookies == m'.cookie && failed == m'.halted
  {
    var cfg, srv := env.cfg, env.server;
    trace, csrfAccessToken, cookies, failed := [], None, InitialEmpty, None;
    if cfg.isSecure == "true" {
      if cfg.securityUser == "" {
        failed := Some(ConfigFailure(NoUsername));
        return;
      }
      if cfg.securityPass == "" {
        failed := Some(ConfigFailure(NoPassword));
        return;
      }
      trace := [LoginRequest(LoginUrl(env.lib.href(cfg.serverUrl)), cfg.securityUser, cfg.securityPass)];
      if srv.loginOk {
        if srv.loginCookies == [] {
          // No `set-cookie` header: the loop over `undefined` throws.
          failed := Some(UpstreamFailure(Login));
          return;
        }
        csrfAccessToken := ExtractCsrfToken(srv.loginCookies);
        cookies := Joined(Join(srv.loginCookies, "; "));
      } else {
        failed := Some(UpstreamFailure(Login));
      }
    } else if cfg.isSecure == "false" {
    } else {
      failed := Some(ConfigFailure(BadIsSecure));
    }
  }

  /** The "Fetch latest report ID" block, index.js:92-109. */
  method FetchLatestReportId(env: Env, ghost files: seq<string>, ghost csrfAccessToken: Option<string>, cookies: CookieHeader,
                           trace0: seq<Request>, links0: seq<string>)
    returns (trace: seq<Request>, links: seq<string>, failed: Option<Outcome>)
    ensures var base := env.lib.href(env.cfg.serverUrl);
      var link := ReportLink(base, env.cfg.projectId, PredictedReportId(env.server.reportsId));
      var m' := StepFetchReport(env, ProjectUrl(base, env.cfg.projectId), link,
                                At(files, csrfAccessToken, cookies, trace0, links0));
      trace == m'.trace && links == m'.links && failed == m'.halted
  {
    var cfg, srv, base := env.cfg, env.server, env.lib.href(env.cfg.serverUrl);
    var latestReportUrl := ProjectUrl(base, cfg.projectId);
    trace, links, failed := trace0 + [FetchProjectRequest(latestReportUrl, cookies)], links0, None;
    if srv.fetchOk {
      var reportLink := ReportLink(base, cfg.projectId, PredictedReportId(srv.reportsId));
      links := links + [reportLink];
    } else {
      failed := Some(UpstreamFailure(FetchProject));
    }
  }

  /** The "Clean results" block, index.js:111-132. */
  method CleanProjectResults(env: Env, ghost files: seq<string>, ghost csrfAccessToken: Option<string>,
                             cookies: CookieHeader, trace0: seq<Request>, ghost links: seq<string>)
    returns (trace: seq<Request>, failed: Option<Outcome>)
    ensures var url := CleanResultsUrl(env.lib.href(env.cfg.serverUrl), env.cfg.projectId);
      var m' := StepCleanResults(env, url, At(files, csrfAccessToken, cookies, trace0, links));
      trace == m'.trace && links == m'.links && failed == m'.halted
  {
    var cfg, srv, base := env.cfg, env.server, env.lib.href(env.cfg.serverUrl);
    trace, failed := trace0, None;
    if cfg.allureCleanResults == "true" {
      trace := trace + [CleanRequest(CleanResultsUrl(base, cfg.projectId), cookies)];
      if !srv.cleanOk {
        failed := Some(UpstreamFailure(Clean));
      }
    } else if cfg.allureCleanResults == "false" {
    } else {
      failed := Some(ConfigFailure(BadCleanResults));
    }
  }

  /** The "Send results" block, index.js:134-158. */
  method SendProjectResults(env: Env, files: seq<string>, csrfAccessToken: Option<string>, cookies: CookieHeader,
                            trace0: seq<Request>, ghost links: seq<string>)
    returns (trace: seq<Request>, failed: Option<Outcome>)
    ensures var url := SendResultsUrl(env.lib.href(env.cfg.serverUrl), env.cfg.projectId);
      var m' := StepUpload(env, url, At(files, csrfAccessToken, cookies, trace0, links));
      trace == m'.trace && links == m'.links && failed == m'.halted
  {
    var cfg, srv, base := env.cfg, env.server, env.lib.href(env.cfg.serverUrl);
    var sendResultsUrl := SendResultsUrl(base, cfg.projectId);
    var formData := BuildUploadForm(files);
    trace, failed := trace0 + [SendResultsRequest(sendResultsUrl, csrfAccessToken, cookies, formData.parts)], None;
    if !srv.sendOk {
      failed := Some(UpstreamFailure(SendResults));
    }
  }

  /** The "allure-generate" block, index.js:160-184. */
  method GenerateProjectReport(env: Env, ghost files: seq<string>, csrfAccessToken: Option<string>, cookies: CookieHeader,
                        trace0: seq<Request>, links0: seq<string>)
    returns (trace: seq<Request>, links: seq<string>, failed: Option<Outcome>)
    ensures var url := GenerateReportUrl(env.lib.href(env.cfg.serverUrl), env.cfg.projectId,
                                         env.lib.encodeUriComponent(ExecutionFrom(env.ci)));
      var m' := StepGenerateReport(env, url, At(files, csrfAccessToken, cookies, trace0, links0));
      trace == m'.trace && links == m'.links && failed == m'.halted
  {
    var cfg, srv := env.cfg, env.server;
    trace, links, failed := trace0, links0, None;
    if cfg.allureGenerate == "true" {
      var executionFromEncoded := env.lib.encodeUriComponent(ExecutionFrom(env.ci));
      var generateUrl := GenerateReportUrl(env.lib.href(cfg.serverUrl), cfg.projectId, executionFromEncoded);
      trace := trace + [GenerateRequest(generateUrl, csrfAccessToken, cookies)];
      if srv.generateOk {
        links := links + [srv.reportUrl];
      } else {
        failed := Some(UpstreamFailure(Generate));
      }
    } else if cfg.allureGenerate == "false" {
    } else {
      failed := Some(ConfigFailure(BadGenerate));
    }
  }

  /** `runAction`: read the inputs, list the files, then run the blocks in
      order and stop at the first that fails. The ghost machine `m`
      follows the locals from stage to stage. */
  method RunAction(env: Env) returns (trace: seq<Request>, links: seq<string>, outcome: Outcome)
    ensures RunResult(trace, links, outcome) == Run(env)
  {
    trace, links := [], [];
    ghost var d := DerivedOf(env);
    ghost var m := Initial;

    var missing := MissingRequiredInput(env.cfg);
    if missing.Some? {
      outcome := ConfigFailure(InputRequired(missing.value));
      return;
    }
    m := StepReadInputs(env, m);

    // Get all the files
    if env.listing.None? {
      outcome := ListingFailure;
      return;
    }
    var files := env.listing.value;
    if |files| == 0 {
      outcome := NoFiles;
      return;
    }
    m := Continue(m, StepDiscover(env, m));
    assert m == At(files, None, InitialEmpty, [], []);

    var csrfAccessToken, cookies, failed;
    trace, csrfAccessToken, cookies, failed := LogIn(env, files);
    if failed.Some? {
      outcome := failed.value;
      return;
    }
    m := Continue(m, StepAuthenticate(env, d.loginUrl, d.sessionToken, d.sessionCookie, m));
    assert m == At(files, csrfAccessToken, cookies, trace, links);

    trace, links, failed := FetchLatestReportId(env, files, csrfAccessToken, cookies, trace, links);
    if failed.Some? {
      outcome := failed.value;
      return;
    }
    m := Continue(m, StepFetchReport(env, d.projectUrl, d.reportLink, m));
    assert m == At(files, csrfAccessToken, cookies, trace, links);

    trace, failed := CleanProjectResults(env, files, csrfAccessToken, cookies, trace, links);
    if failed.Some? {
      outcome := failed.value;
      return;
    }
    m := Continue(m, StepCleanResults(env, d.cleanUrl, m));
    assert m == At(files, csrfAccessToken, cookies, trace, links);

    trace, failed := SendProjectResults(env, files, csrfAccessToken, cookies, trace, links);
    if failed.Some? {
      outcome := failed.value;
      return;
    }
    m := Continue(m, StepUpload(env, d.sendUrl, m));
    assert m == At(files, csrfAccessToken, cookies, trace, links);

    trace, links, failed := GenerateProjectReport(env, files, csrfAccessToken, cookies, trace, links);
    if failed.Some? {
      outcome := failed.value;
      return;
    }
    outcome := Success;
  }
}
