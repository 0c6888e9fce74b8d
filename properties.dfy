/** What a run promises, proved about the stage chain `Action.Run`. */
module RunProperties {

  import opened Wrappers
  import opened Cookies
  import opened Endpoints
  import opened Action

  /** The kinds of the requests in `trace`, in order. */
  function Calls(trace: seq<Request>): (r: seq<Call>)
    ensures |r| == |trace|
    decreases |trace|
  {
    if trace == [] then [] else Calls(trace[..|trace| - 1]) + [CallOf(trace[|trace| - 1])]
  }

  /** Every request in `trace` is answered ok. */
  predicate AllOk(srv: Server, trace: seq<Request>) {
    forall i :: 0 <= i < |trace| ==> Answer(srv, CallOf(trace[i]))
  }

  /** The stages of the chain `Action.Final`, in the order they run. */
  datatype Stage = ReadInputs | Discover | Authenticate | FetchReport | CleanResults | Upload | GenerateReport | Finish

  function Rank(st: Stage): nat {
    match st
    case ReadInputs => 0
    case Discover => 1
    case Authenticate => 2
    case FetchReport => 3
    case CleanResults => 4
    case Upload => 5
    case GenerateReport => 6
    case Finish => 7
  }

  function StageAt(k: nat): Stage {
    if k == 0 then ReadInputs
    else if k == 1 then Discover
    else if k == 2 then Authenticate
    else if k == 3 then FetchReport
    else if k == 4 then CleanResults
    else if k == 5 then Upload
    else if k == 6 then GenerateReport
    else Finish
  }

  /** The stage that ends a run with outcome `o`: every outcome has exactly one. */
  function EndsAt(o: Outcome): Stage {
    match o
    case NoFiles => Discover
    case ListingFailure => Discover
    case Success => Finish
    case ConfigFailure(e) =>
      (match e
       case InputRequired(_) => ReadInputs
       case NoUsername => Authenticate
       case NoPassword => Authenticate
       case BadIsSecure => Authenticate
       case BadCleanResults => CleanResults
       case BadGenerate => GenerateReport)
    case UpstreamFailure(c) =>
      (match c
       case Login => Authenticate
       case FetchProject => FetchReport
       case Clean => CleanResults
       case SendResults => Upload
       case Generate => GenerateReport)
  }

  /** The request whose not-ok answer ended the run, if one did. */
  function FailedCall(o: Outcome): seq<Call> {
    if o.UpstreamFailure? then [o.call] else []
  }

  /** The request a stage issues when it runs and the flags ask for it. */
  function StagePlan(cfg: Config, st: Stage): seq<Call> {
    match st
    case Authenticate => if cfg.isSecure == "true" then [Login] else []
    case FetchReport => [FetchProject]
    case CleanResults => if cfg.allureCleanResults == "true" then [Clean] else []
    case Upload => [SendResults]
    case GenerateReport => if cfg.allureGenerate == "true" then [Generate] else []
    case _ => []
  }

  /** The requests of the first `k` stages when none of them ends the run. */
  function PlanUpTo(cfg: Config, k: nat): seq<Call> {
    (if k > Rank(Authenticate) then StagePlan(cfg, Authenticate) else [])
      + (if k > Rank(FetchReport) then [FetchProject] else [])
      + (if k > Rank(CleanResults) then StagePlan(cfg, CleanResults) else [])
      + (if k > Rank(Upload) then [SendResults] else [])
      + (if k > Rank(GenerateReport) then StagePlan(cfg, GenerateReport) else [])
  }

  /** The requests of a run in which nothing fails, in order: Login only in
      secure mode, Clean and Generate only when their flags are "true". */
  function Planned(cfg: Config): seq<Call> {
    (if cfg.isSecure == "true" then [Login] else []) + [FetchProject]
      + (if cfg.allureCleanResults == "true" then [Clean] else []) + [SendResults]
      + (if cfg.allureGenerate == "true" then [Generate] else [])
  }

  /** The links the first `k` stages log when none of them ends the run. */
  function LinksUpTo(env: Env, d: Derived, k: nat): seq<string> {
    (if k > Rank(FetchReport) then [d.reportLink] else [])
      + (if k > Rank(GenerateReport) && env.cfg.allureGenerate == "true" then [env.server.reportUrl] else [])
  }

  /** Secure mode is off, or on with both credentials supplied. */
  predicate SecureOk(cfg: Config) {
    cfg.isSecure == "false" || (cfg.isSecure == "true" && cfg.securityUser != "" && cfg.securityPass != "")
  }

  predicate IsFlag(s: string) {
    s == "true" || s == "false"
  }

  /** The run reads its inputs and lists a non-empty directory. */
  predicate HasFiles(env: Env) {
    MissingRequiredInput(env.cfg).None? && env.listing.Some? && env.listing.value != []
  }

  /** What a run that has passed its first `k` stages has checked. */
  predicate Reached(env: Env, k: nat) {
    && (k > Rank(ReadInputs) ==> MissingRequiredInput(env.cfg).None?)
    && (k > Rank(Discover) ==> HasFiles(env))
    && (k > Rank(Authenticate) ==> SecureOk(env.cfg))
    && (k > Rank(CleanResults) ==> IsFlag(env.cfg.allureCleanResults))
    && (k > Rank(GenerateReport) ==> IsFlag(env.cfg.allureGenerate))
  }

  /** Why a run ends with `o`: it passed the stages before the one that
      produced `o`, and that stage found the condition that produces it. */
  predicate Cause(env: Env, o: Outcome) {
    var cfg := env.cfg;
    Reached(env, Rank(EndsAt(o))) &&
    match o
    case NoFiles => env.listing == Some([])
    case ListingFailure => env.listing.None?
    case Success => true
    case ConfigFailure(e) =>
      (match e
       case InputRequired(n) => MissingRequiredInput(cfg) == Some(n)
       case NoUsername => cfg.isSecure == "true" && cfg.securityUser == ""
       case NoPassword => cfg.isSecure == "true" && cfg.securityUser != "" && cfg.securityPass == ""
       case BadIsSecure => !IsFlag(cfg.isSecure)
       case BadCleanResults => !IsFlag(cfg.allureCleanResults)
       case BadGenerate => !IsFlag(cfg.allureGenerate))
    case UpstreamFailure(c) => c == Login ==> SecureOk(cfg)
  }

  /** The files the run lists, once it has listed them. */
  function Files(env: Env): seq<string> {
    if env.listing.Some? then env.listing.value else []
  }

  /** The `Cookie` header after Authenticate: the joined login cookies in
      secure mode, the initial empty array otherwise. */
  function SessionCookie(env: Env, d: Derived): CookieHeader {
    if env.cfg.isSecure == "true" then d.sessionCookie else InitialEmpty
  }

  /** `csrfAccessToken`, the value of the `X-CSRF-TOKEN` header, after
      Authenticate: the token of the login cookies in secure mode, undefined
      (None) otherwise. */
  function SessionToken(env: Env, d: Derived): Option<string> {
    if env.cfg.isSecure == "true" then d.sessionToken else None
  }

  /** A request carries the URL, credentials, session headers and files the
      run sends with a request of its kind. */
  predicate Carries(env: Env, d: Derived, r: Request) {
    match r
    case LoginRequest(url, user, pass) =>
      url == d.loginUrl && user == env.cfg.securityUser && pass == env.cfg.securityPass
    case FetchProjectRequest(url, cookie) =>
      url == d.projectUrl && cookie == SessionCookie(env, d)
    case CleanRequest(url, cookie) =>
      url == d.cleanUrl && cookie == SessionCookie(env, d)
    case SendResultsRequest(url, token, cookie, parts) =>
      url == d.sendUrl && token == SessionToken(env, d) && cookie == SessionCookie(env, d)
      && parts == UploadParts(Files(env))
    case GenerateRequest(url, token, cookie) =>
      url == d.generateUrl && token == SessionToken(env, d) && cookie == SessionCookie(env, d)
  }

  predicate AllCarry(env: Env, d: Derived, trace: seq<Request>) {
    forall i :: 0 <= i < |trace| ==> Carries(env, d, trace[i])
  }

  /** The locals after the first `k` stages: the listed files after
      Discover, the session headers after Authenticate. */
  predicate Session(env: Env, d: Derived, m: Machine, k: nat) {
    && m.files == (if k > Rank(Discover) then Files(env) else [])
    && m.csrfToken == (if k > Rank(Authenticate) then SessionToken(env, d) else None)
    && m.cookie == (if k > Rank(Authenticate) then SessionCookie(env, d) else InitialEmpty)
  }

  /** What holds after the first `k` stages: a run still going has passed
      their checks, holds their session, and has issued and logged exactly
      what they plan, all answered ok; a run that ended did so at an earlier
      stage, for its cause, after the plan of the stages before that one
      and, for a not-ok answer, the one request that failed. Every request
      carries what its kind is sent with. */
  predicate Inv(env: Env, d: Derived, m: Machine, k: nat) {
    if m.halted.None? then Running(env, d, m, k) else Ended(env, d, m, m.halted.value, k)
  }

  predicate Running(env: Env, d: Derived, m: Machine, k: nat) {
    && Reached(env, k) && Session(env, d, m, k)
    && Calls(m.trace) == PlanUpTo(env.cfg, k) && m.links == LinksUpTo(env, d, k)
    && AllOk(env.server, m.trace) && AllCarry(env, d, m.trace)
  }

  predicate Ended(env: Env, d: Derived, m: Machine, o: Outcome, k: nat) {
    var j := Rank(EndsAt(o));
    && j < k
    && Cause(env, o)
    && Calls(m.trace) == PlanUpTo(env.cfg, j) + FailedCall(o)
    && m.links == LinksUpTo(env, d, j)
    && AllCarry(env, d, m.trace)
    && (o.UpstreamFailure? ==>
          StagePlan(env.cfg, EndsAt(o)) == [o.call] && !Answer(env.server, o.call)
          && AllOk(env.server, m.trace[..|m.trace| - 1]))
    && (!o.UpstreamFailure? ==> AllOk(env.server, m.trace))
  }

  lemma CallsSnoc(trace: seq<Request>, r: Request)
    ensures Calls(trace + [r]) == Calls(trace) + [CallOf(r)]
  {
    assert (trace + [r])[..|trace|] == trace;
  }

  lemma {:induction false} CallsIndex(trace: seq<Request>)
    ensures forall i :: 0 <= i < |trace| ==> Calls(trace)[i] == CallOf(trace[i])
    decreases |trace|
  {
    if trace != [] {
      CallsIndex(trace[..|trace| - 1]);
    }
  }

  /** Running one more stage adds that stage's planned request. */
  lemma PlanUpToNext(cfg: Config, k: nat)
    ensures PlanUpTo(cfg, k + 1) == PlanUpTo(cfg, k) + StagePlan(cfg, StageAt(k))
  {
    if k < 2 {
    } else if k == 2 {
    } else if k == 3 {
    } else if k == 4 {
    } else if k == 5 {
    } else if k == 6 {
    } else {
      assert StagePlan(cfg, StageAt(k)) == [];
    }
  }

  /** A run that has ended stays as it is through the remaining stages. */
  lemma HaltedInv(env: Env, d: Derived, m: Machine, k: nat)
    requires m.halted.Some? && Inv(env, d, m, k)
    ensures Inv(env, d, m, k + 1)
  {
  }

  /** A stage that issues its planned request extends the invariant. */
  lemma IssuedInv(env: Env, d: Derived, st: Stage, m: Machine, r: Machine, k: nat, req: Request)
    requires k == Rank(st) && StageAt(k) == st && m.halted.None? && Running(env, d, m, k)
    requires r.trace == m.trace + [req] && StagePlan(env.cfg, st) == [CallOf(req)] && Carries(env, d, req)
    requires r.halted.None? ==> Answer(env.server, CallOf(req)) && r.links == LinksUpTo(env, d, k + 1)
                                && Reached(env, k + 1) && Session(env, d, r, k + 1)
    requires r.halted.Some? ==> r.halted == Some(UpstreamFailure(CallOf(req))) && EndsAt(r.halted.value) == st
                                && !Answer(env.server, CallOf(req)) && r.links == LinksUpTo(env, d, k)
                                && Cause(env, r.halted.value)
    ensures Inv(env, d, r, k + 1)
  {
    CallsSnoc(m.trace, req);
    PlanUpToNext(env.cfg, k);
    assert r.trace[..|r.trace| - 1] == m.trace;
  }

  /** A stage that passes its check without a request extends the invariant. */
  lemma PassedInv(env: Env, d: Derived, m: Machine, r: Machine, k: nat)
    requires m.halted.None? && Running(env, d, m, k)
    requires r.halted.None? && r.trace == m.trace && r.links == m.links
    requires StagePlan(env.cfg, StageAt(k)) == [] && LinksUpTo(env, d, k + 1) == LinksUpTo(env, d, k)
    requires Reached(env, k + 1) && Session(env, d, r, k + 1)
    ensures Inv(env, d, r, k + 1)
  {
    PlanUpToNext(env.cfg, k);
  }

  /** A stage that ends the run without a request extends the invariant. */
  lemma RefusedInv(env: Env, d: Derived, m: Machine, r: Machine, k: nat, o: Outcome)
    requires m.halted.None? && Running(env, d, m, k)
    requires r.trace == m.trace && r.links == m.links && r.halted == Some(o)
    requires Rank(EndsAt(o)) == k && !o.UpstreamFailure? && Cause(env, o)
    ensures Inv(env, d, r, k + 1)
  {
  }

  /** A stage that is skipped, or that extends the invariant when it runs,
      extends it in the chain. */
  lemma ContinueInv(env: Env, d: Derived, m: Machine, next: Machine, k: nat)
    requires Inv(env, d, m, k)
    requires m.halted.None? ==> Inv(env, d, next, k + 1)
    ensures Inv(env, d, Continue(m, next), k + 1)
  {
    if m.halted.Some? {
      HaltedInv(env, d, m, k);
    }
  }

  lemma InvReadInputs(env: Env, d: Derived)
    ensures Inv(env, d, StepReadInputs(env, Initial), 1)
  {
  }

  lemma InvDiscover(env: Env, d: Derived, m: Machine)
    requires m.halted.None? && Running(env, d, m, 1)
    ensures Inv(env, d, StepDiscover(env, m), 2)
  {
    var r := StepDiscover(env, m);
    PlanUpToNext(env.cfg, 1);
    if env.listing.None? {
      RefusedInv(env, d, m, r, 1, ListingFailure);
    } else if env.listing.value == [] {
      RefusedInv(env, d, m, r, 1, NoFiles);
    } else {
      assert r == m.(files := env.listing.value);
      PassedInv(env, d, m, r, 1);
    }
  }

  /** In secure mode with both credentials, the login request is the one
      Authenticate plans, and an ok answer opens the session. */
  lemma InvLogin(env: Env, d: Derived, m: Machine)
    requires m.halted.None? && Running(env, d, m, 2)
    requires env.cfg.isSecure == "true" && env.cfg.securityUser != "" && env.cfg.securityPass != ""
    ensures Inv(env, d, StepAuthenticate(env, d.loginUrl, d.sessionToken, d.sessionCookie, m), 3)
  {
    var cfg := env.cfg;
    PlanUpToNext(cfg, 2);
    var req := LoginRequest(d.loginUrl, cfg.securityUser, cfg.securityPass);
    var r := StepAuthenticate(env, d.loginUrl, d.sessionToken, d.sessionCookie, m);
    if Answer(env.server, Login) {
      assert r == Issue(m, req).(csrfToken := d.sessionToken, cookie := d.sessionCookie);
    } else {
      assert r == Halt(Issue(m, req), UpstreamFailure(Login));
    }
    IssuedInv(env, d, Authenticate, m, r, 2, req);
  }

  lemma InvAuthenticate(env: Env, d: Derived, m: Machine)
    requires m.halted.None? && Running(env, d, m, 2)
    ensures Inv(env, d, StepAuthenticate(env, d.loginUrl, d.sessionToken, d.sessionCookie, m), 3)
  {
    var cfg := env.cfg;
    var r := StepAuthenticate(env, d.loginUrl, d.sessionToken, d.sessionCookie, m);
    if cfg.isSecure == "true" && cfg.securityUser == "" {
      RefusedInv(env, d, m, r, 2, ConfigFailure(NoUsername));
    } else if cfg.isSecure == "true" && cfg.securityPass == "" {
      RefusedInv(env, d, m, r, 2, ConfigFailure(NoPassword));
    } else if cfg.isSecure == "true" {
      InvLogin(env, d, m);
    } else if cfg.isSecure == "false" {
      PlanUpToNext(cfg, 2);
      PassedInv(env, d, m, r, 2);
    } else {
      RefusedInv(env, d, m, r, 2, ConfigFailure(BadIsSecure));
    }
  }

  lemma InvFetchReport(env: Env, d: Derived, m: Machine)
    requires m.halted.None? && Running(env, d, m, 3)
    ensures Inv(env, d, StepFetchReport(env, d.projectUrl, d.reportLink, m), 4)
  {
    var req := FetchProjectRequest(d.projectUrl, m.cookie);
    var r := StepFetchReport(env, d.projectUrl, d.reportLink, m);
    assert m.links == [];
    assert LinksUpTo(env, d, 4) == [d.reportLink];
    if env.server.fetchOk {
      assert r == Issue(m, req).(links := [d.reportLink]);
    } else {
      assert r == Halt(Issue(m, req), UpstreamFailure(FetchProject));
    }
    IssuedInv(env, d, FetchReport, m, r, 3, req);
  }

  /** With allure-clean-results "true", the clean request is the one the
      stage plans. */
  lemma InvClean(env: Env, d: Derived, m: Machine)
    requires m.halted.None? && Running(env, d, m, 4) && env.cfg.allureCleanResults == "true"
    ensures Inv(env, d, StepCleanResults(env, d.cleanUrl, m), 5)
  {
    PlanUpToNext(env.cfg, 4);
    var req := CleanRequest(d.cleanUrl, m.cookie);
    var r := StepCleanResults(env, d.cleanUrl, m);
    if env.server.cleanOk {
      assert r == Issue(m, req);
    } else {
      assert r == Halt(Issue(m, req), UpstreamFailure(Clean));
    }
    IssuedInv(env, d, CleanResults, m, r, 4, req);
  }

  lemma InvCleanResults(env: Env, d: Derived, m: Machine)
    requires m.halted.None? && Running(env, d, m, 4)
    ensures Inv(env, d, StepCleanResults(env, d.cleanUrl, m), 5)
  {
    var r := StepCleanResults(env, d.cleanUrl, m);
    if env.cfg.allureCleanResults == "true" {
      InvClean(env, d, m);
    } else if env.cfg.allureCleanResults == "false" {
      PlanUpToNext(env.cfg, 4);
      PassedInv(env, d, m, r, 4);
    } else {
      RefusedInv(env, d, m, r, 4, ConfigFailure(BadCleanResults));
    }
  }

  lemma InvUpload(env: Env, d: Derived, m: Machine)
    requires m.halted.None? && Running(env, d, m, 5)
    ensures Inv(env, d, StepUpload(env, d.sendUrl, m), 6)
  {
    var req := SendResultsRequest(d.sendUrl, m.csrfToken, m.cookie, UploadParts(m.files));
    var r := StepUpload(env, d.sendUrl, m);
    if env.server.sendOk {
      assert r == Issue(m, req);
    } else {
      assert r == Halt(Issue(m, req), UpstreamFailure(SendResults));
    }
    IssuedInv(env, d, Upload, m, r, 5, req);
  }

  /** With allure-generate "true", the generate request is the one the
      stage plans, and an ok answer logs the report URL. */
  lemma InvGenerate(env: Env, d: Derived, m: Machine)
    requires m.halted.None? && Running(env, d, m, 6) && env.cfg.allureGenerate == "true"
    ensures Inv(env, d, StepGenerateReport(env, d.generateUrl, m), 7)
  {
    PlanUpToNext(env.cfg, 6);
    var req := GenerateRequest(d.generateUrl, m.csrfToken, m.cookie);
    var r := StepGenerateReport(env, d.generateUrl, m);
    assert m.links == [d.reportLink];
    assert LinksUpTo(env, d, 7) == [d.reportLink, env.server.reportUrl];
    if env.server.generateOk {
      assert r == Issue(m, req).(links := [d.reportLink, env.server.reportUrl]);
    } else {
      assert r == Halt(Issue(m, req), UpstreamFailure(Generate));
    }
    IssuedInv(env, d, GenerateReport, m, r, 6, req);
  }

  lemma InvGenerateReport(env: Env, d: Derived, m: Machine)
    requires m.halted.None? && Running(env, d, m, 6)
    ensures Inv(env, d, StepGenerateReport(env, d.generateUrl, m), 7)
  {
    var r := StepGenerateReport(env, d.generateUrl, m);
    if env.cfg.allureGenerate == "true" {
      InvGenerate(env, d, m);
    } else if env.cfg.allureGenerate == "false" {
      PlanUpToNext(env.cfg, 6);
      PassedInv(env, d, m, r, 6);
    } else {
      RefusedInv(env, d, m, r, 6, ConfigFailure(BadGenerate));
    }
  }

  lemma InvFinish(env: Env, d: Derived, m: Machine)
    requires m.halted.None? && Running(env, d, m, 7)
    ensures Inv(env, d, Halt(m, Success), 8)
  {
    RefusedInv(env, d, m, Halt(m, Success), 7, Success);
  }

  lemma ChainDiscover(env: Env, d: Derived, m: Machine)
    requires Inv(env, d, m, 1)
    ensures Inv(env, d, Continue(m, StepDiscover(env, m)), 2)
  {
    if m.halted.None? {
      InvDiscover(env, d, m);
    }
    ContinueInv(env, d, m, StepDiscover(env, m), 1);
  }

  lemma ChainAuthenticate(env: Env, d: Derived, m: Machine)
    requires Inv(env, d, m, 2)
    ensures Inv(env, d, Continue(m, StepAuthenticate(env, d.loginUrl, d.sessionToken, d.sessionCookie, m)), 3)
  {
    if m.halted.None? {
      InvAuthenticate(env, d, m);
    }
    ContinueInv(env, d, m, StepAuthenticate(env, d.loginUrl, d.sessionToken, d.sessionCookie, m), 2);
  }

  lemma ChainFetchReport(env: Env, d: Derived, m: Machine)
    requires Inv(env, d, m, 3)
    ensures Inv(env, d, Continue(m, StepFetchReport(env, d.projectUrl, d.reportLink, m)), 4)
  {
    if m.halted.None? {
      InvFetchReport(env, d, m);
    }
    ContinueInv(env, d, m, StepFetchReport(env, d.projectUrl, d.reportLink, m), 3);
  }

  lemma ChainCleanResults(env: Env, d: Derived, m: Machine)
    requires Inv(env, d, m, 4)
    ensures Inv(env, d, Continue(m, StepCleanResults(env, d.cleanUrl, m)), 5)
  {
    if m.halted.None? {
      InvCleanResults(env, d, m);
    }
    ContinueInv(env, d, m, StepCleanResults(env, d.cleanUrl, m), 4);
  }

  lemma ChainUpload(env: Env, d: Derived, m: Machine)
    requires Inv(env, d, m, 5)
    ensures Inv(env, d, Continue(m, StepUpload(env, d.sendUrl, m)), 6)
  {
    if m.halted.None? {
      InvUpload(env, d, m);
    }
    ContinueInv(env, d, m, StepUpload(env, d.sendUrl, m), 5);
  }

  lemma ChainGenerateReport(env: Env, d: Derived, m: Machine)
    requires Inv(env, d, m, 6)
    ensures Inv(env, d, Continue(m, StepGenerateReport(env, d.generateUrl, m)), 7)
  {
    if m.halted.None? {
      InvGenerateReport(env, d, m);
    }
    ContinueInv(env, d, m, StepGenerateReport(env, d.generateUrl, m), 6);
  }

  lemma ChainFinish(env: Env, d: Derived, m: Machine)
    requires Inv(env, d, m, 7)
    ensures Inv(env, d, Continue(m, Halt(m, Success)), 8)
  {
    if m.halted.None? {
      InvFinish(env, d, m);
    }
    ContinueInv(env, d, m, Halt(m, Success), 7);
  }

  lemma FinalInv(env: Env)
    ensures Inv(env, DerivedOf(env), Final(env), 8)
  {
    var d := DerivedOf(env);
    var m1 := StepReadInputs(env, Initial);
    var m2 := Continue(m1, StepDiscover(env, m1));
    var m3 := Continue(m2, StepAuthenticate(env, d.loginUrl, d.sessionToken, d.sessionCookie, m2));
    var m4 := Continue(m3, StepFetchReport(env, d.projectUrl, d.reportLink, m3));
    var m5 := Continue(m4, StepCleanResults(env, d.cleanUrl, m4));
    var m6 := Continue(m5, StepUpload(env, d.sendUrl, m5));
    var m7 := Continue(m6, StepGenerateReport(env, d.generateUrl, m6));
    InvReadInputs(env, d);
    ChainDiscover(env, d, m1);
    ChainAuthenticate(env, d, m2);
    ChainFetchReport(env, d, m3);
    ChainCleanResults(env, d, m4);
    ChainUpload(env, d, m5);
    ChainGenerateReport(env, d, m6);
    ChainFinish(env, d, m7);
  }
}
