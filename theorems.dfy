/** What a whole run of the action promises, as consequences of the stage
    invariant: which outcome a run ends with and why, which requests it
    issues and in what order, what each request carries, and which report
    links it logs. */
module RunTheorems {

  import opened Wrappers
  import opened Cookies
  import opened Endpoints
  import opened Action
  import opened RunProperties

  /** The planned requests of the first `k` stages are all answered ok. */
  predicate OkUpTo(env: Env, k: nat) {
    forall c :: c in PlanUpTo(env.cfg, k) ==> Answer(env.server, c)
  }

  /** What is known of a run that has ended with `r`: it ended at one
      stage, for that stage's cause, after issuing the plan of the stages
      before it and, when a request was answered not ok, that request last;
      it logged the links of the stages it passed, and every request
      carries its URL, credentials, session and files. */
  predicate Ends(env: Env, d: Derived, r: RunResult) {
    var o := r.outcome;
    var j := Rank(EndsAt(o));
    && j < 8
    && Cause(env, o)
    && Calls(r.trace) == PlanUpTo(env.cfg, j) + FailedCall(o)
    && r.links == LinksUpTo(env, d, j)
    && AllCarry(env, d, r.trace)
    && (o.UpstreamFailure? ==>
          StagePlan(env.cfg, EndsAt(o)) == [o.call] && !Answer(env.server, o.call)
          && AllOk(env.server, r.trace[..|r.trace| - 1]))
    && (!o.UpstreamFailure? ==> AllOk(env.server, r.trace))
  }

  /** Every run is described by `Ends`. */
  lemma RunTrace(env: Env)
    ensures Ends(env, DerivedOf(env), Run(env))
  {
    FinalInv(env);
  }

  /** A not-ok answer ends the run at once: the request that failed is the
      last one sent, every earlier one was answered ok, and a run that ends
      any other way had all its requests answered ok. */
  lemma FailFastOf(env: Env, d: Derived, r: RunResult)
    requires Ends(env, d, r)
    ensures r.outcome.UpstreamFailure? ==>
      && |r.trace| > 0
      && CallOf(r.trace[|r.trace| - 1]) == r.outcome.call
      && !Answer(env.server, r.outcome.call)
      && forall i :: 0 <= i < |r.trace| - 1 ==> Answer(env.server, CallOf(r.trace[i]))
    ensures !r.outcome.UpstreamFailure? ==> forall i :: 0 <= i < |r.trace| ==> Answer(env.server, CallOf(r.trace[i]))
  {
    CallsIndex(r.trace);
    if r.outcome.UpstreamFailure? {
      var n := |r.trace|;
      assert Calls(r.trace)[n - 1] == r.outcome.call;
      forall i | 0 <= i < n - 1 ensures Answer(env.server, CallOf(r.trace[i])) {
        assert r.trace[..n - 1][i] == r.trace[i];
      }
    }
  }

  lemma RunFailFast(env: Env)
    ensures var r := Run(env);
      && (r.outcome.UpstreamFailure? ==>
            && |r.trace| > 0
            && CallOf(r.trace[|r.trace| - 1]) == r.outcome.call
            && !Answer(env.server, r.outcome.call)
            && forall i :: 0 <= i < |r.trace| - 1 ==> Answer(env.server, CallOf(r.trace[i])))
      && (!r.outcome.UpstreamFailure? ==> forall i :: 0 <= i < |r.trace| ==> Answer(env.server, CallOf(r.trace[i])))
  {
    RunTrace(env);
    FailFastOf(env, DerivedOf(env), Run(env));
  }

  lemma StageAtRank(st: Stage)
    ensures StageAt(Rank(st)) == st
  {
  }

  /** Later stages only add requests after those of earlier ones. */
  lemma {:induction false} PlanUpToPrefix(cfg: Config, a: nat, b: nat)
    requires a <= b
    ensures PlanUpTo(cfg, a) <= PlanUpTo(cfg, b)
    decreases b - a
  {
    if a < b {
      PlanUpToPrefix(cfg, a, b - 1);
      PlanUpToNext(cfg, b - 1);
      assert PlanUpTo(cfg, b)[..|PlanUpTo(cfg, b - 1)|] == PlanUpTo(cfg, b - 1);
    }
  }

  lemma PlannedIsWholePlan(cfg: Config)
    ensures Planned(cfg) == PlanUpTo(cfg, Rank(Finish))
  {
  }

  /** The requests of a run, whatever its outcome, are a prefix of the
      plan: Login (secure mode), FetchProject, Clean (when asked for),
      SendResults, Generate (when asked for), in this order. */
  lemma OrderOf(env: Env, d: Derived, r: RunResult)
    requires Ends(env, d, r)
    ensures Calls(r.trace) <= Planned(env.cfg)
  {
    var o := r.outcome;
    var j := Rank(EndsAt(o));
    PlannedIsWholePlan(env.cfg);
    if o.UpstreamFailure? {
      StageAtRank(EndsAt(o));
      PlanUpToNext(env.cfg, j);
      PlanUpToPrefix(env.cfg, j + 1, Rank(Finish));
    } else {
      PlanUpToPrefix(env.cfg, j, Rank(Finish));
    }
  }

  lemma RunOrder(env: Env)
    ensures Calls(Run(env).trace) <= Planned(env.cfg)
  {
    RunTrace(env);
    OrderOf(env, DerivedOf(env), Run(env));
  }

  /** A planned call of the first `k` stages is among the first `|PlanUpTo(cfg, k)|` calls of any longer plan. */
  lemma InPlanPrefix(cfg: Config, k: nat, j: nat, c: Call)
    requires k <= j && c in PlanUpTo(cfg, k)
    ensures exists i :: 0 <= i < |PlanUpTo(cfg, j)| && PlanUpTo(cfg, j)[i] == c
  {
    PlanUpToPrefix(cfg, k, j);
    var i :| 0 <= i < |PlanUpTo(cfg, k)| && PlanUpTo(cfg, k)[i] == c;
    assert PlanUpTo(cfg, j)[i] == c;
  }

  lemma ReachedEarlier(env: Env, a: nat, b: nat)
    requires a <= b && Reached(env, b)
    ensures Reached(env, a)
  {
  }

  /** Only Success comes from the last stage. */
  lemma FinishIsSuccess(o: Outcome)
    ensures Rank(EndsAt(o)) >= Rank(Finish) <==> o == Success
  {
  }

  /** Each request the stages before the last one plan was answered ok. */
  lemma PlannedAnswered(env: Env, d: Derived, r: RunResult, i: nat)
    requires Ends(env, d, r) && i < |PlanUpTo(env.cfg, Rank(EndsAt(r.outcome)))|
    ensures Answer(env.server, PlanUpTo(env.cfg, Rank(EndsAt(r.outcome)))[i])
  {
    CallsIndex(r.trace);
    assert Calls(r.trace)[i] == CallOf(r.trace[i]);
    if r.outcome.UpstreamFailure? {
      assert r.trace[..|r.trace| - 1][i] == r.trace[i];
    }
  }

  /** A run that got past its first `k` stages had their requests answered ok. */
  lemma PastIsOk(env: Env, d: Derived, r: RunResult, k: nat)
    requires Ends(env, d, r) && k <= Rank(EndsAt(r.outcome))
    ensures OkUpTo(env, k)
  {
    var j := Rank(EndsAt(r.outcome));
    forall c | c in PlanUpTo(env.cfg, k) ensures Answer(env.server, c) {
      InPlanPrefix(env.cfg, k, j, c);
      var i :| 0 <= i < |PlanUpTo(env.cfg, j)| && PlanUpTo(env.cfg, j)[i] == c;
      PlannedAnswered(env, d, r, i);
    }
  }

  /** The request whose not-ok answer ended a run is planned by every
      longer prefix of the stages. */
  lemma FailedIsPlanned(env: Env, d: Derived, r: RunResult, k: nat)
    requires Ends(env, d, r) && r.outcome.UpstreamFailure? && Rank(EndsAt(r.outcome)) < k
    ensures r.outcome.call in PlanUpTo(env.cfg, k)
  {
    var o := r.outcome;
    var j := Rank(EndsAt(o));
    StageAtRank(EndsAt(o));
    PlanUpToNext(env.cfg, j);
    assert PlanUpTo(env.cfg, j + 1)[|PlanUpTo(env.cfg, j)|] == o.call;
    InPlanPrefix(env.cfg, j + 1, k, o.call);
  }

  /** A check that ended a run fails again for every longer prefix of the stages. */
  lemma EarlyCauseUnreached(env: Env, o: Outcome, k: nat)
    requires !o.UpstreamFailure? && Cause(env, o) && Rank(EndsAt(o)) < k <= Rank(Finish)
    ensures !Reached(env, k)
  {
  }

  /** A run that ended within its first `k` stages failed one of their
      checks or had one of their requests answered not ok. */
  lemma EarlyEndFails(env: Env, d: Derived, r: RunResult, k: nat)
    requires Ends(env, d, r) && Rank(EndsAt(r.outcome)) < k <= Rank(Finish)
    ensures !(Reached(env, k) && OkUpTo(env, k))
  {
    if r.outcome.UpstreamFailure? {
      FailedIsPlanned(env, d, r, k);
    } else {
      EarlyCauseUnreached(env, r.outcome, k);
    }
  }

  /** The run gets past its first `k` stages exactly when their checks pass
      and every request they plan is answered ok. */
  lemma GetsPastOf(env: Env, d: Derived, r: RunResult, k: nat)
    requires Ends(env, d, r) && k <= Rank(Finish)
    ensures Rank(EndsAt(r.outcome)) >= k <==> Reached(env, k) && OkUpTo(env, k)
  {
    var j := Rank(EndsAt(r.outcome));
    if j >= k {
      PastIsOk(env, d, r, k);
      ReachedEarlier(env, k, j);
    } else {
      EarlyEndFails(env, d, r, k);
    }
  }

  lemma RunGetsPast(env: Env, k: nat)
    requires k <= Rank(Finish)
    ensures Rank(EndsAt(Run(env).outcome)) >= k <==> Reached(env, k) && OkUpTo(env, k)
  {
    RunTrace(env);
    GetsPastOf(env, DerivedOf(env), Run(env), k);
  }

  /** The run succeeds exactly when every check passes (inputs supplied,
      files listed, is-secure valid with credentials, both flags valid) and
      every planned request is answered ok; it then issued the whole plan
      and logged the predicted report link, followed by the server's report
      URL when allure-generate is "true". */
  lemma SuccessOf(env: Env, d: Derived, r: RunResult)
    requires Ends(env, d, r)
    ensures r.outcome == Success <==> Reached(env, Rank(Finish)) && OkUpTo(env, Rank(Finish))
    ensures r.outcome == Success ==>
      && Calls(r.trace) == Planned(env.cfg)
      && r.links == [d.reportLink] + (if env.cfg.allureGenerate == "true" then [env.server.reportUrl] else [])
  {
    GetsPastOf(env, d, r, Rank(Finish));
    FinishIsSuccess(r.outcome);
    PlannedIsWholePlan(env.cfg);
  }

  lemma RunSuccess(env: Env)
    ensures Run(env).outcome == Success <==> Reached(env, Rank(Finish)) && OkUpTo(env, Rank(Finish))
    ensures Run(env).outcome == Success ==>
      && Calls(Run(env).trace) == Planned(env.cfg)
      && Run(env).links == [DerivedOf(env).reportLink]
                           + (if env.cfg.allureGenerate == "true" then [env.server.reportUrl] else [])
  {
    RunTrace(env);
    SuccessOf(env, DerivedOf(env), Run(env));
  }

  /** The run ends with "no files" exactly when the inputs are supplied and
      the directory is empty; it then sends nothing and logs nothing. */
  lemma NoFilesOf(env: Env, d: Derived, r: RunResult)
    requires Ends(env, d, r)
    ensures r.outcome == NoFiles <==> MissingRequiredInput(env.cfg).None? && env.listing == Some([])
    ensures r.outcome == NoFiles ==> r.trace == [] && r.links == []
  {
    if MissingRequiredInput(env.cfg).None? && env.listing == Some([]) {
      GetsPastOf(env, d, r, 1);
      assert Rank(EndsAt(r.outcome)) == 1;
    }
  }

  lemma RunNoFiles(env: Env)
    ensures Run(env).outcome == NoFiles <==> MissingRequiredInput(env.cfg).None? && env.listing == Some([])
    ensures Run(env).outcome == NoFiles ==> Run(env).trace == [] && Run(env).links == []
  {
    RunTrace(env);
    NoFilesOf(env, DerivedOf(env), Run(env));
  }

  /** With the files listed and is-secure "true", a missing username, and
      then a missing password, end the run before any request. */
  lemma MissingCredentialsOf(env: Env, d: Derived, r: RunResult)
    requires Ends(env, d, r) && HasFiles(env) && env.cfg.isSecure == "true"
    ensures env.cfg.securityUser == "" ==> r.outcome == ConfigFailure(NoUsername)
    ensures env.cfg.securityUser != "" && env.cfg.securityPass == "" ==> r.outcome == ConfigFailure(NoPassword)
    ensures env.cfg.securityUser == "" || env.cfg.securityPass == "" ==> r.trace == [] && r.links == []
  {
    if env.cfg.securityUser == "" || env.cfg.securityPass == "" {
      GetsPastOf(env, d, r, 2);
      assert Rank(EndsAt(r.outcome)) == 2;
    }
  }

  lemma RunMissingCredentials(env: Env)
    requires HasFiles(env) && env.cfg.isSecure == "true"
    ensures env.cfg.securityUser == "" ==> Run(env).outcome == ConfigFailure(NoUsername)
    ensures env.cfg.securityUser != "" && env.cfg.securityPass == "" ==> Run(env).outcome == ConfigFailure(NoPassword)
    ensures env.cfg.securityUser == "" || env.cfg.securityPass == "" ==> Run(env).trace == [] && Run(env).links == []
  {
    RunTrace(env);
    MissingCredentialsOf(env, DerivedOf(env), Run(env));
  }

  /** With the files listed, an is-secure value other than "true" and
      "false" ends the run before any request. */
  lemma BadIsSecureOf(env: Env, d: Derived, r: RunResult)
    requires Ends(env, d, r) && HasFiles(env) && !IsFlag(env.cfg.isSecure)
    ensures r.outcome == ConfigFailure(BadIsSecure) && r.trace == [] && r.links == []
  {
    GetsPastOf(env, d, r, 2);
    assert Rank(EndsAt(r.outcome)) == 2;
  }

  lemma RunBadIsSecure(env: Env)
    requires HasFiles(env) && !IsFlag(env.cfg.isSecure)
    ensures Run(env).outcome == ConfigFailure(BadIsSecure) && Run(env).trace == [] && Run(env).links == []
  {
    RunTrace(env);
    BadIsSecureOf(env, DerivedOf(env), Run(env));
  }

  /** An invalid allure-clean-results value is rejected only when the run
      reaches the clean stage: by then the login (in secure mode) and the
      fetch of the project have been sent, and the predicted link logged. */
  lemma BadCleanResultsOf(env: Env, d: Derived, r: RunResult)
    requires Ends(env, d, r)
    requires HasFiles(env) && SecureOk(env.cfg) && !IsFlag(env.cfg.allureCleanResults)
    requires (env.cfg.isSecure == "true" ==> Answer(env.server, Login)) && env.server.fetchOk
    ensures r.outcome == ConfigFailure(BadCleanResults)
    ensures Calls(r.trace) == (if env.cfg.isSecure == "true" then [Login] else []) + [FetchProject]
    ensures r.links == [d.reportLink]
  {
    GetsPastOf(env, d, r, 4);
    assert Rank(EndsAt(r.outcome)) == 4;
  }

  lemma RunBadCleanResults(env: Env)
    requires HasFiles(env) && SecureOk(env.cfg) && !IsFlag(env.cfg.allureCleanResults)
    requires (env.cfg.isSecure == "true" ==> Answer(env.server, Login)) && env.server.fetchOk
    ensures Run(env).outcome == ConfigFailure(BadCleanResults)
    ensures Calls(Run(env).trace) == (if env.cfg.isSecure == "true" then [Login] else []) + [FetchProject]
    ensures Run(env).links == [DerivedOf(env).reportLink]
  {
    RunTrace(env);
    BadCleanResultsOf(env, DerivedOf(env), Run(env));
  }

  /** An invalid allure-generate value is rejected only after the results
      have been uploaded: the last request sent is SendResults. */
  lemma BadGenerateOf(env: Env, d: Derived, r: RunResult)
    requires Ends(env, d, r)
    requires Reached(env, Rank(GenerateReport)) && OkUpTo(env, Rank(GenerateReport))
    requires !IsFlag(env.cfg.allureGenerate)
    ensures r.outcome == ConfigFailure(BadGenerate)
    ensures Calls(r.trace) == PlanUpTo(env.cfg, Rank(GenerateReport))
    ensures |r.trace| > 0 && CallOf(r.trace[|r.trace| - 1]) == SendResults
  {
    GetsPastOf(env, d, r, 6);
    assert Rank(EndsAt(r.outcome)) == 6;
    CallsIndex(r.trace);
  }

  lemma RunBadGenerate(env: Env)
    requires Reached(env, Rank(GenerateReport)) && OkUpTo(env, Rank(GenerateReport))
    requires !IsFlag(env.cfg.allureGenerate)
    ensures Run(env).outcome == ConfigFailure(BadGenerate)
    ensures Calls(Run(env).trace) == PlanUpTo(env.cfg, Rank(GenerateReport))
    ensures |Run(env).trace| > 0 && CallOf(Run(env).trace[|Run(env).trace| - 1]) == SendResults
  {
    RunTrace(env);
    BadGenerateOf(env, DerivedOf(env), Run(env));
  }

  /** Request `i` of a run is the `i`-th planned request and carries what
      its kind is sent with. */
  lemma RequestAt(env: Env, d: Derived, r: RunResult, i: nat)
    requires Ends(env, d, r) && i < |r.trace|
    ensures i < |Planned(env.cfg)| && CallOf(r.trace[i]) == Planned(env.cfg)[i]
    ensures Carries(env, d, r.trace[i])
  {
    OrderOf(env, d, r);
    CallsIndex(r.trace);
    assert Calls(r.trace)[i] == CallOf(r.trace[i]);
  }

  /** Only the first planned request can be the login, and it is in secure mode. */
  lemma PlannedLogin(cfg: Config, i: nat)
    requires i < |Planned(cfg)|
    ensures Planned(cfg)[i] == Login <==> i == 0 && cfg.isSecure == "true"
  {
    var first := if cfg.isSecure == "true" then [Login] else [];
    var rest := [FetchProject] + (if cfg.allureCleanResults == "true" then [Clean] else []) + [SendResults]
      + (if cfg.allureGenerate == "true" then [Generate] else []);
    assert Planned(cfg) == first + rest;
    assert Login !in rest;
    if i >= |first| {
      assert Planned(cfg)[i] == rest[i - |first|];
    }
  }

  /** In insecure mode there is no login, no request carries a session
      cookie, and `csrfAccessToken` stays undefined. */
  lemma InsecureOf(env: Env, d: Derived, r: RunResult)
    requires Ends(env, d, r) && env.cfg.isSecure == "false"
    ensures forall i :: 0 <= i < |r.trace| ==>
      var q := r.trace[i];
      && !q.LoginRequest?
      && q.cookie == InitialEmpty
      && (q.SendResultsRequest? || q.GenerateRequest? ==> q.csrfToken == None)
  {
    forall i | 0 <= i < |r.trace| ensures !r.trace[i].LoginRequest? && Carries(env, d, r.trace[i]) {
      RequestAt(env, d, r, i);
      PlannedLogin(env.cfg, i);
    }
  }

  lemma RunInsecure(env: Env)
    requires env.cfg.isSecure == "false"
    ensures forall i :: 0 <= i < |Run(env).trace| ==>
      var q := Run(env).trace[i];
      && !q.LoginRequest?
      && q.cookie == InitialEmpty
      && (q.SendResultsRequest? || q.GenerateRequest? ==> q.csrfToken == None)
  {
    RunTrace(env);
    InsecureOf(env, DerivedOf(env), Run(env));
  }

  /** In secure mode the login is the first request, with the configured
      credentials, and every later request carries the joined login cookies;
      the upload and the generate request carry the token of the first
      cookie that holds one. */
  lemma SecureSessionOf(env: Env, d: Derived, r: RunResult)
    requires Ends(env, d, r) && env.cfg.isSecure == "true"
    ensures var t := r.trace;
      && (|t| > 0 ==> t[0] == LoginRequest(d.loginUrl, env.cfg.securityUser, env.cfg.securityPass))
      && (forall i :: 0 < i < |t| ==> (!t[i].LoginRequest? && t[i].cookie == d.sessionCookie))
      && (forall i :: 0 <= i < |t| && (t[i].SendResultsRequest? || t[i].GenerateRequest?) ==>
            t[i].csrfToken == d.sessionToken)
  {
    forall i | 0 <= i < |r.trace| ensures (i == 0) == r.trace[i].LoginRequest? && Carries(env, d, r.trace[i]) {
      RequestAt(env, d, r, i);
      PlannedLogin(env.cfg, i);
    }
  }

  lemma RunSecureSession(env: Env)
    requires env.cfg.isSecure == "true"
    ensures var t := Run(env).trace;
      && (|t| > 0 ==> t[0] == LoginRequest(LoginUrl(env.lib.href(env.cfg.serverUrl)),
                                           env.cfg.securityUser, env.cfg.securityPass))
      && (forall i :: 0 < i < |t| ==>
            (!t[i].LoginRequest? && t[i].cookie == Joined(Join(env.server.loginCookies, "; "))))
      && (forall i :: 0 <= i < |t| && (t[i].SendResultsRequest? || t[i].GenerateRequest?) ==>
            t[i].csrfToken == FirstCsrfToken(env.server.loginCookies))
  {
    RunTrace(env);
    SecureSessionOf(env, DerivedOf(env), Run(env));
  }

  /** A plan that holds SendResults covers the Upload stage. */
  lemma SendResultsPlanned(cfg: Config, j: nat)
    requires SendResults in PlanUpTo(cfg, j)
    ensures j > Rank(Upload)
  {
  }

  /** A run that sends the results has listed a non-empty directory. */
  lemma SendImpliesFiles(env: Env, o: Outcome)
    requires Cause(env, o) && SendResults in PlanUpTo(env.cfg, Rank(EndsAt(o))) + FailedCall(o)
    ensures HasFiles(env)
  {
    if SendResults in PlanUpTo(env.cfg, Rank(EndsAt(o))) {
      SendResultsPlanned(env.cfg, Rank(EndsAt(o)));
    } else {
      assert o == UpstreamFailure(SendResults);
    }
  }

  /** An upload is sent only after a non-empty listing was read, and it
      carries one `files[]` part per listed file, in listing order. */
  lemma UploadsEveryFileOf(env: Env, d: Derived, r: RunResult)
    requires Ends(env, d, r)
    ensures forall i :: 0 <= i < |r.trace| && r.trace[i].SendResultsRequest? ==>
      var parts, files := r.trace[i].parts, env.listing.value;
      env.listing.Some? && files != [] && |parts| == |files| && forall k :: 0 <= k < |files| ==> parts[k] == FormPart(FilesField, files[k])
  {
    forall i | 0 <= i < |r.trace| && r.trace[i].SendResultsRequest?
      ensures env.listing.Some? && env.listing.value != [] && r.trace[i].parts == UploadParts(env.listing.value)
    {
      CallsIndex(r.trace);
      assert Calls(r.trace)[i] == SendResults;
      SendImpliesFiles(env, r.outcome);
      assert Carries(env, d, r.trace[i]);
    }
    UploadPartsOnePerFile(Files(env));
  }

  lemma RunUploadsEveryFile(env: Env)
    ensures forall i :: 0 <= i < |Run(env).trace| && Run(env).trace[i].SendResultsRequest? ==>
      var parts, files := Run(env).trace[i].parts, env.listing.value;
      env.listing.Some? && files != [] && |parts| == |files| && forall k :: 0 <= k < |files| ==> parts[k] == FormPart(FilesField, files[k])
  {
    RunTrace(env);
    UploadsEveryFileOf(env, DerivedOf(env), Run(env));
  }

  /** Once the project has been fetched ok, the first link logged is the
      report page of the predicted id: one more than the id at position 1
      of the project's report index, "NaN" when that cannot be read. */
  lemma PredictedLinkOf(env: Env, d: Derived, r: RunResult)
    requires Ends(env, d, r)
    ensures Rank(EndsAt(r.outcome)) > Rank(FetchReport) <==> |r.links| > 0
    ensures |r.links| > 0 ==> r.links[0] == d.reportLink
  {
  }

  lemma RunPredictedLink(env: Env)
    ensures Rank(EndsAt(Run(env).outcome)) > Rank(FetchReport) <==> |Run(env).links| > 0
    ensures |Run(env).links| > 0 ==>
      Run(env).links[0] == ReportLink(env.lib.href(env.cfg.serverUrl), env.cfg.projectId,
                                      PredictedReportId(env.server.reportsId))
  {
    RunTrace(env);
    PredictedLinkOf(env, DerivedOf(env), Run(env));
  }
}
