/** The URL templates of index.js (lines 56, 93, 101-103, 114, 136, 163-166)
    and the predicted report id of lines 100-103. `base` is the text of
    `${allureServerUrl}`, the normalised form of the configured server URL. */
module Endpoints {

  import opened Wrappers
  import opened Numbers

  function LoginUrl(base: string): string {
    base + "allure-docker-service/login"
  }

  function ProjectUrl(base: string, projectId: string): string {
    base + "allure-docker-service/projects/" + projectId
  }

  function CleanResultsUrl(base: string, projectId: string): string {
    base + "allure-docker-service/clean-results?project_id=" + projectId
  }

  function SendResultsUrl(base: string, projectId: string): string {
    base + "allure-docker-service/send-results?project_id=" + projectId
  }

  /** The fixed execution name, already in query-string form. */
  const ExecutionName: string := "GitHub+Actions"

  function GenerateReportUrl(base: string, projectId: string, executionFromEncoded: string): string {
    base + "allure-docker-service/generate-report?project_id=" + projectId
      + "&execution_name=" + ExecutionName + "&execution_from=" + executionFromEncoded
  }

  /** What the workflow run context supplies (`github.context`). */
  datatype CiContext = CiContext(serverUrl: string, owner: string, repo: string, runId: nat)

  /** The page of the invoking workflow run, before percent-encoding. */
  function ExecutionFrom(ci: CiContext): string {
    ci.serverUrl + "/" + ci.owner + "/" + ci.repo + "/actions/runs/" + Decimal(ci.runId)
  }

  function ReportLink(base: string, projectId: string, reportId: string): string {
    base + "allure-docker-service-ui/projects/" + projectId + "/reports/" + reportId
  }

  const NaN: string := "NaN"

  /** `${parseInt(reports_id[1]) + 1}`: one more than the id at position 1
      of the project's report index, or "NaN" when there is no such
      element or it does not start with a digit. */
  function PredictedReportId(reportsId: seq<string>): string {
    if |reportsId| < 2 then NaN
    else match ParseInt(reportsId[1])
      case None => NaN
      case Some(v) => Decimal(v + 1)
  }

  /** The predicted id is "NaN" exactly when there is no id at position 1
      or it does not start with a digit; otherwise it is the decimal text
      of one more than the value of its leading digits. */
  lemma PredictedReportIdMeaning(reportsId: seq<string>)
    ensures PredictedReportId(reportsId) == NaN <==> |reportsId| < 2 || ParseInt(reportsId[1]).None?
    ensures PredictedReportId(reportsId) != NaN ==>
      var r := PredictedReportId(reportsId);
      AllDigits(r) && DigitsValue(r) == ParseInt(reportsId[1]).value + 1
  {
    if |reportsId| >= 2 && ParseInt(reportsId[1]).Some? {
      var v := ParseInt(reportsId[1]).value;
      DecimalValue(v + 1);
      assert Decimal(v + 1)[0] != 'N';
    }
  }

  /** When the id at position 1 is the decimal text of `k`, the predicted
      id is the decimal text of `k + 1`. */
  lemma PredictedReportIdOfDecimal(reportsId: seq<string>, k: nat)
    requires |reportsId| >= 2 && reportsId[1] == Decimal(k)
    ensures PredictedReportId(reportsId) == Decimal(k + 1)
  {
    ParseIntDecimal(k, []);
    assert Decimal(k) + [] == Decimal(k);
  }

  /** A report index `[5, 12]` predicts report 13. */
  lemma PredictedReportIdExample()
    ensures PredictedReportId(["5", "12"]) == "13"
  {
    assert Decimal(12) == "12";
    PredictedReportIdOfDecimal(["5", "12"], 12);
    assert Decimal(13) == "13";
  }
}
