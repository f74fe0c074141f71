// The canonical JSON document of a task result, whose length is checked against
// the task's `max_result_bytes`.
module ResultJson {
  import opened Prelude
  import opened TaskTypes
  import opened Json

  function OutcomeName(o: Outcome): string {
    match o
    case Completed => "COMPLETED"
    case Failed => "FAILED"
    case Cancelled => "CANCELLED"
    case TimedOut => "TIMED_OUT"
    case BudgetExhausted => "BUDGET_EXHAUSTED"
    case RuntimeLost => "RUNTIME_LOST"
    case ResultInvalid => "RESULT_INVALID"
  }

  function OptStr(s: Option<string>): Json {
    match s
    case None => JNull
    case Some(v) => JStr(v)
  }

  function StrArr(items: seq<string>): Json {
    JArr(seq(|items|, i requires 0 <= i < |items| => JStr(items[i])))
  }

  function ResultArtifactJson(a: ResultArtifact): Json {
    JObj([Field("kind", JStr("changes_patch")),
          Field("artifact_id", JStr(a.artifactId.text)),
          Field("sha256", JStr(a.sha256))])
  }

  function ResultArtifactsJson(artifacts: seq<ResultArtifact>): Json {
    JArr(seq(|artifacts|, i requires 0 <= i < |artifacts| => ResultArtifactJson(artifacts[i])))
  }

  function OutcomeFields(r: TaskResult): seq<Field> {
    [Field("outcome", JStr(OutcomeName(r.outcome))),
     Field("final_text", JStr(r.finalText)),
     Field("partial", JBool(r.partial))]
  }

  function EvidenceFields(r: TaskResult): seq<Field> {
    [Field("base_commit", OptStr(r.baseCommit)),
     Field("head_commit", OptStr(r.headCommit)),
     Field("changed_files", StrArr(r.changedFiles)),
     Field("diff_stat", OptStr(r.diffStat)),
     Field("checks", StrArr(r.checks)),
     Field("residual_gaps", StrArr(r.residualGaps)),
     Field("artifacts", ResultArtifactsJson(r.artifacts))]
  }

  function ResultDocument(r: TaskResult): Json {
    JObj(OutcomeFields(r) + EvidenceFields(r))
  }

  // `task_result_bytes`
  function CanonicalBytes(r: TaskResult): seq<byte> {
    Render(ResultDocument(r))
  }
}
