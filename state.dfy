/**
 * The workflow snapshot (`ContentWorkflowState`), the experiment record it carries, and the
 * request models of the workflow API with their field constraints.
 */
module State {
  import opened Wrappers

  /** A generated short-form script. */
  datatype ScriptVariant = ScriptVariant(
    id: string, hook: string, body: string, cta: string, predictedRetention: real, tone: string)

  /** A generated thumbnail. */
  datatype ThumbnailVariant = ThumbnailVariant(id: string, style: string, prompt: string, imageUrl: string, seed: int)

  /**
   * Metrics of one thumbnail arm. The entries written when an experiment starts have no
   * `confidence` key (`None`); the analytics batch writes 0.0.
   */
  datatype VariantMetrics = VariantMetrics(
    thumbnailId: string, style: string, impressions: nat, clicks: nat, ctr: real,
    avgViewDuration: int, confidence: Option<real>)

  /** `status` of an experiment: "running", "completed", "timeout" or "manual_override". */
  datatype ExperimentStatus = Running | Completed | Timeout | ManualOverride

  /** `recommendation` of a significance test: "wait", "declare_winner" or "inconclusive". */
  datatype Recommendation = Wait | DeclareWinner | Inconclusive

  /** The dict `calculate_multi_variant` returns when it has two or more variants. */
  datatype ComparisonStats = ComparisonStats(
    comparison: string, controlCtr: real, treatmentCtr: real, winnerId: Option<string>,
    winnerConfidence: real, isSignificant: bool, uplift: real, recommendation: Recommendation, pValue: real)

  /** `final_stats` of a finished experiment, one shape per way of finishing. */
  datatype FinalStats =
    | FromComparison(stats: ComparisonStats)
    | TimeoutStats(bestCtr: real)
    | ManualOverrideStats

  /** The experiment record `ab_test`; a missing `final_stats` key is `None`. */
  datatype ABTestState = ABTestState(
    startedAt: real, lastUpdated: real, status: ExperimentStatus, variants: seq<VariantMetrics>,
    winnerId: Option<string>, confidence: real, totalImpressions: int, checkCount: int,
    finalStats: Option<FinalStats>)

  /** `human_approval_status` */
  datatype ApprovalStatus = ApprovalStatus(scriptsApproved: bool, scriptsRejected: bool, thumbnailsApproved: bool)

  /** `trend_data` as the trend node writes it. */
  datatype TrendData = TrendData(
    primaryTrend: string, confidence: real, suggestedHooks: seq<string>, audioRecommendations: seq<string>,
    saturationLevel: string, optimalPostingWindow: string, platform: string, source: string)

  /** Python truthiness of an optional string: present and non-empty. */
  predicate Truthy(o: Option<string>) {
    o.Some? && o.value != ""
  }

  predicate IsTerminal(status: ExperimentStatus) {
    status != Running
  }

  function SumImpressions(vs: seq<VariantMetrics>): int {
    if vs == [] then 0 else SumImpressions(vs[..|vs| - 1]) + vs[|vs| - 1].impressions
  }

  /** Index of the first variant with the highest ctr: what `max(variants, key=ctr)` picks. */
  function FirstMaxCtrIndex(vs: seq<VariantMetrics>): (i: nat)
    requires |vs| > 0
    ensures i < |vs|
    ensures forall j :: 0 <= j < |vs| ==> vs[j].ctr <= vs[i].ctr
    ensures forall j :: 0 <= j < i ==> vs[j].ctr < vs[i].ctr
  {
    if |vs| == 1 then 0
    else
      var k := FirstMaxCtrIndex(vs[..|vs| - 1]);
      if vs[|vs| - 1].ctr > vs[k].ctr then |vs| - 1 else k
  }

  /** Which `final_stats` shape belongs to which status. */
  predicate FinalStatsAgree(status: ExperimentStatus, finalStats: Option<FinalStats>) {
    match status
    case Running => finalStats.None?
    case Completed => finalStats.Some? && finalStats.value.FromComparison?
    case Timeout => finalStats.Some? && finalStats.value.TimeoutStats?
    case ManualOverride => finalStats == Some(ManualOverrideStats)
  }

  /**
   * The consistency every experiment record written by the orchestrator keeps: the impression
   * total is the sum over the arms, a running experiment has no winner and no final stats, and a
   * finished one has a winner and the final stats of its way of finishing.
   */
  predicate ExperimentConsistent(a: ABTestState) {
    && a.totalImpressions == SumImpressions(a.variants)
    && FinalStatsAgree(a.status, a.finalStats)
    && (a.status == Running <==> a.winnerId.None?)
  }

  /** The start request body, after validation. */
  datatype StartRequest = StartRequest(topic: string, platforms: seq<string>, userId: string, brandVoice: string)

  datatype ApproveAction = Approve | Reject

  /** The approve request body, after validation. */
  datatype ApproveRequest = ApproveRequest(selectedScriptId: Option<string>, action: ApproveAction)

  datatype ThumbnailSelectRequest = ThumbnailSelectRequest(selectedThumbnailId: string)

  datatype DeclareWinnerRequest = DeclareWinnerRequest(thumbnailId: string)

  datatype StopTestRequest = StopTestRequest(reason: string)

  /** A request body rejected by its model: the field at fault. */
  datatype ValidationError = ValidationError(field: string)

  /** `WorkflowStartRequest`: a missing key is `None` and takes the field's default. */
  function ValidateStartRequest(
    topic: Option<string>, platforms: Option<seq<string>>, userId: Option<string>, brandVoice: Option<string>
  ): (r: Result<StartRequest, ValidationError>)
    ensures r.Ok? <==> topic.Some? && |topic.value| >= 1
    ensures r.Err? ==> r.error == ValidationError("topic")
    ensures r.Ok? ==> r.value.topic == topic.value
    ensures r.Ok? ==> r.value.platforms == (if platforms.Some? then platforms.value else ["youtube"])
    ensures r.Ok? ==> r.value.userId == (if userId.Some? then userId.value else "user_001")
    ensures r.Ok? ==> r.value.brandVoice == (if brandVoice.Some? then brandVoice.value else "educational")
  {
    if topic.None? || topic.value == "" then Err(ValidationError("topic"))
    else Ok(StartRequest(topic.value, platforms.GetOr(["youtube"]), userId.GetOr("user_001"), brandVoice.GetOr("educational")))
  }

  /** `WorkflowApproveRequest`: `action` must be one of the two literals and defaults to "approve". */
  function ValidateApproveRequest(selectedScriptId: Option<string>, action: Option<string>): (r: Result<ApproveRequest, ValidationError>)
    ensures r.Ok? <==> action.None? || action.value == "approve" || action.value == "reject"
    ensures r.Ok? ==> r.value.selectedScriptId == selectedScriptId
    ensures r.Ok? ==> (r.value.action == Reject <==> action == Some("reject"))
  {
    match action
    case None => Ok(ApproveRequest(selectedScriptId, Approve))
    case Some(a) =>
      if a == "approve" then Ok(ApproveRequest(selectedScriptId, Approve))
      else if a == "reject" then Ok(ApproveRequest(selectedScriptId, Reject))
      else Err(ValidationError("action"))
  }

  /** A required string field with `min_length=1`. */
  function ValidateNonEmpty(field: string, value: Option<string>): (r: Result<string, ValidationError>)
    ensures r.Ok? <==> value.Some? && value.value != ""
    ensures r.Ok? ==> r.value == value.value && |r.value| >= 1
    ensures r.Err? ==> r.error.field == field
  {
    if value.None? || value.value == "" then Err(ValidationError(field)) else Ok(value.value)
  }

  function ValidateThumbnailSelectRequest(selectedThumbnailId: Option<string>): (r: Result<ThumbnailSelectRequest, ValidationError>)
    ensures r.Ok? <==> Truthy(selectedThumbnailId)
    ensures r.Ok? ==> Some(r.value.selectedThumbnailId) == selectedThumbnailId
  {
    var v := ValidateNonEmpty("selected_thumbnail_id", selectedThumbnailId);
    if v.Ok? then Ok(ThumbnailSelectRequest(v.value)) else Err(v.error)
  }

  function ValidateDeclareWinnerRequest(thumbnailId: Option<string>): (r: Result<DeclareWinnerRequest, ValidationError>)
    ensures r.Ok? <==> Truthy(thumbnailId)
    ensures r.Ok? ==> Some(r.value.thumbnailId) == thumbnailId
  {
    var v := ValidateNonEmpty("thumbnail_id", thumbnailId);
    if v.Ok? then Ok(DeclareWinnerRequest(v.value)) else Err(v.error)
  }

  /** `StopTestRequest`: always valid, `reason` defaults to "manual_stop". */
  function ValidateStopTestRequest(reason: Option<string>): (r: StopTestRequest)
    ensures reason.None? ==> r.reason == "manual_stop"
    ensures reason.Some? ==> r.reason == reason.value
  {
    StopTestRequest(reason.GetOr("manual_stop"))
  }

  /** `WorkflowStatusResponse` */
  datatype WorkflowStatusResponse = WorkflowStatusResponse(
    workflowId: string, status: string, currentStep: string, requiresAction: Option<string>,
    scripts: seq<ScriptVariant>, selectedScriptId: Option<string>, thumbnails: seq<ThumbnailVariant>,
    selectedThumbnailId: Option<string>, tokenUsage: map<string, int>)

  /** The dict the A/B status endpoint returns (`ABTestStatusResponse`). */
  datatype ABTestStatusResponse = ABTestStatusResponse(
    workflowId: string, status: ExperimentStatus, isRunning: bool, variants: seq<VariantMetrics>,
    currentConfidence: real, totalImpressions: int, winnerId: Option<string>, elapsedTimeSeconds: int,
    estimatedTimeRemaining: int, checksCompleted: int, canDeclareEarly: bool)

  /** The snapshot a workflow run reads and updates in place. */
  class WorkflowState {
    const workflowId: string
    const userId: string
    const topic: string
    const targetPlatforms: seq<string>
    const brandVoice: string
    const createdTs: int

    var trendData: Option<TrendData>
    var scriptVariants: seq<ScriptVariant>
    var selectedScriptId: Option<string>
    var thumbnailVariants: seq<ThumbnailVariant>
    var selectedThumbnailId: Option<string>
    var abTest: Option<ABTestState>
    var currentStep: string
    var approval: ApprovalStatus
    var tokenUsage: map<string, int>
    var errors: seq<string>
    var updatedTs: int

    /** The initial snapshot `start_workflow` builds for a new workflow id at time `now`. */
    constructor (workflowId: string, request: StartRequest, now: int)
      ensures this.workflowId == workflowId && userId == request.userId && topic == request.topic
      ensures targetPlatforms == request.platforms && brandVoice == request.brandVoice
      ensures trendData.None? && scriptVariants == [] && selectedScriptId.None?
      ensures thumbnailVariants == [] && selectedThumbnailId.None? && abTest.None?
      ensures currentStep == "init" && approval == ApprovalStatus(false, false, false)
      ensures tokenUsage == map["prompt_tokens" := 0, "completion_tokens" := 0, "total_tokens" := 0]
      ensures errors == [] && createdTs == now && updatedTs == now
    {
      this.workflowId := workflowId;
      userId := request.userId;
      topic := request.topic;
      targetPlatforms := request.platforms;
      brandVoice := request.brandVoice;
      createdTs := now;
      trendData := None;
      scriptVariants := [];
      selectedScriptId := None;
      thumbnailVariants := [];
      selectedThumbnailId := None;
      abTest := None;
      currentStep := "init";
      approval := ApprovalStatus(false, false, false);
      tokenUsage := map["prompt_tokens" := 0, "completion_tokens" := 0, "total_tokens" := 0];
      errors := [];
      updatedTs := now;
    }
  }
}
