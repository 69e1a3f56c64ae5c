/**
 * The workflow HTTP endpoints that edit or read a stored snapshot: the script decision, the
 * thumbnail choice, the manual winner and the early stop of an A/B test, the A/B status poll, the
 * final results, and the status mapping every response carries. Loading and saving the record
 * (and its 404) are not modelled: each handler works on the loaded snapshot.
 */
module WorkflowsApi {
  import opened Wrappers
  import opened Externals
  import opened State
  import opened VisualEngineer
  import opened ABTestOrchestrator
  import opened Workflow

  /** An `HTTPException`; an uncaught exception is reported as status 500. */
  datatype HttpError = HttpError(statusCode: int, detail: string)

  const NoScripts := HttpError(400, "No scripts available for approval")
  const InvalidScriptId := HttpError(400, "Invalid selected_script_id")
  const NoThumbnails := HttpError(400, "No thumbnails available for selection")
  const InvalidThumbnailSelection := HttpError(400, "Invalid selected_thumbnail_id")
  const InvalidThumbnailId := HttpError(400, "Invalid thumbnail ID")
  const TestNotStarted := HttpError(400, "A/B test not started yet")
  const TestNotRunning := HttpError(400, "Test not running")
  const NoVariants := HttpError(400, "No variants to evaluate")
  const NotCompleted := HttpError(400, "Workflow not completed yet")
  /** `.get` called on the `None` stored under `ab_test`. */
  const NoneHasNoGet := HttpError(500, "'NoneType' object has no attribute 'get'")

  /** The statuses a record can be given. */
  const RecordStatuses: set<string> := {CompletedStep, AwaitingApproval, AwaitingThumbnailSelection, AbTesting, "running"}

  /** The statuses for which the client is asked to act. */
  const ActionStatuses: set<string> := {AwaitingApproval, AwaitingThumbnailSelection, AbTesting}

  /**
   * `_map_status`: the finished and the two waiting steps are their own status, both A/B steps
   * are "ab_testing", and every other step, an errored one included, is "running".
   */
  function MapStatus(step: string): (r: string)
    ensures r in RecordStatuses
    ensures step in {CompletedStep, AwaitingApproval, AwaitingThumbnailSelection} ==> r == step
    ensures step == AbTesting || step == AbTestComplete ==> r == AbTesting
    ensures step !in RecordStatuses && step != AbTestComplete ==> r == "running"
  {
    if step == CompletedStep then CompletedStep
    else if step == AwaitingApproval then AwaitingApproval
    else if step == AwaitingThumbnailSelection then AwaitingThumbnailSelection
    else if step == AbTesting || step == AbTestComplete then AbTesting
    else "running"
  }

  /** A status is mapped to itself, so mapping twice changes nothing. */
  lemma MapStatusIdempotent(step: string)
    ensures MapStatus(MapStatus(step)) == MapStatus(step)
  {
  }

  /** The `requires_action` of `_to_response`. */
  function RequiresAction(step: string): (r: Option<string>)
    ensures r.Some? <==> MapStatus(step) in ActionStatuses
    ensures step == AwaitingApproval ==> r == Some("script_approval")
    ensures step == AwaitingThumbnailSelection ==> r == Some("thumbnail_selection")
    ensures MapStatus(step) == AbTesting ==> r == Some("ab_test_monitoring")
  {
    if step == AwaitingApproval then Some("script_approval")
    else if step == AwaitingThumbnailSelection then Some("thumbnail_selection")
    else if step == AbTesting || step == AbTestComplete then Some("ab_test_monitoring")
    else None
  }

  /**
   * What a client is told at each point where a run stops: the two gates and the running test
   * ask for action, a finished workflow does not, and an errored one reads as "running".
   */
  lemma ResponsesAtSuspensions()
    ensures MapStatus(AwaitingApproval) == AwaitingApproval && RequiresAction(AwaitingApproval) == Some("script_approval")
    ensures MapStatus(AwaitingThumbnailSelection) == AwaitingThumbnailSelection
      && RequiresAction(AwaitingThumbnailSelection) == Some("thumbnail_selection")
    ensures MapStatus(AbTesting) == AbTesting && RequiresAction(AbTesting) == Some("ab_test_monitoring")
    ensures MapStatus(CompletedStep) == CompletedStep && RequiresAction(CompletedStep).None?
    ensures MapStatus(ErrorStep) == "running" && RequiresAction(ErrorStep).None?
  {
  }

  /** `_to_response` of the snapshot. */
  function ToResponse(s: WorkflowState): (r: WorkflowStatusResponse)
    reads s
    ensures r.workflowId == s.workflowId && r.currentStep == s.currentStep
    ensures r.status == MapStatus(s.currentStep) && r.requiresAction == RequiresAction(s.currentStep)
    ensures r.scripts == s.scriptVariants && r.selectedScriptId == s.selectedScriptId
    ensures r.thumbnails == s.thumbnailVariants && r.selectedThumbnailId == s.selectedThumbnailId
    ensures r.tokenUsage == s.tokenUsage
  {
    WorkflowStatusResponse(
      s.workflowId, MapStatus(s.currentStep), s.currentStep, RequiresAction(s.currentStep),
      s.scriptVariants, s.selectedScriptId, s.thumbnailVariants, s.selectedThumbnailId, s.tokenUsage)
  }

  predicate HasScriptId(scripts: seq<ScriptVariant>, id: string) {
    exists i :: 0 <= i < |scripts| && scripts[i].id == id
  }

  predicate HasThumbnailId(thumbnails: seq<ThumbnailVariant>, id: string) {
    exists i :: 0 <= i < |thumbnails| && thumbnails[i].id == id
  }

  /** `payload.selected_script_id or scripts[0].id`: an empty id counts as none. */
  function ChosenScriptId(selected: Option<string>, scripts: seq<ScriptVariant>): (id: string)
    requires scripts != []
    ensures Truthy(selected) ==> id == selected.value
    ensures !Truthy(selected) ==> id == scripts[0].id && HasScriptId(scripts, id)
  {
    if Truthy(selected) then selected.value else scripts[0].id
  }

  /**
   * The edit `approve_workflow` makes before resuming the run. Without scripts, or with an
   * approved id that is not one of them, it fails and the snapshot is untouched. An approval
   * records the script and approves it; a rejection clears the choice and rejects. Either way the
   * thumbnail choice starts over.
   */
  method ApplyScriptDecision(s: WorkflowState, request: ApproveRequest, now: int) returns (r: Result<(), HttpError>)
    modifies s`selectedScriptId, s`approval, s`selectedThumbnailId, s`updatedTs
    ensures s.scriptVariants == [] ==> r == Err(NoScripts)
    ensures (s.scriptVariants != [] && request.action == Approve
             && !HasScriptId(s.scriptVariants, ChosenScriptId(request.selectedScriptId, s.scriptVariants))) ==>
      r == Err(InvalidScriptId)
    ensures r.Err? ==>
      && s.selectedScriptId == old(s.selectedScriptId) && s.approval == old(s.approval)
      && s.selectedThumbnailId == old(s.selectedThumbnailId) && s.updatedTs == old(s.updatedTs)
    ensures r.Ok? && request.action == Approve ==>
      && s.selectedScriptId == Some(ChosenScriptId(request.selectedScriptId, s.scriptVariants))
      && HasScriptId(s.scriptVariants, s.selectedScriptId.value)
      && s.approval == ApprovalStatus(true, false, false)
    ensures r.Ok? && request.action == Reject ==>
      s.selectedScriptId.None? && s.approval == ApprovalStatus(false, true, false)
    ensures r.Ok? ==> s.scriptVariants != [] && s.selectedThumbnailId.None? && s.updatedTs == now
  {
    if s.scriptVariants == [] {
      return Err(NoScripts);
    }
    if request.action == Approve {
      var selectedId := ChosenScriptId(request.selectedScriptId, s.scriptVariants);
      if !HasScriptId(s.scriptVariants, selectedId) {
        return Err(InvalidScriptId);
      }
      s.selectedScriptId := Some(selectedId);
      s.approval := s.approval.(scriptsApproved := true);
      s.approval := s.approval.(scriptsRejected := false);
      s.selectedThumbnailId := None;
      s.approval := s.approval.(thumbnailsApproved := false);
    } else {
      s.selectedScriptId := None;
      s.approval := s.approval.(scriptsApproved := false);
      s.approval := s.approval.(scriptsRejected := true);
      s.selectedThumbnailId := None;
      s.approval := s.approval.(thumbnailsApproved := false);
    }
    s.updatedTs := now;
    r := Ok(());
  }

  /**
   * The edit `select_thumbnail` makes: without thumbnails, or with an id that is not one of
   * them, it fails and the snapshot is untouched; otherwise the thumbnail is chosen and approved.
   */
  method ApplyThumbnailChoice(s: WorkflowState, request: ThumbnailSelectRequest, now: int) returns (r: Result<(), HttpError>)
    modifies s`selectedThumbnailId, s`approval, s`updatedTs
    ensures s.thumbnailVariants == [] ==> r == Err(NoThumbnails)
    ensures s.thumbnailVariants != [] && !HasThumbnailId(s.thumbnailVariants, request.selectedThumbnailId) ==>
      r == Err(InvalidThumbnailSelection)
    ensures r.Ok? <==> HasThumbnailId(s.thumbnailVariants, request.selectedThumbnailId)
    ensures r.Err? ==>
      s.selectedThumbnailId == old(s.selectedThumbnailId) && s.approval == old(s.approval) && s.updatedTs == old(s.updatedTs)
    ensures r.Ok? ==>
      && s.selectedThumbnailId == Some(request.selectedThumbnailId)
      && s.approval == old(s.approval).(thumbnailsApproved := true) && s.updatedTs == now
  {
    if s.thumbnailVariants == [] {
      return Err(NoThumbnails);
    }
    if !HasThumbnailId(s.thumbnailVariants, request.selectedThumbnailId) {
      return Err(InvalidThumbnailSelection);
    }
    s.selectedThumbnailId := Some(request.selectedThumbnailId);
    s.approval := s.approval.(thumbnailsApproved := true);
    s.updatedTs := now;
    r := Ok(());
  }

  /** A run that raised is reported as a server error. */
  function RunFailure(error: string): HttpError {
    HttpError(500, error)
  }

  /**
   * `approve_workflow`. Outside the A/B phase an approval always stops at the thumbnail gate. A
   * rejection at the script gate stops at it again, with new scripts; one sent while thumbnails
   * are awaited does not reach the script gate, and the run waits for a thumbnail again.
   */
  method ApproveWorkflow(engine: ContentWorkflow, s: WorkflowState, request: ApproveRequest, c: Collaborators, uuids: UuidSource)
    returns (r: Result<WorkflowStatusResponse, HttpError>)
    modifies s, uuids
    ensures old(s.scriptVariants) == [] ==> r == Err(NoScripts) && unchanged(s)
    ensures (old(s.scriptVariants) != [] && request.action == Approve
             && !HasScriptId(old(s.scriptVariants), ChosenScriptId(request.selectedScriptId, old(s.scriptVariants)))) ==>
      r == Err(InvalidScriptId) && unchanged(s)
    ensures r.Ok? ==> r.value == ToResponse(s)
    ensures r.Ok? && !old(InAbPhase(s.abTest, s.currentStep)) ==>
      r.value.currentStep ==
        if request.action == Approve || old(s.currentStep) == AwaitingThumbnailSelection then AwaitingThumbnailSelection
        else AwaitingApproval
    ensures r.Ok? && old(InAbPhase(s.abTest, s.currentStep)) ==> r.value.currentStep in AbStops
  {
    var edited := ApplyScriptDecision(s, request, Trunc(c.now));
    if edited.Err? {
      return Err(edited.error);
    }
    var ran := engine.Run(s, c, uuids);
    if ran.Err? {
      return Err(RunFailure(ran.error));
    }
    r := Ok(ToResponse(s));
  }

  /** `select_thumbnail`: a valid non-empty choice always carries the run into the A/B test. */
  method SelectThumbnail(engine: ContentWorkflow, s: WorkflowState, request: ThumbnailSelectRequest, c: Collaborators, uuids: UuidSource)
    returns (r: Result<WorkflowStatusResponse, HttpError>)
    modifies s, uuids
    ensures old(s.thumbnailVariants) == [] ==> r == Err(NoThumbnails) && unchanged(s)
    ensures old(s.thumbnailVariants) != [] && !HasThumbnailId(old(s.thumbnailVariants), request.selectedThumbnailId) ==>
      r == Err(InvalidThumbnailSelection) && unchanged(s)
    ensures r.Ok? ==> r.value == ToResponse(s)
    ensures r.Ok? && request.selectedThumbnailId != "" ==> r.value.currentStep in AbStops
  {
    var edited := ApplyThumbnailChoice(s, request, Trunc(c.now));
    if edited.Err? {
      return Err(edited.error);
    }
    var ran := engine.Run(s, c, uuids);
    if ran.Err? {
      return Err(RunFailure(ran.error));
    }
    r := Ok(ToResponse(s));
  }

  /**
   * `declare_winner_manually`: the id must be one of the thumbnails. With an experiment the
   * override sends the run into the A/B phase; without one the snapshot routes as before.
   */
  method DeclareWinnerManually(engine: ContentWorkflow, s: WorkflowState, request: DeclareWinnerRequest, c: Collaborators, uuids: UuidSource)
    returns (r: Result<WorkflowStatusResponse, HttpError>)
    modifies s, uuids
    ensures !HasThumbnailId(old(s.thumbnailVariants), request.thumbnailId) ==> r == Err(InvalidThumbnailId) && unchanged(s)
    ensures r.Ok? ==> r.value == ToResponse(s)
    ensures r.Ok? && old(s.abTest).Some? ==> r.value.currentStep in AbStops
    ensures r.Ok? && old(s.abTest).None? ==>
      r.value.currentStep in Suspensions(
        old(RouteFromEntry(s.abTest, s.currentStep, s.selectedThumbnailId, s.thumbnailVariants, s.scriptVariants, s.approval)),
        old(s.approval), old(s.selectedThumbnailId))
  {
    if !HasThumbnailId(s.thumbnailVariants, request.thumbnailId) {
      return Err(InvalidThumbnailId);
    }
    ForceWinner(s, request.thumbnailId);
    s.updatedTs := Trunc(c.now);
    var ran := engine.Run(s, c, uuids);
    if ran.Err? {
      return Err(RunFailure(ran.error));
    }
    r := Ok(ToResponse(s));
  }

  /**
   * The arm `stop_ab_test` closes the test on, as written: the first arm of highest ctr of a
   * running test. A snapshot whose `ab_test` is `None` makes `.get` raise.
   */
  function StopTestPickAsWritten(abTest: Option<ABTestState>): (r: Result<string, HttpError>)
    ensures abTest.None? ==> r == Err(NoneHasNoGet)
    ensures abTest.Some? ==> r == StopTestPick(abTest)
  {
    if abTest.None? then Err(NoneHasNoGet) else StopTestPick(abTest)
  }

  /**
   * The arm `stop_ab_test` closes the test on, as intended: only a running test can be stopped,
   * only one with arms has a pick, and the pick is the first arm of highest ctr.
   */
  function StopTestPick(abTest: Option<ABTestState>): (r: Result<string, HttpError>)
    ensures r.Ok? <==> abTest.Some? && abTest.value.status == Running && abTest.value.variants != []
    ensures abTest.None? || abTest.value.status != Running ==> r == Err(TestNotRunning)
    ensures abTest.Some? && abTest.value.status == Running && abTest.value.variants == [] ==> r == Err(NoVariants)
    ensures r.Ok? ==>
      var vs := abTest.value.variants;
      exists i :: 0 <= i < |vs| && r.value == vs[i].thumbnailId
        && (forall j :: 0 <= j < |vs| ==> vs[j].ctr <= vs[i].ctr)
        && (forall j :: 0 <= j < i ==> vs[j].ctr < vs[i].ctr)
  {
    if abTest.None? || abTest.value.status != Running then Err(TestNotRunning)
    else if abTest.value.variants == [] then Err(NoVariants)
    else
      var vs := abTest.value.variants;
      var i := FirstMaxCtrIndex(vs);
      Ok(vs[i].thumbnailId)
  }

  /** The snapshot every new workflow starts from has `ab_test: None`: stopping its test is a server error. */
  lemma StopBeforeTestIsServerError()
    ensures StopTestPickAsWritten(None) == Err(NoneHasNoGet) && NoneHasNoGet.statusCode == 500
    ensures StopTestPick(None) == Err(TestNotRunning) && TestNotRunning.statusCode == 400
  {
  }

  /** The two readings differ only on a snapshot without an experiment. */
  lemma StopTestPickDiffersOnlyWithoutTest(abTest: Option<ABTestState>)
    ensures StopTestPickAsWritten(abTest) != StopTestPick(abTest) <==> abTest.None?
  {
  }

  /**
   * `stop_ab_test`: a running test with arms is closed on its best arm as a manual override, and
   * the run then follows the A/B phase. The request's `reason` is not read.
   */
  method StopAbTest(engine: ContentWorkflow, s: WorkflowState, request: StopTestRequest, c: Collaborators, uuids: UuidSource)
    returns (r: Result<WorkflowStatusResponse, HttpError>)
    modifies s, uuids
    ensures StopTestPick(old(s.abTest)).Err? ==> r == Err(StopTestPick(old(s.abTest)).error) && unchanged(s)
    ensures r.Ok? ==> r.value == ToResponse(s) && r.value.currentStep in AbStops
  {
    var pick := StopTestPick(s.abTest);
    if pick.Err? {
      return Err(pick.error);
    }
    ForceWinner(s, pick.value);
    s.updatedTs := Trunc(c.now);
    var ran := engine.Run(s, c, uuids);
    if ran.Err? {
      return Err(RunFailure(ran.error));
    }
    r := Ok(ToResponse(s));
  }

  /** `max_duration` of the status endpoint, in seconds. */
  const MaxDurationSeconds: int := 72 * 3600

  /** `max(0, max_duration - elapsed)` */
  function TimeRemaining(elapsed: real): (r: real)
    ensures r >= 0.0
    ensures elapsed < MaxDurationSeconds as real ==> r == MaxDurationSeconds as real - elapsed
    ensures elapsed >= MaxDurationSeconds as real ==> r == 0.0
  {
    if MaxDurationSeconds as real - elapsed > 0.0 then MaxDurationSeconds as real - elapsed else 0.0
  }

  /**
   * `get_ab_test_status` at time `now`: a 400 before the test starts; otherwise the record's
   * figures, how long it has run and has left (never negative), and whether a winner may be
   * declared early: once the confidence is above 0.90 or after the first hour.
   */
  function AbStatus(workflowId: string, abTest: Option<ABTestState>, now: real): (r: Result<ABTestStatusResponse, HttpError>)
    ensures r.Err? <==> abTest.None?
    ensures r.Err? ==> r.error == TestNotStarted
    ensures r.Ok? ==>
      var a := abTest.value;
      var elapsed := now - a.startedAt;
      && r.value.workflowId == workflowId && r.value.status == a.status
      && (r.value.isRunning <==> a.status == Running)
      && r.value.variants == a.variants && r.value.currentConfidence == a.confidence
      && r.value.totalImpressions == a.totalImpressions && r.value.winnerId == a.winnerId
      && r.value.checksCompleted == a.checkCount
      && r.value.elapsedTimeSeconds == Trunc(elapsed)
      && r.value.estimatedTimeRemaining >= 0
      && (elapsed >= MaxDurationSeconds as real ==> r.value.estimatedTimeRemaining == 0)
      && (elapsed < MaxDurationSeconds as real ==> r.value.estimatedTimeRemaining == Trunc(MaxDurationSeconds as real - elapsed))
      && (r.value.canDeclareEarly <==> a.confidence > 0.90 || elapsed > 3600.0)
  {
    if abTest.None? then Err(TestNotStarted)
    else
      var a := abTest.value;
      var elapsed := now - a.startedAt;
      var remaining := TimeRemaining(elapsed);
      TruncTowardZero(remaining);
      Ok(ABTestStatusResponse(
        workflowId, a.status, a.status == Running, a.variants, a.confidence, a.totalImpressions,
        a.winnerId, Trunc(elapsed), Trunc(remaining), a.checkCount, a.confidence > 0.90 || elapsed > 3600.0))
  }

  /** Until the deadline the whole seconds run and left add up to the 72 hours, or one second less. */
  lemma ElapsedPlusRemaining(workflowId: string, a: ABTestState, now: real)
    requires a.startedAt <= now < a.startedAt + MaxDurationSeconds as real
    ensures var st := AbStatus(workflowId, Some(a), now).value;
      MaxDurationSeconds - 1 <= st.elapsedTimeSeconds + st.estimatedTimeRemaining <= MaxDurationSeconds
  {
    var elapsed := now - a.startedAt;
    TruncTowardZero(elapsed);
    TruncTowardZero(MaxDurationSeconds as real - elapsed);
  }

  /** The time left never grows as the clock moves on. */
  lemma RemainingNeverGrows(workflowId: string, a: ABTestState, now: real, later: real)
    requires now <= later
    ensures AbStatus(workflowId, Some(a), later).value.estimatedTimeRemaining <= AbStatus(workflowId, Some(a), now).value.estimatedTimeRemaining
  {
    var e1 := now - a.startedAt;
    var e2 := later - a.startedAt;
    TruncTowardZero(TimeRemaining(e1));
    TruncTowardZero(TimeRemaining(e2));
    if e2 < MaxDurationSeconds as real {
      TruncMonotonic(TimeRemaining(e2), TimeRemaining(e1));
    }
  }

  /** `int(x)` is monotonic on non-negative values. */
  lemma TruncMonotonic(x: real, y: real)
    requires 0.0 <= x <= y
    ensures Trunc(x) <= Trunc(y)
  {
    TruncTowardZero(x);
    TruncTowardZero(y);
  }

  /** The status endpoint shows no time left once the orchestrator would time the test out. */
  lemma NoTimeLeftAtOrchestratorTimeout(workflowId: string, a: ABTestState, now: real)
    requires ElapsedMinutes(a, now) > (MaxTestDurationHours * 60) as real
    ensures AbStatus(workflowId, Some(a), now).value.estimatedTimeRemaining == 0
  {
  }

  /** The first thumbnail whose id is `id`: its index. */
  function FirstThumbnailWithId(thumbnails: seq<ThumbnailVariant>, id: string): (r: Option<nat>)
    ensures r.Some? ==> r.value < |thumbnails| && thumbnails[r.value].id == id
    ensures r.Some? ==> forall j :: 0 <= j < r.value ==> thumbnails[j].id != id
    ensures r.None? <==> !HasThumbnailId(thumbnails, id)
  {
    if thumbnails == [] then None
    else if thumbnails[0].id == id then Some(0)
    else
      var rest := FirstThumbnailWithId(thumbnails[1..], id);
      assert forall j :: 1 <= j < |thumbnails| ==> thumbnails[j] == thumbnails[1..][j - 1];
      if rest.Some? then Some(rest.value + 1) else None
  }

  /** `next((s for s in scripts if s["id"] == selected), None)`; no id is equal to `None`. */
  function WinningScript(scripts: seq<ScriptVariant>, selected: Option<string>): (r: Option<ScriptVariant>)
    ensures r.Some? <==> selected.Some? && HasScriptId(scripts, selected.value)
    ensures r.Some? ==>
      exists i :: (0 <= i < |scripts| && scripts[i] == r.value && r.value.id == selected.value
                   && forall j :: 0 <= j < i ==> scripts[j].id != selected.value)
  {
    if selected.None? then None
    else
      var i := FirstWithId(scripts, selected.value);
      if i.Some? then Some(scripts[i.value]) else None
  }

  /** The same search over the thumbnails. */
  function WinningThumbnail(thumbnails: seq<ThumbnailVariant>, selected: Option<string>): (r: Option<ThumbnailVariant>)
    ensures r.Some? <==> selected.Some? && HasThumbnailId(thumbnails, selected.value)
    ensures r.Some? ==>
      exists i :: (0 <= i < |thumbnails| && thumbnails[i] == r.value && r.value.id == selected.value
                   && forall j :: 0 <= j < i ==> thumbnails[j].id != selected.value)
  {
    if selected.None? then None
    else
      var i := FirstThumbnailWithId(thumbnails, selected.value);
      if i.Some? then Some(thumbnails[i.value]) else None
  }

  /**
   * `combined_ctr`: the comparison's treatment ctr when there is one and it is not zero (a zero
   * is falsy), otherwise the ctr of the first best arm, or `None` without arms.
   */
  function CombinedCtr(a: ABTestState): (r: Option<real>)
    ensures (a.finalStats.Some? && a.finalStats.value.FromComparison? && a.finalStats.value.stats.treatmentCtr != 0.0) ==>
      r == Some(a.finalStats.value.stats.treatmentCtr)
    ensures !(a.finalStats.Some? && a.finalStats.value.FromComparison? && a.finalStats.value.stats.treatmentCtr != 0.0) ==>
      && (r.Some? <==> a.variants != [])
      && (r.Some? ==>
            exists i :: (0 <= i < |a.variants| && r.value == a.variants[i].ctr
                         && forall j :: 0 <= j < |a.variants| ==> a.variants[j].ctr <= r.value))
  {
    var treatment := if a.finalStats.Some? && a.finalStats.value.FromComparison? then a.finalStats.value.stats.treatmentCtr else 0.0;
    if treatment != 0.0 then Some(treatment)
    else if a.variants != [] then
      var i := FirstMaxCtrIndex(a.variants);
      Some(a.variants[i].ctr)
    else None
  }

  /** The body `get_final_results` returns. */
  datatype FinalResults = FinalResults(
    workflowId: string, topic: string, script: Option<ScriptVariant>, thumbnail: Option<ThumbnailVariant>,
    combinedCtr: Option<real>, durationHours: real, totalImpressions: int, confidenceReached: real,
    wasManualOverride: bool)

  /**
   * `get_final_results`: only a completed workflow has results. They name the chosen script and
   * thumbnail when one with that id exists, and summarise the experiment; a snapshot without one
   * makes `.get` raise.
   */
  function FinalResultsOf(
    workflowId: string, topic: string, currentStep: string, scripts: seq<ScriptVariant>, selectedScriptId: Option<string>,
    thumbnails: seq<ThumbnailVariant>, selectedThumbnailId: Option<string>, abTest: Option<ABTestState>
  ): (r: Result<FinalResults, HttpError>)
    ensures currentStep != CompletedStep ==> r == Err(NotCompleted)
    ensures currentStep == CompletedStep && abTest.None? ==> r == Err(NoneHasNoGet)
    ensures r.Ok? <==> currentStep == CompletedStep && abTest.Some?
    ensures r.Ok? ==>
      var a := abTest.value;
      && r.value.workflowId == workflowId && r.value.topic == topic
      && r.value.script == WinningScript(scripts, selectedScriptId)
      && r.value.thumbnail == WinningThumbnail(thumbnails, selectedThumbnailId)
      && r.value.combinedCtr == CombinedCtr(a)
      && r.value.durationHours == (a.lastUpdated - a.startedAt) / 3600.0
      && r.value.totalImpressions == a.totalImpressions && r.value.confidenceReached == a.confidence
      && (r.value.wasManualOverride <==> a.status == ManualOverride)
  {
    if currentStep != CompletedStep then Err(NotCompleted)
    else if abTest.None? then Err(NoneHasNoGet)
    else
      var a := abTest.value;
      Ok(FinalResults(
        workflowId, topic, WinningScript(scripts, selectedScriptId), WinningThumbnail(thumbnails, selectedThumbnailId),
        CombinedCtr(a), (a.lastUpdated - a.startedAt) / 3600.0, a.totalImpressions, a.confidence,
        a.status == ManualOverride))
  }

  /**
   * After an override the results report it, and (an override keeping no comparison) the combined
   * ctr is the best arm's.
   */
  lemma OverrideResults(workflowId: string, topic: string, scripts: seq<ScriptVariant>, selectedScriptId: Option<string>,
    thumbnails: seq<ThumbnailVariant>, a: ABTestState, winner: string)
    requires a.variants != []
    ensures var r := FinalResultsOf(workflowId, topic, CompletedStep, scripts, selectedScriptId, thumbnails, Some(winner), Some(Forced(a, winner)));
      && r.Ok? && r.value.wasManualOverride
      && r.value.combinedCtr == Some(a.variants[FirstMaxCtrIndex(a.variants)].ctr)
      && (HasThumbnailId(thumbnails, winner) ==> r.value.thumbnail.Some? && r.value.thumbnail.value.id == winner)
  {
  }
}
