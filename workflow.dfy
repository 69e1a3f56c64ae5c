/**
 * The content workflow graph. Each invocation enters at the router, which picks where a resumed
 * run starts from the snapshot. The nodes then run along the graph's edges until an edge leads to
 * `END`: a human gate waiting for a decision, a running A/B test that waits for the next poll, an
 * error, or the finished workflow.
 */
module Workflow {
  import opened Wrappers
  import opened Externals
  import opened Strings
  import opened State
  import opened Config
  import opened TrendAnalyst
  import opened ScriptArchitect
  import opened VisualEngineer
  import opened ABTestOrchestrator
  import opened AgentBase

  const AbTesting := "ab_testing"
  const AbTestComplete := "ab_test_complete"
  const AwaitingApproval := "awaiting_approval"
  const AwaitingThumbnailSelection := "awaiting_thumbnail_selection"
  const CompletedStep := "completed"
  const ErrorStep := "error"

  /** The nodes of the graph, and `END`. */
  datatype Node =
    | EntryRouter | AnalyzeTrends | GenerateScripts | HumanGateScripts | GenerateThumbnails
    | HumanGateThumbnails | RunAbTest | CheckAbStatus | Finalize | End

  /** The labels of the router's conditional edge. */
  datatype EntryRoute = FromStart | FromScriptGate | FromThumbnailGate | FromAbTest

  datatype ScriptGateRoute = ScriptsApproved | ScriptsRejected | ScriptsPending

  datatype ThumbnailGateRoute = ThumbnailSelected | ThumbnailPending

  datatype AbCheckRoute = AbRunning | AbCompleted | AbError

  /** The router sends a run into the A/B test when there is an experiment or the step says so. */
  predicate InAbPhase(abTest: Option<ABTestState>, currentStep: string) {
    abTest.Some? || currentStep == AbTesting || currentStep == AbTestComplete
  }

  /** ... and otherwise back to the thumbnail gate when a thumbnail is chosen, awaited, or due. */
  predicate AtThumbnailGate(selectedThumbnailId: Option<string>, currentStep: string, thumbnails: seq<ThumbnailVariant>, approval: ApprovalStatus) {
    Truthy(selectedThumbnailId) || currentStep == AwaitingThumbnailSelection || (thumbnails != [] && approval.scriptsApproved)
  }

  /** ... and otherwise back to the script gate when there are scripts or a decision on them. */
  predicate AtScriptGate(scripts: seq<ScriptVariant>, approval: ApprovalStatus) {
    scripts != [] || approval.scriptsApproved || approval.scriptsRejected
  }

  /**
   * `_route_from_entry`: the first of its seven rules that applies. The A/B phase takes precedence
   * over everything, the thumbnail gate over the script gate, and only a snapshot with none of
   * them starts from the beginning. The route reads these fields of the snapshot and nothing else.
   */
  function RouteFromEntry(
    abTest: Option<ABTestState>, currentStep: string, selectedThumbnailId: Option<string>,
    thumbnails: seq<ThumbnailVariant>, scripts: seq<ScriptVariant>, approval: ApprovalStatus
  ): (r: EntryRoute)
    ensures r == FromAbTest <==> InAbPhase(abTest, currentStep)
    ensures r == FromThumbnailGate <==>
      !InAbPhase(abTest, currentStep) && AtThumbnailGate(selectedThumbnailId, currentStep, thumbnails, approval)
    ensures r == FromScriptGate <==>
      !InAbPhase(abTest, currentStep) && !AtThumbnailGate(selectedThumbnailId, currentStep, thumbnails, approval)
      && AtScriptGate(scripts, approval)
    ensures r == FromStart <==>
      !InAbPhase(abTest, currentStep) && !AtThumbnailGate(selectedThumbnailId, currentStep, thumbnails, approval)
      && !AtScriptGate(scripts, approval)
  {
    if abTest.Some? then FromAbTest
    else if currentStep == AbTesting || currentStep == AbTestComplete then FromAbTest
    else if Truthy(selectedThumbnailId) && abTest.None? then FromThumbnailGate
    else if currentStep == AwaitingThumbnailSelection then FromThumbnailGate
    else if thumbnails != [] && approval.scriptsApproved then FromThumbnailGate
    else if scripts != [] then FromScriptGate
    else if approval.scriptsApproved || approval.scriptsRejected then FromScriptGate
    else FromStart
  }

  /** `_route_after_script_gate`: approval beats rejection. */
  function RouteAfterScriptGate(approval: ApprovalStatus): (r: ScriptGateRoute)
    ensures r == ScriptsApproved <==> approval.scriptsApproved
    ensures r == ScriptsRejected <==> !approval.scriptsApproved && approval.scriptsRejected
  {
    if approval.scriptsApproved then ScriptsApproved
    else if approval.scriptsRejected then ScriptsRejected
    else ScriptsPending
  }

  /** The step `_human_gate_scripts` writes for each way out of the gate. */
  function ScriptGateStep(r: ScriptGateRoute): string {
    match r
    case ScriptsApproved => "approved"
    case ScriptsRejected => "scripts_rejected"
    case ScriptsPending => AwaitingApproval
  }

  /** `_route_after_thumbnail_gate` */
  function RouteAfterThumbnailGate(selectedThumbnailId: Option<string>): (r: ThumbnailGateRoute)
    ensures r == ThumbnailSelected <==> Truthy(selectedThumbnailId)
  {
    if Truthy(selectedThumbnailId) then ThumbnailSelected else ThumbnailPending
  }

  /**
   * `_route_after_ab_check`: a finished experiment goes to `finalize`; otherwise recorded errors
   * end the run as an error, and a running (or absent) experiment waits for the next poll.
   */
  function RouteAfterAbCheck(abTest: Option<ABTestState>, errors: seq<string>): (r: AbCheckRoute)
    ensures r == AbCompleted <==> abTest.Some? && IsTerminal(abTest.value.status)
    ensures r == AbError <==> !(abTest.Some? && IsTerminal(abTest.value.status)) && errors != []
  {
    var status := if abTest.Some? then abTest.value.status else Running;
    if status == Completed || status == Timeout || status == ManualOverride then AbCompleted
    else if errors != [] then AbError
    else AbRunning
  }

  const AsyncSqliteUrlPrefix := "sqlite+aiosqlite:///"

  /** `_checkpoint_target`: the sqlite file of the checkpoint URL, or the URL itself. */
  function CheckpointTarget(conn: string): (r: string)
    ensures StartsWith(conn, AsyncSqliteUrlPrefix) ==> r == conn[|AsyncSqliteUrlPrefix|..]
    ensures !StartsWith(conn, AsyncSqliteUrlPrefix) ==> r == conn
  {
    if StartsWith(conn, AsyncSqliteUrlPrefix) then
      ReplaceFirstAtStart(conn, AsyncSqliteUrlPrefix, "");
      assert "" + conn[|AsyncSqliteUrlPrefix|..] == conn[|AsyncSqliteUrlPrefix|..];
      ReplaceFirst(conn, AsyncSqliteUrlPrefix, "")
    else conn
  }

  /** The prefix is removed once only: a doubled prefix leaves one behind. */
  lemma CheckpointTargetRemovesOnce(rest: string)
    ensures CheckpointTarget(AsyncSqliteUrlPrefix + AsyncSqliteUrlPrefix + rest) == AsyncSqliteUrlPrefix + rest
  {
    var conn := AsyncSqliteUrlPrefix + AsyncSqliteUrlPrefix + rest;
    assert conn[..|AsyncSqliteUrlPrefix|] == AsyncSqliteUrlPrefix;
    assert conn[|AsyncSqliteUrlPrefix|..] == AsyncSqliteUrlPrefix + rest;
  }

  /** Where a run of the A/B-test node can stop: polling again, an error, or the finished workflow. */
  const AbStops: set<string> := {AbTesting, ErrorStep, CompletedStep}

  /**
   * The steps at which an invocation can stop, from how the router routes the snapshot it is
   * given. A fresh or rejected run generates scripts and waits for approval, in the same
   * invocation; an approved one makes thumbnails and waits for a choice; a chosen thumbnail goes
   * on into the A/B test, which stops polling, in error, or completed.
   */
  function Suspensions(route: EntryRoute, approval: ApprovalStatus, selectedThumbnailId: Option<string>): set<string> {
    match route
    case FromStart => {AwaitingApproval}
    case FromScriptGate => if approval.scriptsApproved then {AwaitingThumbnailSelection} else {AwaitingApproval}
    case FromThumbnailGate => if Truthy(selectedThumbnailId) then AbStops else {AwaitingThumbnailSelection}
    case FromAbTest => AbStops
  }

  /** Every suspension point is a step the workflow API reports to the client as waiting or done. */
  lemma SuspensionsAreWaitingSteps(route: EntryRoute, approval: ApprovalStatus, selectedThumbnailId: Option<string>)
    ensures Suspensions(route, approval, selectedThumbnailId) <= {AwaitingApproval, AwaitingThumbnailSelection, AbTesting, ErrorStep, CompletedStep}
    ensures route == FromScriptGate && approval.scriptsRejected && !approval.scriptsApproved ==>
      Suspensions(route, approval, selectedThumbnailId) == {AwaitingApproval}
  {
  }

  /** The steps a run can still stop at from `node` with the snapshot as it is now. */
  ghost function StopsAt(node: Node, s: WorkflowState): set<string>
    reads s
  {
    match node
    case EntryRouter =>
      Suspensions(
        RouteFromEntry(s.abTest, s.currentStep, s.selectedThumbnailId, s.thumbnailVariants, s.scriptVariants, s.approval),
        s.approval, s.selectedThumbnailId)
    case AnalyzeTrends => {AwaitingApproval}
    case GenerateScripts => {AwaitingApproval}
    case HumanGateScripts => if s.approval.scriptsApproved then {AwaitingThumbnailSelection} else {AwaitingApproval}
    case GenerateThumbnails => {AwaitingThumbnailSelection}
    case HumanGateThumbnails => if Truthy(s.selectedThumbnailId) then AbStops else {AwaitingThumbnailSelection}
    case RunAbTest => AbStops
    case CheckAbStatus => if RouteAfterAbCheck(s.abTest, s.errors) == AbCompleted then {CompletedStep} else {s.currentStep}
    case Finalize => {CompletedStep}
    case End => {s.currentStep}
  }

  /**
   * The termination measure of a run: every edge goes down, including the one back from a
   * rejecting script gate to `generate_scripts`, because generation clears both script flags.
   */
  ghost function Rank(node: Node, s: WorkflowState): nat
    reads s
  {
    match node
    case EntryRouter => 10
    case AnalyzeTrends => 9
    case GenerateScripts => 8
    case HumanGateScripts => if s.approval.scriptsRejected && !s.approval.scriptsApproved then 9 else 7
    case GenerateThumbnails => 6
    case HumanGateThumbnails => 5
    case RunAbTest => 4
    case CheckAbStatus => 3
    case Finalize => 2
    case End => 0
  }

  /** `_entry_router` and `_check_ab_status`: they only refresh `updated_ts`. */
  method Touch(s: WorkflowState, now: real)
    modifies s`updatedTs
    ensures s.updatedTs == Trunc(now)
  {
    s.updatedTs := Trunc(now);
  }

  /**
   * `_human_gate_scripts`: the step records the way out of the gate, so the two always agree. A
   * rejection also throws away the thumbnails, their selection and their approval flag.
   */
  method HumanGateScriptsNode(s: WorkflowState, now: real)
    modifies s`currentStep, s`thumbnailVariants, s`selectedThumbnailId, s`approval, s`updatedTs
    ensures s.currentStep == ScriptGateStep(RouteAfterScriptGate(s.approval))
    ensures RouteAfterScriptGate(s.approval) == RouteAfterScriptGate(old(s.approval))
    ensures RouteAfterScriptGate(s.approval) == ScriptsRejected ==>
      && s.thumbnailVariants == [] && s.selectedThumbnailId.None?
      && s.approval == old(s.approval).(thumbnailsApproved := false)
    ensures RouteAfterScriptGate(s.approval) != ScriptsRejected ==>
      && s.thumbnailVariants == old(s.thumbnailVariants) && s.selectedThumbnailId == old(s.selectedThumbnailId)
      && s.approval == old(s.approval)
    ensures s.updatedTs == Trunc(now)
  {
    if s.approval.scriptsApproved {
      s.currentStep := "approved";
    } else if s.approval.scriptsRejected {
      s.currentStep := "scripts_rejected";
      s.thumbnailVariants := [];
      s.selectedThumbnailId := None;
      s.approval := s.approval.(thumbnailsApproved := false);
    } else {
      s.currentStep := AwaitingApproval;
    }
    s.updatedTs := Trunc(now);
  }

  /** `_human_gate_thumbnails`: the approval flag is exactly "a thumbnail is chosen", and so is the route. */
  method HumanGateThumbnailsNode(s: WorkflowState, now: real)
    modifies s`approval, s`currentStep, s`updatedTs
    ensures s.approval == old(s.approval).(thumbnailsApproved := Truthy(s.selectedThumbnailId))
    ensures s.currentStep == if Truthy(s.selectedThumbnailId) then "thumbnail_selected" else AwaitingThumbnailSelection
    ensures (RouteAfterThumbnailGate(s.selectedThumbnailId) == ThumbnailSelected) == s.approval.thumbnailsApproved
    ensures s.updatedTs == Trunc(now)
  {
    if Truthy(s.selectedThumbnailId) {
      s.approval := s.approval.(thumbnailsApproved := true);
      s.currentStep := "thumbnail_selected";
    } else {
      s.approval := s.approval.(thumbnailsApproved := false);
      s.currentStep := AwaitingThumbnailSelection;
    }
    s.updatedTs := Trunc(now);
  }

  /**
   * `_finalize`: the workflow is completed, and a non-empty winner becomes the selected
   * thumbnail. Without an experiment `.get` is called on `None` and raises (`Err`) after the step
   * is written.
   */
  method FinalizeNode(s: WorkflowState, now: real) returns (r: Result<(), string>)
    modifies s`currentStep, s`selectedThumbnailId, s`updatedTs
    ensures s.currentStep == CompletedStep
    ensures r.Err? <==> old(s.abTest).None?
    ensures r.Ok? && Truthy(s.abTest.value.winnerId) ==> s.selectedThumbnailId == s.abTest.value.winnerId
    ensures r.Err? || !Truthy(s.abTest.value.winnerId) ==> s.selectedThumbnailId == old(s.selectedThumbnailId)
    ensures s.updatedTs == if r.Ok? then Trunc(now) else old(s.updatedTs)
  {
    s.currentStep := CompletedStep;
    if s.abTest.None? {
      return Err("'NoneType' object has no attribute 'get'");
    }
    if Truthy(s.abTest.value.winnerId) {
      s.selectedThumbnailId := s.abTest.value.winnerId;
    }
    s.updatedTs := Trunc(now);
    r := Ok(());
  }

  /** The graph: the four agents and the nodes and edges between them. */
  class ContentWorkflow {
    const scriptArchitect: ScriptArchitectAgent
    const visualEngineer: VisualEngineerAgent

    /** `__init__`: every agent is built from the same settings. */
    constructor (settings: Settings)
      ensures scriptArchitect.provider == settings.llmProvider
      ensures scriptArchitect.hasOpenAiClient <==> settings.llmProvider == "openai" && settings.openAiApiKey != ""
      ensures visualEngineer.baseUrl == RStripChar(settings.pollinationsBaseUrl, '/')
      ensures visualEngineer.width == settings.thumbnailWidth && visualEngineer.height == settings.thumbnailHeight
    {
      scriptArchitect := new ScriptArchitectAgent(settings);
      visualEngineer := new VisualEngineerAgent(settings);
    }

    /**
     * `generate_scripts`: the script architect's `run`, with its contract; the graph reads the
     * cleared script flags.
     */
    method GenerateScriptsNode(s: WorkflowState, c: Collaborators, uuids: UuidSource)
      modifies s`scriptVariants, s`selectedScriptId, s`approval, s`thumbnailVariants, s`selectedThumbnailId
      modifies s`tokenUsage, s`currentStep, s`updatedTs, uuids`drawn
      ensures WellFormedScripts(s.scriptVariants)
      ensures s.selectedScriptId.None? && s.approval == ApprovalStatus(false, false, false)
      ensures s.thumbnailVariants == [] && s.selectedThumbnailId.None?
      ensures s.currentStep == "scripts_generated" && s.updatedTs == Trunc(c.now)
      ensures s.tokenUsage == MergeTokenUsage(old(s.tokenUsage),
        if scriptArchitect.FellBack(c) then ZeroUsage() else scriptArchitect.ReplyUsage(c))
      ensures scriptArchitect.FellBack(c) ==> IsFallback(s.scriptVariants, s.topic, TrendHooks(s.trendData), uuids.ids, uuids.drawn)
      ensures !scriptArchitect.FellBack(c) ==>
        ParsedScripts(SafeJsonLoad(scriptArchitect.ReplyText(c), c.jsonLoads), s.topic, TrendHooks(s.trendData), uuids.ids, old(uuids.drawn))
          == Ok(s.scriptVariants)
    {
      scriptArchitect.Run(s, c, uuids);
    }

    /**
     * `generate_thumbnails`: the visual engineer's `run`, with its contract; the graph reads the
     * cleared selection.
     */
    method GenerateThumbnailsNode(s: WorkflowState, c: Collaborators, uuids: UuidSource)
      modifies s`thumbnailVariants, s`selectedThumbnailId, s`approval, s`currentStep, s`updatedTs, uuids`drawn
      ensures var k := old(uuids.drawn) + (if old(s.scriptVariants) == [] then 1 else 0);
        var hook := ResolvedScript(old(s.selectedScriptId), old(s.scriptVariants), s.topic, uuids.ids(old(uuids.drawn))).hook;
        && s.thumbnailVariants == visualEngineer.Thumbnails(PromptSpecs, Seeds(s.workflowId, c.sha256Hex, |PromptSpecs|), s.topic, hook, c, uuids.ids, k, |PromptSpecs|)
        && uuids.drawn == k + |PromptSpecs|
      ensures s.selectedThumbnailId.None?
      ensures s.approval == old(s.approval).(thumbnailsApproved := false)
      ensures s.currentStep == "thumbnails_generated" && s.updatedTs == Trunc(c.now)
    {
      visualEngineer.Run(s, c, uuids);
    }

    /** `generate_scripts` and its edge to the script gate, as `Step` needs them. */
    method GenerateScriptsEdge(s: WorkflowState, c: Collaborators, uuids: UuidSource) returns (next: Node)
      modifies s, uuids
      ensures next == HumanGateScripts
      ensures Rank(next, s) < old(Rank(GenerateScripts, s))
      ensures StopsAt(next, s) <= old(StopsAt(GenerateScripts, s))
    {
      GenerateScriptsNode(s, c, uuids);
      next := HumanGateScripts;
    }

    /** `generate_thumbnails` and its edge to the thumbnail gate, as `Step` needs them. */
    method GenerateThumbnailsEdge(s: WorkflowState, c: Collaborators, uuids: UuidSource) returns (next: Node)
      modifies s, uuids
      ensures next == HumanGateThumbnails
      ensures Rank(next, s) < old(Rank(GenerateThumbnails, s))
      ensures StopsAt(next, s) <= old(StopsAt(GenerateThumbnails, s))
    {
      GenerateThumbnailsNode(s, c, uuids);
      next := HumanGateThumbnails;
    }

    /**
     * `run_ab_test` as the graph sees it: unless it raises, it leaves the step at "error" or
     * "ab_testing", or at "ab_test_complete" with a finished experiment.
     */
    method RunAbTestNode(s: WorkflowState, c: Collaborators) returns (r: Result<(), string>)
      modifies s
      ensures r.Ok? ==>
        || s.currentStep == ErrorStep || s.currentStep == AbTesting
        || (s.currentStep == AbTestComplete && s.abTest.Some? && IsTerminal(s.abTest.value.status))
    {
      r := Process(s, c);
    }

    /**
     * One node and the edge out of it. Unless the node raises, the measure goes down and the set of
     * steps the run can still stop at does not grow.
     */
    method Step(node: Node, s: WorkflowState, c: Collaborators, uuids: UuidSource) returns (next: Node, r: Result<(), string>)
      requires node != End
      modifies s, uuids
      ensures r.Ok? ==> Rank(next, s) < old(Rank(node, s))
      ensures r.Ok? ==> StopsAt(next, s) <= old(StopsAt(node, s))
    {
      r := Ok(());
      match node
      case EntryRouter =>
        Touch(s, c.now);
        next := match RouteFromEntry(s.abTest, s.currentStep, s.selectedThumbnailId, s.thumbnailVariants, s.scriptVariants, s.approval)
          case FromStart => AnalyzeTrends
          case FromScriptGate => HumanGateScripts
          case FromThumbnailGate => HumanGateThumbnails
          case FromAbTest => RunAbTest;
      case AnalyzeTrends =>
        TrendAnalyst.Run(s, c.now);
        next := GenerateScripts;
      case GenerateScripts =>
        next := GenerateScriptsEdge(s, c, uuids);
      case HumanGateScripts =>
        HumanGateScriptsNode(s, c.now);
        next := match RouteAfterScriptGate(s.approval)
          case ScriptsApproved => GenerateThumbnails
          case ScriptsRejected => GenerateScripts
          case ScriptsPending => End;
      case GenerateThumbnails =>
        next := GenerateThumbnailsEdge(s, c, uuids);
      case HumanGateThumbnails =>
        HumanGateThumbnailsNode(s, c.now);
        next := if RouteAfterThumbnailGate(s.selectedThumbnailId) == ThumbnailSelected then RunAbTest else End;
      case RunAbTest =>
        r := RunAbTestNode(s, c);
        next := CheckAbStatus;
      case CheckAbStatus =>
        Touch(s, c.now);
        next := if RouteAfterAbCheck(s.abTest, s.errors) == AbCompleted then Finalize else End;
      case Finalize =>
        r := FinalizeNode(s, c.now);
        next := End;
    }

    /**
     * `run`: one invocation from the router to `END`. It always ends. Unless a node raises, it
     * stops at one of the suspension points the router's route predicts for the snapshot it was
     * given.
     */
    method Run(s: WorkflowState, c: Collaborators, uuids: UuidSource) returns (r: Result<(), string>)
      modifies s, uuids
      ensures r.Ok? ==> s.currentStep in Suspensions(
        old(RouteFromEntry(s.abTest, s.currentStep, s.selectedThumbnailId, s.thumbnailVariants, s.scriptVariants, s.approval)),
        old(s.approval), old(s.selectedThumbnailId))
    {
      ghost var target := StopsAt(EntryRouter, s);
      var node := EntryRouter;
      r := Ok(());
      while node != End
        invariant StopsAt(node, s) <= target
        decreases Rank(node, s)
      {
        var next, result := Step(node, s, c, uuids);
        if result.Err? {
          return result;
        }
        node := next;
      }
    }
  }
}
