/**
 * The dashboard card of one workflow: the status pill, the action button's text and where the
 * button leads. The card shows the status the backend stored for the record.
 */
module WorkflowCard {
  import opened Wrappers
  import opened WorkflowsApi

  /** The status pill: its CSS classes, its text, and whether it pulses (an absent flag is false). */
  datatype StatusPill = StatusPill(className: string, text: string, isPulsing: bool)

  const KnownStatuses: set<string> := {"completed", "awaiting_approval", "awaiting_thumbnail_selection", "ab_testing", "running"}

  /** `statusDisplay`: a fixed pill per known status; any other status is shown as it is, as running. */
  function StatusDisplay(status: string): (p: StatusPill)
    ensures p.isPulsing <==> status == "ab_testing"
    ensures status == "completed" ==> p == StatusPill("status-pill status-done", "Ready to Publish", false)
    ensures status == "awaiting_approval" ==> p == StatusPill("status-pill status-pending", "Scripts Ready", false)
    ensures status == "awaiting_thumbnail_selection" ==> p == StatusPill("status-pill status-urgent", "Select Thumbnail", false)
    ensures status == "ab_testing" ==> p == StatusPill("status-pill status-running", "A/B Testing", true)
    ensures status == "running" ==> p == StatusPill("status-pill status-running", "Processing", false)
    ensures status !in KnownStatuses ==> p == StatusPill("status-pill status-running", status, false)
  {
    match status
    case "completed" => StatusPill("status-pill status-done", "Ready to Publish", false)
    case "awaiting_approval" => StatusPill("status-pill status-pending", "Scripts Ready", false)
    case "awaiting_thumbnail_selection" => StatusPill("status-pill status-urgent", "Select Thumbnail", false)
    case "ab_testing" => StatusPill("status-pill status-running", "A/B Testing", true)
    case "running" => StatusPill("status-pill status-running", "Processing", false)
    case _ => StatusPill("status-pill status-running", status, false)
  }

  /** `getActionText` */
  function ActionText(status: string): (r: string)
    ensures r in {"View", "Review", "Monitor"}
    ensures r == "Review" <==> status == "awaiting_approval" || status == "awaiting_thumbnail_selection"
    ensures r == "Monitor" <==> status == "ab_testing"
  {
    match status
    case "completed" => "View"
    case "awaiting_approval" => "Review"
    case "awaiting_thumbnail_selection" => "Review"
    case "ab_testing" => "Monitor"
    case _ => "View"
  }

  function WorkflowPage(workflowId: string): string {
    "/workflows/" + workflowId
  }

  function AbTestPage(workflowId: string): string {
    "/workflows/" + workflowId + "/ab-test"
  }

  /** Where the card's button leads: the A/B page for a test in progress, the workflow page otherwise. */
  function LinkTarget(workflowId: string, status: string): (r: string)
    ensures r == AbTestPage(workflowId) <==> status == "ab_testing"
    ensures r != AbTestPage(workflowId) ==> r == WorkflowPage(workflowId)
  {
    if status == "ab_testing" then AbTestPage(workflowId) else WorkflowPage(workflowId)
  }

  /**
   * Every status the backend gives a record has its own pill, never the fallback, and the pill
   * pulses exactly when the client is asked to monitor a test.
   */
  lemma CardKnowsEveryRecordStatus(step: string)
    ensures MapStatus(step) in KnownStatuses
    ensures StatusDisplay(MapStatus(step)).text != MapStatus(step)
    ensures StatusDisplay(MapStatus(step)).isPulsing <==> RequiresAction(step) == Some("ab_test_monitoring")
  {
  }

  /** The button asks for review exactly when the backend asks for a decision, and to monitor when it asks to monitor. */
  lemma ActionMatchesRequiredAction(step: string)
    ensures ActionText(MapStatus(step)) == "Review" <==>
      RequiresAction(step) == Some("script_approval") || RequiresAction(step) == Some("thumbnail_selection")
    ensures ActionText(MapStatus(step)) == "Monitor" <==> RequiresAction(step) == Some("ab_test_monitoring")
    ensures ActionText(MapStatus(step)) == "View" <==> RequiresAction(step).None?
  {
  }

  /** The button leads to the A/B page exactly when it says "Monitor". */
  lemma LinkFollowsAction(workflowId: string, status: string)
    ensures LinkTarget(workflowId, status) == AbTestPage(workflowId) <==> ActionText(status) == "Monitor"
  {
  }
}
