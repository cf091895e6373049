/**
 * The banner shown above an issue stream when a project has processing
 * issues. Three counters are examined in a fixed order (blocking issues,
 * events being reprocessed, events pending reprocessing); the first positive
 * one chooses the alert kind, its icon and text, and whether a "Show details"
 * button linking to the project's processing-issues settings is shown.
 * With no positive counter nothing is rendered.
 */
module ProcessingIssueHint {
  import opened Wrappers
  import opened Strings

  datatype ProcessingIssue = ProcessingIssue(
    numIssues: int,
    issuesProcessing: int,
    resolveableIssues: int,
    lastSeen: string)

  datatype AlertType = Error | Info | Warning

  /** The alert's icon and its colour. */
  datatype Icon = IconWarning(color: string) | IconSettings(color: string)

  /** The bold text, by message and the count it is pluralised on. */
  datatype HintText =
    | BlockingEventProcessing(count: int)
    | ReprocessingEvents(count: int)
    | PendingReprocessing(count: int)

  /**
   * What the component renders: the alert kind and icon, the project prefix
   * (when asked for), the text, the "last event from ..." note (the time it
   * shows), and the details button (the page it links to).
   */
  datatype Hint = Hint(
    alertType: AlertType,
    icon: Icon,
    project: Option<string>,
    text: HintText,
    lastEvent: Option<string>,
    detailsButton: Option<string>)

  /** The settings page listing a project's processing issues. */
  function DetailsLink(orgId: string, projectId: string): (link: string)
    ensures StartsWith(link, "/settings/")
  {
    "/settings/" + orgId + "/projects/" + projectId + "/processing-issues/"
  }

  /** When the organization slug has no '/', the link names the organization and project it was built from. */
  lemma DetailsLinkNamesOrganization(orgId: string, projectId: string)
    requires '/' !in orgId
    ensures SplitFirst(DetailsLink(orgId, projectId)[|"/settings/"|..], '/')
            == Some((orgId, "projects/" + projectId + "/processing-issues/"))
  {
    var link := DetailsLink(orgId, projectId);
    assert link[|"/settings/"|..] == orgId + ['/'] + ("projects/" + projectId + "/processing-issues/");
    SplitFirstJoin(orgId, '/', "projects/" + projectId + "/processing-issues/");
  }

  /**
   * `ProcessingIssueHint`: None when the component renders nothing.
   */
  function RenderHint(orgId: string, projectId: string, issue: ProcessingIssue, showProject: bool): (r: Option<Hint>)
    ensures r.None? <==> issue.numIssues <= 0 && issue.issuesProcessing <= 0 && issue.resolveableIssues <= 0
    ensures issue.numIssues > 0 ==>
              r.Some? && r.value.alertType == Error && r.value.icon == IconWarning("red300")
              && r.value.text == BlockingEventProcessing(issue.numIssues)
    ensures issue.numIssues <= 0 && issue.issuesProcessing > 0 ==>
              r.Some? && r.value.alertType == Info && r.value.icon == IconSettings("blue300")
              && r.value.text == ReprocessingEvents(issue.issuesProcessing)
    ensures issue.numIssues <= 0 && issue.issuesProcessing <= 0 && issue.resolveableIssues > 0 ==>
              r.Some? && r.value.alertType == Warning && r.value.icon == IconSettings("yellow300")
              && r.value.text == PendingReprocessing(issue.resolveableIssues)
    ensures r.Some? ==> (r.value.detailsButton.Some? <==> r.value.alertType != Info)
    ensures r.Some? && r.value.detailsButton.Some? ==> r.value.detailsButton.value == DetailsLink(orgId, projectId)
    ensures r.Some? ==> (r.value.lastEvent.Some? <==> r.value.alertType == Error)
    ensures r.Some? && r.value.lastEvent.Some? ==> r.value.lastEvent.value == issue.lastSeen
    ensures r.Some? ==> (r.value.project.Some? <==> showProject)
    ensures r.Some? && showProject ==> r.value.project == Some(projectId)
  {
    var link := DetailsLink(orgId, projectId);
    var project := if showProject then Some(projectId) else None;
    if issue.numIssues > 0 then
      Some(Hint(Error, IconWarning("red300"), project, BlockingEventProcessing(issue.numIssues),
                Some(issue.lastSeen), Some(link)))
    else if issue.issuesProcessing > 0 then
      Some(Hint(Info, IconSettings("blue300"), project, ReprocessingEvents(issue.issuesProcessing),
                None, None))
    else if issue.resolveableIssues > 0 then
      Some(Hint(Warning, IconSettings("yellow300"), project, PendingReprocessing(issue.resolveableIssues),
                None, Some(link)))
    else
      None
  }

  // ---------------------------------------------------------------------
  // The priority rule, stated independently

  /** The position of the first positive counter, if any. */
  function FirstPositive(counters: seq<int>): (r: Option<nat>)
    ensures r.None? <==> forall k :: 0 <= k < |counters| ==> counters[k] <= 0
    ensures r.Some? ==> r.value < |counters| && counters[r.value] > 0
                        && forall k :: 0 <= k < r.value ==> counters[k] <= 0
  {
    if counters == [] then None
    else if counters[0] > 0 then Some(0)
    else match FirstPositive(counters[1..])
      case None => None
      case Some(k) => Some(k + 1)
  }

  /** The alert kind each counter stands for, in the order they are examined. */
  function AlertFor(position: nat): AlertType
    requires position < 3
  {
    [Error, Info, Warning][position]
  }

  /** The hint's alert kind is the one of the first positive counter, and there is a hint exactly when one is positive. */
  lemma HintFollowsFirstPositiveCounter(orgId: string, projectId: string, issue: ProcessingIssue, showProject: bool)
    ensures var first := FirstPositive([issue.numIssues, issue.issuesProcessing, issue.resolveableIssues]);
            var r := RenderHint(orgId, projectId, issue, showProject);
            && (r.None? <==> first.None?)
            && (first.Some? ==> first.value < 3 && r.Some? && r.value.alertType == AlertFor(first.value))
  {
    var counters := [issue.numIssues, issue.issuesProcessing, issue.resolveableIssues];
    var first := FirstPositive(counters);
    if first.Some? {
      var k := first.value;
      assert counters[k] > 0;
      if k == 1 {
        assert counters[0] <= 0;
      } else if k == 2 {
        assert counters[0] <= 0 && counters[1] <= 0;
      }
    } else {
      assert counters[0] <= 0 && counters[1] <= 0 && counters[2] <= 0;
    }
  }
}
