/**
 * The breadcrumb trail shown under the navigation header: Dashboard, then
 * the case being worked on, then the current page; hidden on the dashboard.
 */
module Breadcrumbs {
  import opened Base

  const DashboardPath := "/dashboard-case-management-overview"
  const CreateCasePath := "/create-new-case-form"

  datatype Route = Route(name: string, icon: string)

  /** The keys of `routeMap`. */
  const KnownPaths := [
    DashboardPath,
    CreateCasePath,
    "/expert-matching-panel",
    "/swarm-room-real-time-collaboration",
    "/case-timeline-activity-tracking",
    "/postmortem-analysis-documentation"]

  /** `routeMap[path]`: the name and icon of each known page. */
  function RouteFor(path: string): (r: Option<Route>)
    ensures path == DashboardPath ==> r == Some(Route("Dashboard", "LayoutDashboard"))
    ensures path == CreateCasePath ==> r == Some(Route("Create Case", "Plus"))
    ensures r.Some? <==> path in KnownPaths
  {
    match path
    case "/dashboard-case-management-overview" => Some(Route("Dashboard", "LayoutDashboard"))
    case "/create-new-case-form" => Some(Route("Create Case", "Plus"))
    case "/expert-matching-panel" => Some(Route("Expert Matching", "Users"))
    case "/swarm-room-real-time-collaboration" => Some(Route("Swarm Room", "MessageSquare"))
    case "/case-timeline-activity-tracking" => Some(Route("Timeline", "Clock"))
    case "/postmortem-analysis-documentation" => Some(Route("Postmortem", "FileText"))
    case _ => None
  }

  /** A crumb; a missing path is `null`. */
  datatype Crumb = Crumb(
    name: string,
    path: Option<string>,
    icon: string,
    isClickable: bool,
    isCaseContext: bool,
    isCurrent: bool)

  /** The case crumb appears for a case id (the empty string is no id) outside the dashboard and the create form. */
  predicate ShowsCase(currentPath: string, caseId: string)
  {
    caseId != "" && currentPath != DashboardPath && currentPath != CreateCasePath
  }

  /** The page crumb appears on every known page but the dashboard. */
  predicate ShowsPage(currentPath: string)
  {
    currentPath != DashboardPath && RouteFor(currentPath).Some?
  }

  /** The case crumb's name: the case name, or `Case #<id>` without one (the empty string is no name). */
  function CaseCrumbName(caseId: string, caseName: string): (r: string)
    ensures caseName != "" ==> r == caseName
    ensures caseName == "" ==> r == "Case #" + caseId
  {
    if caseName != "" then caseName else "Case #" + caseId
  }

  /** The component renders nothing on the dashboard. */
  predicate ShouldRender(currentPath: string)
  {
    currentPath != DashboardPath
  }

  /** `handleBreadcrumbClick`: navigates to the crumb's path when it has a non-empty one. */
  function HandleBreadcrumbClick(path: Option<string>): (target: Option<string>)
    ensures target.Some? <==> path.Some? && path.value != ""
    ensures target.Some? ==> target == path
  {
    if path.Some? && path.value != "" then path else None
  }

  /**
   * `generateBreadcrumbs`: the Dashboard crumb, clickable away from the
   * dashboard; then the case crumb, never clickable and without a path;
   * then the current page's crumb, marked current and not clickable.
   */
  method GenerateBreadcrumbs(currentPath: string, caseId: string, caseName: string) returns (crumbs: seq<Crumb>)
    ensures 1 <= |crumbs| <= 3
    ensures |crumbs| == 1 + (if ShowsCase(currentPath, caseId) then 1 else 0) + (if ShowsPage(currentPath) then 1 else 0)
    ensures crumbs[0].name == "Dashboard" && crumbs[0].icon == "LayoutDashboard"
    ensures crumbs[0].path == Some(DashboardPath)
    ensures crumbs[0].isClickable <==> currentPath != DashboardPath
    ensures !crumbs[0].isCaseContext && !crumbs[0].isCurrent
    ensures ShowsCase(currentPath, caseId) ==>
      crumbs[1] == Crumb(CaseCrumbName(caseId, caseName), None, "Folder", false, true, false)
    ensures ShowsPage(currentPath) ==>
      var route := RouteFor(currentPath).value;
      crumbs[|crumbs| - 1] == Crumb(route.name, Some(currentPath), route.icon, false, false, true)
    ensures forall i :: 0 < i < |crumbs| ==> !crumbs[i].isClickable
    ensures forall i :: 0 <= i < |crumbs| ==> (crumbs[i].isCaseContext <==> i == 1 && ShowsCase(currentPath, caseId))
    ensures forall i :: 0 <= i < |crumbs| ==> (crumbs[i].isCurrent <==> i == |crumbs| - 1 && ShowsPage(currentPath))
    ensures currentPath != DashboardPath ==> HandleBreadcrumbClick(crumbs[0].path) == Some(DashboardPath)
  {
    crumbs := [Crumb("Dashboard", Some(DashboardPath), "LayoutDashboard", currentPath != DashboardPath, false, false)];
    if caseId != "" && currentPath != DashboardPath && currentPath != CreateCasePath {
      var name := if caseName != "" then caseName else "Case #" + caseId;
      crumbs := crumbs + [Crumb(name, None, "Folder", false, true, false)];
    }
    if currentPath != DashboardPath {
      var currentRoute := RouteFor(currentPath);
      if currentRoute.Some? {
        crumbs := crumbs + [Crumb(currentRoute.value.name, Some(currentPath), currentRoute.value.icon, false, false, true)];
      }
    }
  }

  /** On the dashboard the trail is the single, non-clickable Dashboard crumb, and nothing is shown. */
  lemma DashboardShowsNothing(caseId: string, caseName: string)
    ensures !ShouldRender(DashboardPath)
    ensures !ShowsCase(DashboardPath, caseId) && !ShowsPage(DashboardPath)
  {
  }

  /** The create-case form has no case crumb; its page crumb is "Create Case". */
  lemma CreateFormHasNoCaseCrumb(caseId: string)
    ensures !ShowsCase(CreateCasePath, caseId)
    ensures ShowsPage(CreateCasePath) && RouteFor(CreateCasePath).value.name == "Create Case"
  {
  }
}
