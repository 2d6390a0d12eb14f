/** pkg/riskenmcp/alert.go: the search_alert tool's request. */
module Alert {
  import opened Wrappers
  import opened GoValues
  import opened Risken
  import opened RiskenApi
  import opened Args

  /**
   * ParseSearchAlertParams: the current project, and the status list [ACTIVE] unless a numeric
   * `status` replaces it with exactly that one status, unchecked against the schema's 1..3.
   */
  method ParseSearchAlertParams(project: Result<Project>, args: map<string, Any>) returns (r: Result<ListAlertRequest>)
    ensures r.Err? <==> project.Err?
    ensures r.Ok? ==> r.value.projectId == project.value.projectId && |r.value.status| == 1
    ensures r.Ok? && NumberArg("status", args).None? ==> r.value.status == [AlertStatusActive]
    ensures r.Ok? && NumberArg("status", args).Some? ==> r.value.status == [TruncateToInt(NumberArg("status", args).value)]
  {
    if project.Err? {
      return Err("failed to get project: " + project.error);
    }
    var param := ListAlertRequest(project.value.projectId, [AlertStatusActive]);
    var status := ParseMCPArgs(TFloat64, "status", args);
    if status.value.Some? {
      param := param.(status := [TruncateToInt(status.value.value.f)]);
    }
    return Ok(param);
  }
}
