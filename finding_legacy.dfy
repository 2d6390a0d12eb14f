/** pkg/riskenmcp/finding.go: the older search_finding tool, bound to one RISKEN client. */
module FindingLegacy {
  import opened Wrappers
  import opened GoValues
  import opened Risken
  import opened RiskenApi
  import opened Args
  import FindingSearch

  /** The request before any argument is applied: offset 0, limit 10, score 0.5, active findings only. */
  function Defaults(projectId: int): (p: ListFindingRequest)
    ensures p.projectId == projectId && p.findingId == 0 && p.alertId == 0
    ensures p.dataSource == [] && p.resourceName == []
    ensures p.offset == 0 && p.limit == 10 && p.fromScore == 0.5 && p.status == FindingStatusActive
  {
    ListFindingRequest(projectId, 0, 0, [], [], 0.5, FindingStatusActive, 0, 10)
  }

  /** A list argument taken only when its dynamic type is `[]string`; [] otherwise. */
  function StringListArg(key: string, args: map<string, Any>): (r: seq<string>)
    ensures key in args && args[key].StringList? ==> r == args[key].strs
    ensures !(key in args && args[key].StringList?) ==> r == []
  {
    match ParseMCPArgs(TStringList, key, args).value
    case Some(v) => v.strs
    case None => []
  }

  /**
   * The request ParseFindingParams builds: `finding_id` first (score 0, any status), then
   * `alert_id` (score 0), otherwise the `[]string` filters and the numeric overrides.
   */
  function LegacyFindingParams(project: Result<Project>, args: map<string, Any>): (r: Result<ListFindingRequest>)
    ensures r.Err? <==> project.Err?
    ensures r.Ok? ==> r.value.projectId == project.value.projectId
    ensures r.Ok? && NumberArg("finding_id", args).Some? ==> r.value.fromScore == 0.0 && r.value.status == FindingStatusUnknown
    ensures r.Ok? && NumberArg("finding_id", args).None? && NumberArg("alert_id", args).Some? ==>
              r.value.fromScore == 0.0 && r.value.status == FindingStatusActive
    ensures r.Ok? && NumberArg("finding_id", args).None? && NumberArg("alert_id", args).None? ==>
              r.value.dataSource == StringListArg("data_source", args) && r.value.resourceName == StringListArg("resource_name", args)
    ensures r.Ok? && NumberArg("finding_id", args).Some? ==>
              r.value == Defaults(project.value.projectId).(findingId := TruncateToInt(NumberArg("finding_id", args).value),
                                                           fromScore := 0.0, status := FindingStatusUnknown)
    ensures r.Ok? && NumberArg("finding_id", args).None? && NumberArg("alert_id", args).Some? ==>
              r.value == Defaults(project.value.projectId).(alertId := TruncateToInt(NumberArg("alert_id", args).value),
                                                           fromScore := 0.0)
    ensures r.Ok? && NumberArg("finding_id", args).None? && NumberArg("alert_id", args).None? ==>
              && r.value.findingId == 0 && r.value.alertId == 0
              && r.value.fromScore == (if NumberArg("from_score", args).Some? then NumberArg("from_score", args).value else 0.5)
              && r.value.status == FindingSearch.IntArgOr("status", args, FindingStatusActive)
              && r.value.offset == FindingSearch.IntArgOr("offset", args, 0)
              && r.value.limit == FindingSearch.IntArgOr("limit", args, 10)
  {
    if project.Err? then Err("failed to get project: " + project.error)
    else
      var param := Defaults(project.value.projectId);
      match NumberArg("finding_id", args)
      case Some(f) => Ok(param.(findingId := TruncateToInt(f), fromScore := 0.0, status := FindingStatusUnknown))
      case None =>
        match NumberArg("alert_id", args)
        case Some(a) => Ok(param.(alertId := TruncateToInt(a), fromScore := 0.0))
        case None =>
          Ok(param.(dataSource := StringListArg("data_source", args),
                    resourceName := StringListArg("resource_name", args),
                    fromScore := if NumberArg("from_score", args).Some? then NumberArg("from_score", args).value else 0.5,
                    status := FindingSearch.IntArgOr("status", args, FindingStatusActive),
                    offset := FindingSearch.IntArgOr("offset", args, 0),
                    limit := FindingSearch.IntArgOr("limit", args, 10)))
  }

  /**
   * Tool arguments decoded from JSON hold arrays as `[]any`, never `[]string`, so this parser
   * drops a `data_source` or `resource_name` filter sent by a client, while the current parser
   * of pkg/riskenmcp/finding_search.go keeps it.
   */
  lemma JsonListFiltersDropped(p: Project, formatOther: Any -> string, source: string, resource: string)
    ensures var args := map["data_source" := AnyList([Str(source)]), "resource_name" := AnyList([Str(resource)])];
            && LegacyFindingParams(Ok(p), args).value.dataSource == []
            && LegacyFindingParams(Ok(p), args).value.resourceName == []
            && FindingSearch.SearchFindingParams(Ok(p), args, formatOther).value.dataSource == [source]
            && FindingSearch.SearchFindingParams(Ok(p), args, formatOther).value.resourceName == [resource]
  {
    var args := map["data_source" := AnyList([Str(source)]), "resource_name" := AnyList([Str(resource)])];
    assert FindingSearch.FormattedList("data_source", args, formatOther) == [source];
    assert FindingSearch.FormattedList("resource_name", args, formatOther) == [resource];
  }

  /**
   * For every input, a filter that arrives as a JSON array is dropped by this parser, whatever
   * it holds, while the current parser keeps one formatted entry per element.
   */
  lemma EveryJsonListFilterDropped(p: Project, args: map<string, Any>, formatOther: Any -> string, key: string)
    requires key == "data_source" || key == "resource_name"
    requires NumberArg("finding_id", args).None? && NumberArg("alert_id", args).None?
    requires key in args && args[key].AnyList?
    ensures var legacy := LegacyFindingParams(Ok(p), args).value;
            var current := FindingSearch.SearchFindingParams(Ok(p), args, formatOther).value;
      && (if key == "data_source" then legacy.dataSource else legacy.resourceName) == []
      && |if key == "data_source" then current.dataSource else current.resourceName| == |args[key].items|
  {
  }

  /** ParseFindingParams: the request is built field by field on top of the defaults, with early returns for the ids. */
  method ParseFindingParams(project: Result<Project>, args: map<string, Any>) returns (r: Result<ListFindingRequest>)
    ensures r == LegacyFindingParams(project, args)
  {
    if project.Err? {
      return Err("failed to get project: " + project.error);
    }
    var param := Defaults(project.value.projectId);
    var findingId := ParseMCPArgs(TFloat64, "finding_id", args);
    if findingId.value.Some? {
      param := param.(findingId := TruncateToInt(findingId.value.value.f));
      param := param.(fromScore := 0.0);
      param := param.(status := FindingStatusUnknown);
      return Ok(param);
    }
    var alertId := ParseMCPArgs(TFloat64, "alert_id", args);
    if alertId.value.Some? {
      param := param.(alertId := TruncateToInt(alertId.value.value.f));
      param := param.(fromScore := 0.0);
      return Ok(param);
    }
    var dataSource := ParseMCPArgs(TStringList, "data_source", args);
    if dataSource.value.Some? {
      param := param.(dataSource := dataSource.value.value.strs);
    }
    var resourceName := ParseMCPArgs(TStringList, "resource_name", args);
    if resourceName.value.Some? {
      param := param.(resourceName := resourceName.value.value.strs);
    }
    var fromScore := ParseMCPArgs(TFloat64, "from_score", args);
    if fromScore.value.Some? {
      param := param.(fromScore := fromScore.value.value.f);
    }
    var status := ParseMCPArgs(TFloat64, "status", args);
    if status.value.Some? {
      param := param.(status := TruncateToInt(status.value.value.f));
    }
    var offset := ParseMCPArgs(TFloat64, "offset", args);
    if offset.value.Some? {
      param := param.(offset := TruncateToInt(offset.value.value.f));
    }
    var limit := ParseMCPArgs(TFloat64, "limit", args);
    if limit.value.Some? {
      param := param.(limit := TruncateToInt(limit.value.value.f));
    }
    return Ok(param);
  }

  /**
   * The older search_finding handler: parse, list, then fetch each finding in order with the
   * client the tool was built with. Every failure is an error result; the reply is the list.
   */
  method SearchFinding(client: Client, args: map<string, Any>, currentProject: Client -> Result<Project>,
                       listFinding: (Client, ListFindingRequest) -> Result<ListFindingResponse>,
                       getFinding: (Client, int, int) -> Result<Finding>)
    returns (reply: ToolReply<seq<Finding>>)
    ensures !reply.GoError?
    ensures reply.ToolText? <==>
              && LegacyFindingParams(currentProject(client), args).Ok?
              && var params := LegacyFindingParams(currentProject(client), args).value;
              && listFinding(client, params).Ok?
              && FindingSearch.FetchAll(listFinding(client, params).value.findingIds,
                                        FindingSearch.FetchIn(getFinding, client, params.projectId)).Ok?
    ensures reply.ToolText? ==>
              var params := LegacyFindingParams(currentProject(client), args).value;
              reply.payload == FindingSearch.FetchAll(listFinding(client, params).value.findingIds,
                                                      FindingSearch.FetchIn(getFinding, client, params.projectId)).value
  {
    var params := ParseFindingParams(currentProject(client), args);
    if params.Err? {
      return ToolError("failed to parse params: " + params.error);
    }
    var findings := listFinding(client, params.value);
    if findings.Err? {
      return ToolError("failed to get findings: " + findings.error);
    }
    var fetched := FindingSearch.FetchFindings(findings.value.findingIds, FindingSearch.FetchIn(getFinding, client, params.value.projectId));
    if fetched.Err? {
      return ToolError("failed to get finding: " + fetched.error);
    }
    return ToolText(fetched.value);
  }
}
