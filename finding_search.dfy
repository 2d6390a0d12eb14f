/** pkg/riskenmcp/finding_search.go: the search_finding tool of the current server. */
module FindingSearch {
  import opened Wrappers
  import opened GoValues
  import opened Risken
  import opened RiskenApi
  import opened Http
  import opened Args
  import opened RiskenContext

  /** The request before any argument is applied: offset 0, limit 10, score 0.1, active findings only. */
  function Defaults(projectId: int): (p: ListFindingRequest)
    ensures p.projectId == projectId && p.findingId == 0 && p.alertId == 0
    ensures p.dataSource == [] && p.resourceName == []
    ensures p.offset == 0 && p.limit == 10 && p.fromScore == 0.1 && p.status == FindingStatusActive
  {
    ListFindingRequest(projectId, 0, 0, [], [], 0.1, FindingStatusActive, 0, 10)
  }

  /** fmt.Sprintf("%v", v): a string prints as itself; other values through `formatOther`. */
  function FormatValue(v: Any, formatOther: Any -> string): (s: string)
    ensures v.Str? ==> s == v.s
  {
    if v.Str? then v.s else formatOther(v)
  }

  /** The elements of a list argument, each formatted with %v, in input order; [] when absent or not a list. */
  function FormattedList(key: string, args: map<string, Any>, formatOther: Any -> string): (r: seq<string>)
    ensures key in args && args[key].AnyList? ==>
              |r| == |args[key].items| && forall i :: 0 <= i < |r| ==> r[i] == FormatValue(args[key].items[i], formatOther)
    ensures !(key in args && args[key].AnyList?) ==> r == []
  {
    if key in args && args[key].AnyList? then
      var items := args[key].items;
      seq(|items|, i requires 0 <= i < |items| => FormatValue(items[i], formatOther))
    else []
  }

  /** A numeric argument truncated to an integer, or the default when it is absent or not a number. */
  function IntArgOr(key: string, args: map<string, Any>, default: int): (n: int)
    ensures NumberArg(key, args).Some? ==> n == TruncateToInt(NumberArg(key, args).value)
    ensures NumberArg(key, args).None? ==> n == default
  {
    match NumberArg(key, args)
    case Some(f) => TruncateToInt(f)
    case None => default
  }

  /** Appends each element of a list argument, formatted with %v, to `acc`. */
  method AppendFormatted(acc: seq<string>, items: seq<Any>, formatOther: Any -> string) returns (r: seq<string>)
    ensures |r| == |acc| + |items|
    ensures r[..|acc|] == acc
    ensures forall i :: 0 <= i < |items| ==> r[|acc| + i] == FormatValue(items[i], formatOther)
  {
    r := acc;
    var i := 0;
    while i < |items|
      invariant 0 <= i <= |items|
      invariant |r| == |acc| + i && r[..|acc|] == acc
      invariant forall k :: 0 <= k < i ==> r[|acc| + k] == FormatValue(items[k], formatOther)
    {
      r := r + [FormatValue(items[i], formatOther)];
      i := i + 1;
    }
  }

  /**
   * The request ParseSearchFindingParams builds. A numeric `finding_id` wins over everything
   * (score 0, any status), then a numeric `alert_id` (score 0, status left active); only without
   * both are the list filters and the numeric overrides applied, with no range check.
   */
  function SearchFindingParams(project: Result<Project>, args: map<string, Any>, formatOther: Any -> string)
    : (r: Result<ListFindingRequest>)
    ensures r.Err? <==> project.Err?
    ensures r.Ok? ==> r.value.projectId == project.value.projectId
    ensures r.Ok? ==> (r.value.findingId != 0 ==> NumberArg("finding_id", args).Some?)
    ensures r.Ok? && NumberArg("finding_id", args).Some? ==> r.value.fromScore == 0.0 && r.value.status == FindingStatusUnknown
    ensures r.Ok? && NumberArg("finding_id", args).None? && NumberArg("alert_id", args).Some? ==>
              r.value.fromScore == 0.0 && r.value.status == FindingStatusActive && r.value.findingId == 0
    ensures r.Ok? && NumberArg("finding_id", args).Some? ==>
              r.value == Defaults(project.value.projectId).(findingId := TruncateToInt(NumberArg("finding_id", args).value),
                                                           fromScore := 0.0, status := FindingStatusUnknown)
    ensures r.Ok? && NumberArg("finding_id", args).None? && NumberArg("alert_id", args).Some? ==>
              r.value == Defaults(project.value.projectId).(alertId := TruncateToInt(NumberArg("alert_id", args).value),
                                                           fromScore := 0.0)
    ensures r.Ok? && NumberArg("finding_id", args).None? && NumberArg("alert_id", args).None? ==>
              && r.value.findingId == 0 && r.value.alertId == 0
              && r.value.dataSource == FormattedList("data_source", args, formatOther)
              && r.value.resourceName == FormattedList("resource_name", args, formatOther)
              && r.value.fromScore == (if NumberArg("from_score", args).Some? then NumberArg("from_score", args).value else 0.1)
              && r.value.status == IntArgOr("status", args, FindingStatusActive)
              && r.value.offset == IntArgOr("offset", args, 0)
              && r.value.limit == IntArgOr("limit", args, 10)
  {
    if project.Err? then Err("failed to get project: " + project.error)
    else
      var param := Defaults(project.value.projectId);
      match NumberArg("finding_id", args)
      case Some(f) => Ok(param.(findingId := TruncateToInt(f), fromScore := 0.0, status := FindingStatusUnknown))
      case None =>
        match NumberArg("alert_id", args)
        case Some(a) => Ok(param.(alertId := TruncateToInt(a), fromScore := 0.0))
        case None =>
          Ok(param.(dataSource := FormattedList("data_source", args, formatOther),
                    resourceName := FormattedList("resource_name", args, formatOther),
                    fromScore := if NumberArg("from_score", args).Some? then NumberArg("from_score", args).value else 0.1,
                    status := IntArgOr("status", args, FindingStatusActive),
                    offset := IntArgOr("offset", args, 0),
                    limit := IntArgOr("limit", args, 10)))
  }

  /** With a numeric `finding_id`, no other argument has any effect. */
  lemma FindingIdIgnoresOtherArguments(project: Result<Project>, args1: map<string, Any>, args2: map<string, Any>,
                                       formatOther: Any -> string)
    requires NumberArg("finding_id", args1).Some? && NumberArg("finding_id", args1) == NumberArg("finding_id", args2)
    ensures SearchFindingParams(project, args1, formatOther) == SearchFindingParams(project, args2, formatOther)
  {
  }

  /** Without `finding_id` but with a numeric `alert_id`, no filter or override has any effect. */
  lemma AlertIdIgnoresFilters(project: Result<Project>, args1: map<string, Any>, args2: map<string, Any>,
                              formatOther: Any -> string)
    requires NumberArg("finding_id", args1).None? && NumberArg("finding_id", args2).None?
    requires NumberArg("alert_id", args1).Some? && NumberArg("alert_id", args1) == NumberArg("alert_id", args2)
    ensures SearchFindingParams(project, args1, formatOther) == SearchFindingParams(project, args2, formatOther)
  {
  }

  /** A list of strings a client sends as a filter, JSON array and all, is kept as sent. */
  lemma JsonStringFiltersKept(p: Project, args: map<string, Any>, formatOther: Any -> string)
    requires NumberArg("finding_id", args).None? && NumberArg("alert_id", args).None?
    requires "data_source" in args && args["data_source"].AnyList?
    requires forall i :: 0 <= i < |args["data_source"].items| ==> args["data_source"].items[i].Str?
    ensures var sources := args["data_source"].items;
      && |SearchFindingParams(Ok(p), args, formatOther).value.dataSource| == |sources|
      && forall i :: 0 <= i < |sources| ==> SearchFindingParams(Ok(p), args, formatOther).value.dataSource[i] == sources[i].s
  {
  }

  /** Without both ids, the numeric arguments are copied as given, outside the schema's ranges too. */
  lemma NoRangeCheck(p: Project, formatOther: Any -> string)
    ensures SearchFindingParams(Ok(p), map["limit" := Float64(1000.0), "from_score" := Float64(7.5), "status" := Float64(9.0)], formatOther)
            == Ok(Defaults(p.projectId).(limit := 1000, fromScore := 7.5, status := 9))
  {
  }

  /** ParseSearchFindingParams: the request is built field by field on top of the defaults, with early returns for the ids. */
  method ParseSearchFindingParams(project: Result<Project>, args: map<string, Any>, formatOther: Any -> string)
    returns (r: Result<ListFindingRequest>)
    ensures r == SearchFindingParams(project, args, formatOther)
  {
    if project.Err? {
      return Err("failed to get project: " + project.error);
    }
    var param := Defaults(project.value.projectId);

    var findingId := ParseMCPArgs(TFloat64, "finding_id", args);
    if findingId.value.Some? {
      param := param.(findingId := TruncateToInt(findingId.value.value.f));
      param := param.(fromScore := 0.0);
      param := param.(status := FindingStatusUnknown);
      return Ok(param);
    }

    var alertId := ParseMCPArgs(TFloat64, "alert_id", args);
    if alertId.value.Some? {
      param := param.(alertId := TruncateToInt(alertId.value.value.f));
      param := param.(fromScore := 0.0);
      return Ok(param);
    }

    var dataSource := ParseMCPArgs(TAnyList, "data_source", args);
    if dataSource.value.Some? {
      var appended := AppendFormatted(param.dataSource, dataSource.value.value.items, formatOther);
      assert appended == FormattedList("data_source", args, formatOther);
      param := param.(dataSource := appended);
    }
    var resourceName := ParseMCPArgs(TAnyList, "resource_name", args);
    if resourceName.value.Some? {
      var appended := AppendFormatted(param.resourceName, resourceName.value.value.items, formatOther);
      assert appended == FormattedList("resource_name", args, formatOther);
      param := param.(resourceName := appended);
    }
    var fromScore := ParseMCPArgs(TFloat64, "from_score", args);
    if fromScore.value.Some? {
      param := param.(fromScore := fromScore.value.value.f);
    }
    var status := ParseMCPArgs(TFloat64, "status", args);
    if status.value.Some? {
      param := param.(status := TruncateToInt(status.value.value.f));
    }
    var offset := ParseMCPArgs(TFloat64, "offset", args);
    if offset.value.Some? {
      param := param.(offset := TruncateToInt(offset.value.value.f));
    }
    var limit := ParseMCPArgs(TFloat64, "limit", args);
    if limit.value.Some? {
      param := param.(limit := TruncateToInt(limit.value.value.f));
    }
    return Ok(param);
  }

  /** The findings of `ids`, fetched one by one in order; the first failed fetch is the answer. */
  function FetchAll(ids: seq<int>, fetch: int -> Result<Finding>): (r: Result<seq<Finding>>)
    ensures r.Ok? <==> forall i :: 0 <= i < |ids| ==> fetch(ids[i]).Ok?
    ensures r.Ok? ==> |r.value| == |ids| && forall i :: 0 <= i < |ids| ==> r.value[i] == fetch(ids[i]).value
    decreases |ids|
  {
    if |ids| == 0 then Ok([])
    else
      var last := fetch(ids[|ids| - 1]);
      match FetchAll(ids[..|ids| - 1], fetch)
      case Err(e) => Err(e)
      case Ok(init) =>
        if last.Err? then Err(last.error) else Ok(init + [last.value])
  }

  /** Once a prefix of the ids fails, the whole fetch fails with the same error. */
  lemma {:induction false} FetchAllStopsAtFailure(ids: seq<int>, k: nat, fetch: int -> Result<Finding>)
    requires k <= |ids| && FetchAll(ids[..k], fetch).Err?
    ensures FetchAll(ids, fetch) == FetchAll(ids[..k], fetch)
    decreases |ids| - k
  {
    if k < |ids| {
      assert ids[..k + 1][..k] == ids[..k];
      FetchAllStopsAtFailure(ids, k + 1, fetch);
    } else {
      assert ids[..k] == ids;
    }
  }

  /** GetFinding for one project, as a function of the finding id. */
  function FetchIn(getFinding: (Client, int, int) -> Result<Finding>, client: Client, projectId: int): int -> Result<Finding>
  {
    fid => getFinding(client, projectId, fid)
  }

  /** Fetches the findings of `ids` in order, stopping at the first failure. */
  method FetchFindings(ids: seq<int>, fetch: int -> Result<Finding>) returns (r: Result<seq<Finding>>)
    ensures r == FetchAll(ids, fetch)
  {
    var found: seq<Finding> := [];
    var i := 0;
    while i < |ids|
      invariant 0 <= i <= |ids|
      invariant FetchAll(ids[..i], fetch) == Ok(found)
    {
      assert ids[..i + 1][..i] == ids[..i];
      var f := fetch(ids[i]);
      if f.Err? {
        FetchAllStopsAtFailure(ids, i + 1, fetch);
        return Err(f.error);
      }
      found := found + [f.value];
      i := i + 1;
    }
    assert ids[..|ids|] == ids;
    return Ok(found);
  }

  /** SearchFindingResponse */
  datatype SearchFindingResponse = SearchFindingResponse(findings: seq<Finding>, total: int, offset: int, limit: int)

  /**
   * The search_finding handler: the client comes from the server or the context; parse the
   * arguments, list the ids, then fetch each finding in order. A missing client is a Go error;
   * every other failure is an error result.
   */
  method SearchFinding(serverClient: Option<Client>, ctx: Context, args: map<string, Any>, formatOther: Any -> string,
                       currentProject: Client -> Result<Project>,
                       listFinding: (Client, ListFindingRequest) -> Result<ListFindingResponse>,
                       getFinding: (Client, int, int) -> Result<Finding>)
    returns (reply: ToolReply<SearchFindingResponse>)
    ensures reply.GoError? <==> GetRISKENClient(serverClient, ctx).Err?
    ensures reply.ToolText? <==>
              && GetRISKENClient(serverClient, ctx).Ok?
              && var client := GetRISKENClient(serverClient, ctx).value;
                 var params := SearchFindingParams(currentProject(client), args, formatOther);
              && params.Ok?
              && listFinding(client, params.value).Ok?
              && FetchAll(listFinding(client, params.value).value.findingIds, FetchIn(getFinding, client, params.value.projectId)).Ok?
    ensures reply.ToolText? ==>
              var client := GetRISKENClient(serverClient, ctx).value;
              var params := SearchFindingParams(currentProject(client), args, formatOther).value;
              var listed := listFinding(client, params).value;
              reply.payload == SearchFindingResponse(FetchAll(listed.findingIds, FetchIn(getFinding, client, params.projectId)).value,
                                                     listed.total, params.offset, params.limit)
  {
    var riskenClient := GetRISKENClient(serverClient, ctx);
    if riskenClient.Err? {
      return GoError("failed to get RISKEN client: " + riskenClient.error);
    }
    var client := riskenClient.value;
    var params := ParseSearchFindingParams(currentProject(client), args, formatOther);
    if params.Err? {
      return ToolError("failed to parse params: " + params.error);
    }
    var findings := listFinding(client, params.value);
    if findings.Err? {
      return ToolError("failed to get findings: " + findings.error);
    }
    var fetched := FetchFindings(findings.value.findingIds, FetchIn(getFinding, client, params.value.projectId));
    if fetched.Err? {
      return ToolError("failed to get finding: " + fetched.error);
    }
    return ToolText(SearchFindingResponse(fetched.value, findings.value.total, params.value.offset, params.value.limit));
  }
}
