/** pkg/riskenmcp/finding_archive.go: the archive_finding tool's request. */
module FindingArchive {
  import opened Wrappers
  import opened GoValues
  import opened Risken
  import opened RiskenApi
  import opened Args

  /** 100 years of 365 days, in seconds. */
  const ArchivePeriod: int := 100 * 365 * 24 * 3600

  const DefaultNote: string := "Archived by MCP"
  const NotePrefix: string := "Archived by MCP: "

  /** A string argument, when present with that type. */
  function StringArg(key: string, args: map<string, Any>): (s: Option<string>)
    ensures s.Some? <==> key in args && args[key].Str?
    ensures s.Some? ==> s.value == args[key].s
  {
    match ParseMCPArgs(TString, key, args).value
    case Some(v) => Some(v.s)
    case None => None
  }

  /**
   * ParseArchiveFindingParams: the same project on the request and on the pend record, an expiry
   * a hundred years after `now` (Unix seconds), the numeric finding id (0 when absent), and the
   * note: the default when absent or empty, otherwise the given note behind the default's prefix.
   */
  method ParseArchiveFindingParams(project: Result<Project>, args: map<string, Any>, now: int)
    returns (r: Result<PutPendFindingRequest>)
    ensures r.Err? <==> project.Err?
    ensures r.Ok? ==> r.value.projectId == project.value.projectId && r.value.pendFinding.projectId == project.value.projectId
    ensures r.Ok? ==> r.value.pendFinding.expiredAt == now + 3153600000
    ensures r.Ok? ==> r.value.pendFinding.findingId ==
                        (if NumberArg("finding_id", args).Some? then TruncateToInt(NumberArg("finding_id", args).value) else 0)
    ensures r.Ok? && (StringArg("note", args).None? || StringArg("note", args) == Some("")) ==> r.value.pendFinding.note == DefaultNote
    ensures r.Ok? && StringArg("note", args).Some? && StringArg("note", args).value != "" ==>
              r.value.pendFinding.note == NotePrefix + StringArg("note", args).value
  {
    if project.Err? {
      return Err("failed to get project: " + project.error);
    }
    var param := PutPendFindingRequest(project.value.projectId, PendFinding(project.value.projectId, 0, "", now + ArchivePeriod));
    var findingId := ParseMCPArgs(TFloat64, "finding_id", args);
    if findingId.value.Some? {
      param := param.(pendFinding := param.pendFinding.(findingId := TruncateToInt(findingId.value.value.f)));
    }
    var note := ParseMCPArgs(TString, "note", args);
    if note.value.Some? {
      param := param.(pendFinding := param.pendFinding.(note := note.value.value.s));
    }
    if param.pendFinding.note == "" {
      param := param.(pendFinding := param.pendFinding.(note := DefaultNote));
    } else {
      param := param.(pendFinding := param.pendFinding.(note := NotePrefix + note.value.value.s));
    }
    return Ok(param);
  }
}
