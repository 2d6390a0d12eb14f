/** pkg/helper/args.go: typed lookup of MCP tool arguments. */
module Args {
  import opened Wrappers
  import opened GoValues

  /** Pointer: a pointer to a copy of `v`, modelled as a present value. */
  function Pointer<T>(v: T): (p: Option<T>)
    ensures p.Some? && p.value == v
  {
    Some(v)
  }

  /**
   * ParseMCPArgs[T]: the argument under `key` when it is present and has dynamic type `t`;
   * nil otherwise. The error result is always nil.
   */
  function ParseMCPArgs(t: GoType, key: string, args: map<string, Any>): (r: Result<Option<Any>>)
    ensures r.Ok?
    ensures r.value.Some? <==> key in args && HasType(args[key], t)
    ensures r.value.Some? ==> r.value.value == args[key]
  {
    if key in args && HasType(args[key], t) then Ok(Pointer(args[key])) else Ok(None)
  }

  /** A numeric argument: `ParseMCPArgs[float64]` followed by a dereference. */
  function NumberArg(key: string, args: map<string, Any>): (n: Option<real>)
    ensures n.Some? <==> key in args && args[key].Float64?
    ensures n.Some? ==> n.value == args[key].f
  {
    match ParseMCPArgs(TFloat64, key, args).value
    case Some(v) => Some(v.f)
    case None => None
  }
}
