/**
 * The two request-time entry points of the gearman module: the fixups hook,
 * which reports DELETE, and the output filter, which reports PUT, COPY and
 * MOVE (the WebDAV methods of sections 9.8 and 9.9 of RFC 4918). Each
 * submission of a background job is recorded as a (job name, path) pair in
 * the order it is made; the hook's or filter's return value is the status.
 */
module GearmanHooks {
  import opened Wrappers
  import opened GearmanConfig

  /** The job that adds a path to the downstream index. */
  const RegisterJob: string := "register"
  /** The job that removes a path from the downstream index. */
  const UnregisterJob: string := "unregister"

  /** The request's method number, reduced to the methods the module reacts to. */
  datatype Method = Put | Delete | Copy | Move | OtherMethod

  /**
   * A `Destination` header (section 10.3 of RFC 4918) and the outcome of
   * parsing it as a URI: the path component, or None when parsing fails.
   * `header` only records the text given to the URI parser; the hooks read
   * the outcome alone.
   */
  datatype Destination = Destination(header: string, parsedPath: Option<string>)

  /** What the hooks read of a request. */
  datatype Request = Request(
    verb: Method,
    uri: string,
    isSubrequest: bool,
    destination: Option<Destination>)

  /** One background job submission: the job's name and its payload path. */
  datatype Job = Job(name: string, payload: string)

  /** Declined, OK, or (in the filter) the brigade passed to the next filter. */
  datatype Status = Ok | Declined | PassedOn

  /** The jobs submitted, in order, and the status returned. */
  datatype HookResult = HookResult(jobs: seq<Job>, status: Status)

  /** The destination path of a COPY or MOVE, when the header is present and parses. */
  function DestinationPath(r: Request): Option<string> {
    match r.destination
    case None => None
    case Some(d) => d.parsedPath
  }

  /**
   * The fixups hook under the section's configuration `conf`: a DELETE of a
   * main request in an enabled section submits one unregister job for the
   * request's path and returns OK; everything else declines without
   * submitting.
   */
  function RequestHook(conf: DirConfig, r: Request): (res: HookResult)
    ensures res.status == Ok <==> conf.enabled && !r.isSubrequest && r.verb == Delete
    ensures res.status == Ok ==> res.jobs == [Job(UnregisterJob, r.uri)]
    ensures res.status != Ok ==> res.status == Declined && res.jobs == []
  {
    if !conf.enabled then HookResult([], Declined)
    else if r.isSubrequest then HookResult([], Declined)
    else if r.verb == Delete then HookResult([Job(UnregisterJob, r.uri)], Ok)
    else HookResult([], Declined)
  }

  /**
   * The output filter. It looks at neither `enabled` nor whether the request
   * is a subrequest. It returns DECLINED exactly for a COPY or MOVE without a
   * usable destination, and then submits nothing; otherwise it returns what
   * passing the brigade to the next filter returns (`PassedOn`, never the
   * hook status OK produced by this module itself); it
   * registers the path a request leaves content at and unregisters only the
   * source of a MOVE; and it submits at most two jobs.
   */
  function ResponseFilter(r: Request): (res: HookResult)
    ensures res.status != Ok
    ensures res.status == Declined <==> (r.verb == Copy || r.verb == Move) && DestinationPath(r).None?
    ensures res.status == Declined ==> res.jobs == []
    ensures |res.jobs| <= 2
    ensures r.verb == Put ==> res.jobs == [Job(RegisterJob, r.uri)]
    ensures r.verb == Copy && DestinationPath(r).Some? ==>
              res.jobs == [Job(RegisterJob, DestinationPath(r).value)]
    ensures r.verb == Move && DestinationPath(r).Some? ==>
              res.jobs == [Job(UnregisterJob, r.uri), Job(RegisterJob, DestinationPath(r).value)]
    ensures r.verb == Delete || r.verb == OtherMethod ==> res == HookResult([], PassedOn)
    ensures forall k :: 0 <= k < |res.jobs| && res.jobs[k].name == UnregisterJob ==>
              r.verb == Move && k == 0 && res.jobs[k].payload == r.uri
    ensures forall k :: 0 <= k < |res.jobs| && res.jobs[k].name != UnregisterJob ==>
              res.jobs[k].name == RegisterJob
              && res.jobs[k] == res.jobs[|res.jobs| - 1]
              && (if r.verb == Put then res.jobs[k].payload == r.uri
                  else DestinationPath(r) == Some(res.jobs[k].payload))
  {
    if r.verb == Put then
      HookResult([Job(RegisterJob, r.uri)], PassedOn)
    else if r.verb == Copy then
      match DestinationPath(r)
      case None => HookResult([], Declined)
      case Some(path) => HookResult([Job(RegisterJob, path)], PassedOn)
    else if r.verb == Move then
      match DestinationPath(r)
      case None => HookResult([], Declined)
      case Some(path) => HookResult([Job(UnregisterJob, r.uri), Job(RegisterJob, path)], PassedOn)
    else
      HookResult([], PassedOn)
  }

  /** PUT registers the request's path once and passes the brigade on. */
  lemma PutRegistersPath(r: Request)
    requires r.verb == Put
    ensures ResponseFilter(r) == HookResult([Job(RegisterJob, r.uri)], PassedOn)
  {
  }

  /**
   * A COPY or MOVE whose Destination header is missing or does not parse
   * submits nothing and declines instead of passing the brigade on.
   */
  lemma MissingDestinationDeclines(r: Request)
    requires r.verb == Copy || r.verb == Move
    requires r.destination.None? || r.destination.value.parsedPath.None?
    ensures ResponseFilter(r) == HookResult([], Declined)
  {
  }

  /** COPY registers the destination once and submits nothing for the source. */
  lemma CopyRegistersDestination(r: Request, path: string)
    requires r.verb == Copy && DestinationPath(r) == Some(path)
    ensures ResponseFilter(r) == HookResult([Job(RegisterJob, path)], PassedOn)
    ensures forall k :: 0 <= k < |ResponseFilter(r).jobs| ==> ResponseFilter(r).jobs[k].name != UnregisterJob
  {
  }

  /** MOVE unregisters the source and then registers the destination. */
  lemma MoveUnregistersThenRegisters(r: Request, path: string)
    requires r.verb == Move && DestinationPath(r) == Some(path)
    ensures ResponseFilter(r) == HookResult([Job(UnregisterJob, r.uri), Job(RegisterJob, path)], PassedOn)
  {
  }

  /** Any other method, DELETE included, passes through the filter untouched. */
  lemma OtherMethodsPassThrough(r: Request)
    requires r.verb == Delete || r.verb == OtherMethod
    ensures ResponseFilter(r) == HookResult([], PassedOn)
  {
  }

  /**
   * The filter's outcome depends only on the method, the path and the
   * destination: a subrequest is treated like a main request.
   */
  lemma FilterIgnoresSubrequest(r: Request, b: bool)
    ensures ResponseFilter(r.(isSubrequest := b)) == ResponseFilter(r)
  {
  }

  /**
   * The change events a request stands for, independently of which hook
   * reports them: PUT registers its path, DELETE unregisters it, COPY
   * registers the destination, MOVE unregisters the source and registers
   * the destination, other methods stand for nothing. None means a COPY or
   * MOVE without a destination.
   */
  function ChangeEvents(m: Method, source: string, dest: Option<string>): (evs: Option<seq<Job>>)
    ensures evs.None? <==> (m == Copy || m == Move) && dest.None?
    ensures evs.Some? ==> |evs.value| <= 2
    ensures evs.Some? && m == Move ==>
              evs.value == [Job(UnregisterJob, source), Job(RegisterJob, dest.value)]
  {
    match m
    case Put => Some([Job(RegisterJob, source)])
    case Delete => Some([Job(UnregisterJob, source)])
    case Copy => if dest.None? then None else Some([Job(RegisterJob, dest.value)])
    case Move => if dest.None? then None else Some([Job(UnregisterJob, source), Job(RegisterJob, dest.value)])
    case OtherMethod => Some([])
  }

  /**
   * For a main request in an enabled section, the fixups hook followed by
   * the output filter submit exactly the request's change events, in order;
   * a COPY or MOVE without a destination submits nothing and the filter
   * declines.
   */
  lemma HooksSubmitChangeEvents(conf: DirConfig, r: Request)
    requires conf.enabled && !r.isSubrequest
    ensures var evs := ChangeEvents(r.verb, r.uri, DestinationPath(r));
            match evs
            case Some(jobs) => RequestHook(conf, r).jobs + ResponseFilter(r).jobs == jobs
            case None => RequestHook(conf, r).jobs == [] && ResponseFilter(r) == HookResult([], Declined)
  {
  }

  /**
   * In a section that is not enabled, or for a subrequest, a DELETE is not
   * reported at all, while the filter still reports PUT, COPY and MOVE.
   */
  lemma DisabledOnlySilencesDelete(conf: DirConfig, r: Request)
    requires !conf.enabled || r.isSubrequest
    ensures RequestHook(conf, r) == HookResult([], Declined)
    ensures r.verb == Put ==> ResponseFilter(r).jobs == [Job(RegisterJob, r.uri)]
    ensures r.verb == Copy && DestinationPath(r).Some? ==>
              ResponseFilter(r).jobs == [Job(RegisterJob, DestinationPath(r).value)]
    ensures r.verb == Move && DestinationPath(r).Some? ==>
              ResponseFilter(r).jobs == [Job(UnregisterJob, r.uri), Job(RegisterJob, DestinationPath(r).value)]
    ensures r.verb == Delete ==> RequestHook(conf, r).jobs + ResponseFilter(r).jobs == []
  {
  }
}
