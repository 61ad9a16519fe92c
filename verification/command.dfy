/**
 One run of the `google:search` command: check the input, validate the dump
 target, build the query descriptor, parse the file or query live, write the
 dump, and assemble the report. The answers the outside world gives (the file
 system, the proxy parser, the file parser, the live query) are the fields of
 `Env`; what the command asked of it is recorded in the run's trace.
 */
module Command {
  import opened Wrappers
  import opened Cli
  import opened Query
  import opened Transport
  import opened Results

  /** What the live query is issued with; `P` is the library's proxy object. */
  datatype Request<P> = Request(url: GoogleUrl, userAgent: UserAgent, client: HttpClient, proxy: Option<P>)

  /** The answers the outside world gives during one run. */
  datatype Env<P> = Env(
    dumpExists: bool,                          // file_exists on the --dump path
    dumpDirWritable: bool,                     // is_writable on the directory of the --dump path
    fileResponse: Response,                    // the page parsed from the --file contents
    proxy: Result<P, string>,                  // the parsed --proxy, or the message its parser threw
    queryResponse: Result<Response, string>,   // the page the live query returns, or what it threw
    dumpWritten: Option<nat>)                  // file_put_contents: bytes written, None for false

  /** Where the page came from: a local file, or a live query. */
  datatype Fetch<P> = FromFile(path: string) | Live(request: Request<P>)

  /**
   What a run did, one slot per phase in the order the command goes through
   them: the dump check, building the descriptor, parsing the proxy, the
   fetch, and the dump write (path and document).
   */
  datatype Trace<P> = Trace(
    checkedDump: Option<string>,
    builtUrl: Option<GoogleUrl>,
    parsedProxy: Option<string>,
    fetch: Option<Fetch<P>>,
    wroteDump: Option<(string, string)>)

  function NoSteps<P>(): Trace<P> {
    Trace(None, None, None, None, None)
  }

  /** One step of a run, for the run seen as a sequence of steps. */
  datatype Step<P> =
    | CheckedDump(path: string)
    | BuiltUrl(url: GoogleUrl)
    | ParsedProxy(spec: string)
    | Fetched(source: Fetch<P>)
    | WroteDump(path: string, html: string)

  /** The phase each step belongs to. */
  function Phase<P>(s: Step<P>): nat {
    match s
    case CheckedDump(_) => 0
    case BuiltUrl(_) => 1
    case ParsedProxy(_) => 2
    case Fetched(_) => 3
    case WroteDump(_, _) => 4
  }

  /** Steps strictly ordered by phase: each phase happens at most once, in order. */
  predicate Ordered<P>(steps: seq<Step<P>>) {
    forall i, j :: 0 <= i < j < |steps| ==> Phase(steps[i]) < Phase(steps[j])
  }

  predicate Fetches<P>(steps: seq<Step<P>>) {
    exists i :: 0 <= i < |steps| && steps[i].Fetched?
  }

  /** The step `s` is what the trace holds in the slot of its phase. */
  ghost predicate Recorded<P>(t: Trace<P>, s: Step<P>) {
    match s
    case CheckedDump(p) => t.checkedDump == Some(p)
    case BuiltUrl(u) => t.builtUrl == Some(u)
    case ParsedProxy(x) => t.parsedProxy == Some(x)
    case Fetched(f) => t.fetch == Some(f)
    case WroteDump(p, h) => t.wroteDump == Some((p, h))
  }

  /** The steps of one phase: the trace's slot for it, as zero or one steps. */
  function Piece<P>(t: Trace<P>, phase: nat): (r: seq<Step<P>>)
    ensures |r| <= 1
    ensures forall i :: 0 <= i < |r| ==> Phase(r[i]) == phase && Recorded(t, r[i])
  {
    match phase
    case 0 => if t.checkedDump.Some? then [CheckedDump(t.checkedDump.value)] else []
    case 1 => if t.builtUrl.Some? then [BuiltUrl(t.builtUrl.value)] else []
    case 2 => if t.parsedProxy.Some? then [ParsedProxy(t.parsedProxy.value)] else []
    case 3 => if t.fetch.Some? then [Fetched(t.fetch.value)] else []
    case 4 => if t.wroteDump.Some? then [WroteDump(t.wroteDump.value.0, t.wroteDump.value.1)] else []
    case _ => []
  }

  /** The trace as the sequence of steps taken. */
  function Steps<P>(t: Trace<P>): seq<Step<P>> {
    Piece(t, 0) + Piece(t, 1) + Piece(t, 2) + Piece(t, 3) + Piece(t, 4)
  }

  /** Every trace, seen as a sequence of steps, goes through the phases in order. */
  lemma StepsOrdered<P>(t: Trace<P>)
    ensures Ordered(Steps(t))
  {
  }

  /** The sequence of steps holds exactly the steps the trace records, nothing more and nothing less. */
  lemma StepsRecorded<P>(t: Trace<P>)
    ensures forall s :: s in Steps(t) <==> Recorded(t, s)
  {
  }

  /** The sequence of steps contains a fetch exactly when the trace's fetch slot is filled. */
  lemma StepsFetches<P>(t: Trace<P>)
    ensures Fetches(Steps(t)) <==> t.fetch.Some?
  {
    var steps := Steps(t);
    StepsRecorded(t);
    if t.fetch.Some? {
      assert Recorded(t, Fetched(t.fetch.value));
      var k :| 0 <= k < |steps| && steps[k] == Fetched(t.fetch.value);
    }
    if Fetches(steps) {
      var k :| 0 <= k < |steps| && steps[k].Fetched?;
      assert steps[k] in steps;
    }
  }

  /**
   In a trace that writes a dump only after fetching, the steps place every
   fetch before every dump write, and a dump write implies a fetch.
   */
  lemma DumpWriteAfterFetch<P>(t: Trace<P>)
    requires t.wroteDump.Some? ==> t.fetch.Some?
    ensures var s := Steps(t);
      forall i, j :: 0 <= i < |s| && 0 <= j < |s| && s[i].WroteDump? && s[j].Fetched? ==> j < i
    ensures var s := Steps(t);
      (exists i :: 0 <= i < |s| && s[i].WroteDump?) ==> Fetches(s)
  {
    var s := Steps(t);
    StepsOrdered(t);
    forall i, j | 0 <= i < |s| && 0 <= j < |s| && s[i].WroteDump? && s[j].Fetched?
      ensures j < i
    {
      assert Phase(s[j]) < Phase(s[i]);
    }
    if exists i :: 0 <= i < |s| && s[i].WroteDump? {
      var i :| 0 <= i < |s| && s[i].WroteDump?;
      StepsRecorded(t);
      assert s[i] in s;
      StepsFetches(t);
    }
  }

  /** The steps taken and how a run ended. */
  datatype Outcome<P, T> = Outcome(trace: Trace<P>, result: Result<T, Error>)

  /** Keywords or a file: the command has something to search for. */
  predicate HasInput(o: Options) {
    Truthy(o.keywords) || Truthy(o.file)
  }

  /**
   Validates the dump target. An existing file is refused unless forced;
   otherwise a directory that cannot be written is refused, forced or not.
   */
  function ValidateDump<P>(o: Options, env: Env<P>): (r: Option<Error>)
    ensures !Truthy(o.dump) ==> r.None?
    ensures r.Some? ==> Truthy(o.dump) && (r.value.DumpExists? || r.value.DumpUnwritable?)
    ensures r.Some? ==> r.value.path == o.dump.value
    ensures r.Some? && r.value.DumpExists? <==> Truthy(o.dump) && !o.forceDump && env.dumpExists
    ensures r.Some? && r.value.DumpUnwritable? <==>
              Truthy(o.dump) && (o.forceDump || !env.dumpExists) && !env.dumpDirWritable
  {
    if !Truthy(o.dump) then None
    else if !o.forceDump && env.dumpExists then Some(DumpExists(o.dump.value))
    else if !env.dumpDirWritable then Some(DumpUnwritable(o.dump.value))
    else None
  }

  /** The request a live query is issued with; the proxy is absent unless a proxy string is given. */
  function RequestFor<P>(o: Options, env: Env<P>): (req: Request<P>)
    ensures req.url == BuildUrl(o)
    ensures req.userAgent == SelectUserAgent(o.userAgent, o.mobile)
    ensures req.client == SelectClient(o.httpClient)
    ensures req.proxy.Some? <==> Truthy(o.proxy) && env.proxy.Ok?
    ensures req.proxy.Some? ==> req.proxy.value == env.proxy.value
  {
    Request(BuildUrl(o), SelectUserAgent(o.userAgent, o.mobile), SelectClient(o.httpClient),
            if Truthy(o.proxy) && env.proxy.Ok? then Some(env.proxy.value) else None)
  }

  /** `file_put_contents` succeeded in the command's eyes: it returned a non-zero byte count. */
  predicate DumpWritten(written: Option<nat>) {
    written.Some? && written.value != 0
  }

  /**
   Writes the dump when one is asked for, then reports; a dump that writes
   nothing fails the run.
   */
  function Finish<P>(o: Options, env: Env<P>, trace: Trace<P>, response: Response, client: Option<string>)
    : (out: Outcome<P, Report>)
    ensures out.trace == trace.(wroteDump := if Truthy(o.dump) then Some((o.dump.value, response.html)) else None)
    ensures out.result.Err? <==> Truthy(o.dump) && !DumpWritten(env.dumpWritten)
    ensures out.result.Err? ==> out.result.error == DumpWriteFailed(o.dump.value)
    ensures out.result.Ok? ==> out.result.value == BuildReport(BuildUrl(o), response, client)
  {
    var report := BuildReport(BuildUrl(o), response, client);
    if !Truthy(o.dump) then Outcome(trace.(wroteDump := None), Ok(report))
    else
      var dumped := trace.(wroteDump := Some((o.dump.value, response.html)));
      if DumpWritten(env.dumpWritten) then Outcome(dumped, Ok(report))
      else Outcome(dumped, Err(DumpWriteFailed(o.dump.value)))
  }

  /**
   Everything after validation: build the descriptor, then parse the file
   if one is given, or else parse the proxy and query live; then dump and
   report.
   */
  function Proceed<P>(o: Options, env: Env<P>, checked: Option<string>): (out: Outcome<P, Report>)
    ensures out.trace.checkedDump == checked
    ensures out.trace.builtUrl == Some(BuildUrl(o))
    ensures Truthy(o.file) ==> out.trace.fetch == Some(FromFile(o.file.value)) && out.trace.parsedProxy.None?
    ensures !Truthy(o.file) ==> out.trace.parsedProxy == (if Truthy(o.proxy) then o.proxy else None)
    ensures !Truthy(o.file) && out.trace.fetch.Some? ==> out.trace.fetch == Some(Live(RequestFor(o, env)))
    ensures out.trace.fetch.None? <==> out.result.Err? && out.result.error.InvalidProxy?
    ensures out.result.Err? && out.result.error.InvalidProxy? <==>
              !Truthy(o.file) && Truthy(o.proxy) && env.proxy.Err?
    ensures out.result.Err? && out.result.error.InvalidProxy? ==>
              out.result.error == InvalidProxy(o.proxy.value, env.proxy.error)
    ensures out.trace.wroteDump.Some? ==> Truthy(o.dump) && out.trace.fetch.Some?
    ensures out.result.Err? ==> !IsConfigError(out.result.error)
    ensures out.result.Ok? ==> out.trace.wroteDump.Some? == Truthy(o.dump)
    ensures out.result.Ok? ==> (out.result.value.httpClient.None? <==> Truthy(o.file))
    ensures out.result.Ok? ==> out.result.value.naturalResultsCount == |out.result.value.naturalResults|
  {
    var trace := NoSteps<P>().(checkedDump := checked, builtUrl := Some(BuildUrl(o)));
    if Truthy(o.file) then
      Finish(o, env, trace.(fetch := Some(FromFile(o.file.value))), env.fileResponse, None)
    else
      var proxied := trace.(parsedProxy := if Truthy(o.proxy) then o.proxy else None);
      if Truthy(o.proxy) && env.proxy.Err? then
        Outcome(proxied, Err(InvalidProxy(o.proxy.value, env.proxy.error)))
      else
        var request := RequestFor(o, env);
        var queried := proxied.(fetch := Some(Live(request)));
        match env.queryResponse
        case Err(reason) => Outcome(queried, Err(QueryFailed(reason)))
        case Ok(response) => Finish(o, env, queried, response, Some(ClientName(request.client)))
  }

  /** One run of the command. */
  function Run<P>(o: Options, env: Env<P>): (out: Outcome<P, Report>)
    ensures out.result == Err(MissingInput) <==> !HasInput(o)
    ensures !HasInput(o) ==> out.trace == NoSteps()
    ensures out.trace.checkedDump.Some? <==> HasInput(o) && Truthy(o.dump)
    ensures out.result.Err? && IsConfigError(out.result.error) ==>
              out.trace.builtUrl.None? && out.trace.parsedProxy.None?
              && out.trace.fetch.None? && out.trace.wroteDump.None?
    ensures out.trace.fetch.Some? ==> out.trace.builtUrl == Some(BuildUrl(o))
    ensures out.trace.fetch.Some? ==> (out.trace.fetch.value.FromFile? <==> Truthy(o.file))
    ensures out.trace.parsedProxy.Some? ==> !Truthy(o.file) && Truthy(o.proxy)
    ensures out.trace.parsedProxy.Some? ==> out.trace.builtUrl == Some(BuildUrl(o))
    ensures out.trace.wroteDump.Some? ==> Truthy(o.dump) && out.trace.fetch.Some?
    ensures out.result.Ok? ==> out.trace.fetch.Some?
    ensures out.result.Ok? ==> (out.result.value.httpClient.None? <==> Truthy(o.file))
    ensures out.result.Ok? ==> out.result.value.naturalResultsCount == |out.result.value.naturalResults|
  {
    if !HasInput(o) then Outcome(NoSteps(), Err(MissingInput))
    else
      var checked := if Truthy(o.dump) then o.dump else None;
      match ValidateDump(o, env)
      case Some(e) => Outcome(NoSteps<P>().(checkedDump := checked), Err(e))
      case None => Proceed(o, env, checked)
  }
}
