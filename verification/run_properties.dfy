/**
 Properties of whole runs of the command: what fails before anything is
 fetched, what a local file changes, what the live query is issued with,
 and what a successful run reports.
 */
module RunProperties {
  import opened Wrappers
  import opened Cli
  import opened Query
  import opened Transport
  import opened Results
  import opened Command

  /** Without keywords and without a file the run fails at once and does nothing else. */
  lemma MissingInputStopsRun<P>(o: Options, env: Env<P>)
    requires !HasInput(o)
    ensures Run(o, env) == Outcome(NoSteps(), Err(MissingInput))
    ensures Steps(Run(o, env).trace) == []
  {
  }

  /**
   An existing dump target without --force-dump fails the run after the dump
   check alone, before the descriptor is built or anything is fetched.
   */
  lemma DumpExistsFailsFirst<P>(o: Options, env: Env<P>, path: string)
    ensures Run(o, env).result == Err(DumpExists(path))
        <==> HasInput(o) && o.dump == Some(path) && Truthy(o.dump) && !o.forceDump && env.dumpExists
    ensures Run(o, env).result == Err(DumpExists(path)) ==> Steps(Run(o, env).trace) == [CheckedDump(path)]
  {
  }

  /**
   A dump target whose directory cannot be written fails the run before
   anything is fetched, also with --force-dump; an existing file without
   --force-dump is reported first.
   */
  lemma DumpUnwritableFailsFirst<P>(o: Options, env: Env<P>, path: string)
    ensures Run(o, env).result == Err(DumpUnwritable(path))
        <==> HasInput(o) && o.dump == Some(path) && Truthy(o.dump)
             && (o.forceDump || !env.dumpExists) && !env.dumpDirWritable
    ensures Run(o, env).result == Err(DumpUnwritable(path)) ==> Steps(Run(o, env).trace) == [CheckedDump(path)]
  {
  }

  /**
   A run takes a step only after the steps the command takes before it: the
   descriptor only once input and dump target have passed (with the dump
   check done iff a dump target is given), the proxy parse and the fetch only
   after the descriptor, a live fetch only after parsing a given proxy, and
   the dump write only after the fetch.
   */
  lemma RunPhasesInOrder<P>(o: Options, env: Env<P>)
    ensures var t := Run(o, env).trace;
      t.builtUrl.Some? ==> HasInput(o) && ValidateDump(o, env).None? && (t.checkedDump.Some? <==> Truthy(o.dump))
    ensures var t := Run(o, env).trace;
      t.parsedProxy.Some? || t.fetch.Some? ==> t.builtUrl == Some(BuildUrl(o))
    ensures var t := Run(o, env).trace;
      t.fetch.Some? && t.fetch.value.Live? && Truthy(o.proxy) ==> t.parsedProxy == o.proxy
    ensures var t := Run(o, env).trace;
      t.wroteDump.Some? ==> t.fetch.Some?
  {
  }

  /** A missing input or a refused dump target stops the run before any fetch. */
  lemma ConfigErrorsPrecedeFetch<P>(o: Options, env: Env<P>)
    requires Run(o, env).result.Err? && IsConfigError(Run(o, env).result.error)
    ensures !Fetches(Steps(Run(o, env).trace))
  {
  }

  /** A successful run fetched a page after building the descriptor. */
  lemma SuccessFetchedAfterUrl<P>(o: Options, env: Env<P>)
    requires Run(o, env).result.Ok?
    ensures Fetches(Steps(Run(o, env).trace))
    ensures var t := Steps(Run(o, env).trace);
      forall i :: 0 <= i < |t| && t[i].Fetched? ==> BuiltUrl(BuildUrl(o)) in t[..i]
  {
    var tr := Run(o, env).trace;
    var t := Steps(tr);
    StepsFetches(tr);
    StepsOrdered(tr);
    StepsRecorded(tr);
    assert BuiltUrl(BuildUrl(o)) in t;
    forall i | 0 <= i < |t| && t[i].Fetched?
      ensures BuiltUrl(BuildUrl(o)) in t[..i]
    {
      var k :| 0 <= k < |t| && t[k] == BuiltUrl(BuildUrl(o));
      assert Phase(t[k]) < Phase(t[i]);
      assert !(i < k) && k != i;
      assert t[..i][k] == t[k];
    }
  }

  /** Without a dump target neither dump step is taken and no dump error occurs. */
  lemma NoDumpNoDumpSteps<P>(o: Options, env: Env<P>)
    requires !Truthy(o.dump)
    ensures var t := Steps(Run(o, env).trace);
      forall i :: 0 <= i < |t| ==> !t[i].CheckedDump? && !t[i].WroteDump?
    ensures var out := Run(o, env);
      out.result.Err? ==>
        !(out.result.error.DumpExists? || out.result.error.DumpUnwritable? || out.result.error.DumpWriteFailed?)
  {
    var tr := Run(o, env).trace;
    var t := Steps(tr);
    StepsRecorded(tr);
    forall i | 0 <= i < |t|
      ensures !t[i].CheckedDump? && !t[i].WroteDump?
    {
      assert t[i] in t;
    }
  }

  /**
   A given file is parsed instead of querying, even with keywords: the run
   builds the descriptor, parses the file, and never parses a proxy or
   issues a query; a successful report names no client.
   */
  lemma FileTakesPrecedence<P>(o: Options, env: Env<P>)
    requires Truthy(o.file) && ValidateDump(o, env).None?
    ensures Run(o, env).trace
        == Trace(if Truthy(o.dump) then o.dump else None, Some(BuildUrl(o)), None,
                 Some(FromFile(o.file.value)),
                 if Truthy(o.dump) then Some((o.dump.value, env.fileResponse.html)) else None)
    ensures Run(o, env).result.Ok? <==> !Truthy(o.dump) || DumpWritten(env.dumpWritten)
    ensures Run(o, env).result.Err? ==> Run(o, env).result == Err(DumpWriteFailed(o.dump.value))
    ensures Run(o, env).result.Ok? ==>
              Run(o, env).result.value == BuildReport(BuildUrl(o), env.fileResponse, None)
  {
  }

  /** When a file is given, the proxy parser and the live query are never consulted. */
  lemma FileRunIgnoresNetwork<P>(o: Options, env: Env<P>, proxy: Result<P, string>, query: Result<Response, string>)
    requires Truthy(o.file)
    ensures Run(o, env.(proxy := proxy, queryResponse := query)) == Run(o, env)
  {
  }

  /**
   Without a file, and once validation and proxy parsing pass, the query is
   issued for the descriptor built from the options, with the effective user
   agent and the normalised client; a successful report names that client.
   */
  lemma LiveQueryRequest<P>(o: Options, env: Env<P>)
    requires HasInput(o) && !Truthy(o.file) && ValidateDump(o, env).None?
    requires !(Truthy(o.proxy) && env.proxy.Err?)
    ensures Run(o, env).trace.fetch == Some(Live(RequestFor(o, env)))
    ensures Fetched(Live(RequestFor(o, env))) in Steps(Run(o, env).trace)
    ensures Run(o, env).result.Ok? <==> env.queryResponse.Ok? && (!Truthy(o.dump) || DumpWritten(env.dumpWritten))
    ensures env.queryResponse.Err? ==> Run(o, env).result == Err(QueryFailed(env.queryResponse.error))
    ensures env.queryResponse.Ok? && Run(o, env).result.Err? ==> Run(o, env).result == Err(DumpWriteFailed(o.dump.value))
    ensures Run(o, env).result.Ok? ==>
              Run(o, env).result.value
                == BuildReport(BuildUrl(o), env.queryResponse.value, Some(ClientName(SelectClient(o.httpClient))))
  {
  }

  /** With both --mobile and --user-agent, the query carries exactly the given user agent. */
  lemma ExplicitUserAgentBeatsMobile<P>(o: Options, env: Env<P>)
    requires o.mobile && Truthy(o.userAgent)
    ensures RequestFor(o, env).userAgent == Explicit(o.userAgent.value)
    ensures UserAgentString(RequestFor(o, env).userAgent) == o.userAgent.value
  {
  }

  /** A refused proxy string fails the run before any query, and only on the live-query path. */
  lemma InvalidProxyFailsBeforeQuery<P>(o: Options, env: Env<P>, spec: string, reason: string)
    ensures Run(o, env).result == Err(InvalidProxy(spec, reason)) <==>
              HasInput(o) && ValidateDump(o, env).None? && !Truthy(o.file)
              && o.proxy == Some(spec) && Truthy(o.proxy) && env.proxy == Err(reason)
    ensures Run(o, env).result == Err(InvalidProxy(spec, reason)) ==>
              Run(o, env).trace == Trace(if Truthy(o.dump) then o.dump else None, Some(BuildUrl(o)), Some(spec), None, None)
  {
  }

  /** A dump is only ever written after a fetch: in the steps of every run, every fetch precedes every dump write. */
  lemma DumpFollowsFetch<P>(o: Options, env: Env<P>)
    ensures var t := Steps(Run(o, env).trace);
      && (forall i, j :: 0 <= i < |t| && 0 <= j < |t| && t[i].WroteDump? && t[j].Fetched? ==> j < i)
      && ((exists i :: 0 <= i < |t| && t[i].WroteDump?) ==> Fetches(t))
  {
    DumpWriteAfterFetch(Run(o, env).trace);
  }

  /**
   A file run with every other option at its default builds the descriptor
   for www.google.com, parses the file, succeeds, and reports no client.
   */
  lemma FileRunWithDefaults<P>(env: Env<P>, file: string)
    requires file != "" && file != "0"
    ensures var o := DefaultOptions(None).(file := Some(file));
      && Steps(Run(o, env).trace) == [BuiltUrl(GoogleUrl("www.google.com", None, 1, 10, None)), Fetched(FromFile(file))]
      && Run(o, env).result.Ok?
      && Run(o, env).result.value.httpClient.None?
  {
    var o := DefaultOptions(None).(file := Some(file));
    DefaultUrl(None);
    BuildUrlDependsOnQueryOptions(o, DefaultOptions(None));
    FileTakesPrecedence(o, env);
  }
}
