/**
 The options of the `google:search` command as the command reads them, with
 the defaults its option declarations give, PHP's truthiness of string
 options, and the errors the command throws.
 */
module Cli {
  import opened Wrappers

  const DefaultTld := "com"
  const DefaultPage := 1
  const DefaultResultsPerPage := 10
  const DefaultHttpClient := "curl"

  /**
   The resolved option bag. String options that may be left out are
   `Option<string>`; the two flags are booleans. `page` and `resPerPage` are
   taken as the integers the user gave.
   */
  datatype Options = Options(
    keywords: Option<string>,
    file: Option<string>,
    tld: string,
    lr: Option<string>,
    page: int,
    resPerPage: int,
    dump: Option<string>,
    forceDump: bool,
    mobile: bool,
    userAgent: Option<string>,
    proxy: Option<string>,
    httpClient: string)

  /** Every option at its declared default, with only the keywords given. */
  function DefaultOptions(keywords: Option<string>): (o: Options)
    ensures o.keywords == keywords && o.file.None?
    ensures o.tld == "com" && o.page == 1 && o.resPerPage == 10 && o.httpClient == "curl"
    ensures o.lr.None? && o.dump.None? && o.userAgent.None? && o.proxy.None?
    ensures !o.forceDump && !o.mobile
  {
    Options(keywords, None, DefaultTld, None, DefaultPage, DefaultResultsPerPage,
            None, false, false, None, None, DefaultHttpClient)
  }

  /** PHP's truthiness of a string-or-null value: `null`, `""` and `"0"` are false. */
  predicate Truthy(s: Option<string>) {
    s.Some? && s.value != "" && s.value != "0"
  }

  /**
   A missing value is false; a string is true exactly when it is longer than
   one character or is one character other than `0`.
   */
  lemma TruthyStrings(s: string)
    ensures !Truthy(None)
    ensures Truthy(Some(s)) <==> |s| > 1 || (|s| == 1 && s[0] != '0')
  {
    if |s| == 1 && s[0] == '0' {
      assert s == "0";
    }
  }

  /** What the command throws. */
  datatype Error =
    | MissingInput                 // neither keywords nor --file
    | DumpExists(path: string)     // --dump target exists and --force-dump is off
    | DumpUnwritable(path: string) // the --dump target's directory is not writable
    | InvalidProxy(spec: string, reason: string) // the proxy parser refused the string, with its message
    | QueryFailed(reason: string)  // the live query threw
    | DumpWriteFailed(path: string) // writing the dump wrote nothing

  /** The errors detected from the options and the file system alone, before any query. */
  predicate IsConfigError(e: Error) {
    e.MissingInput? || e.DumpExists? || e.DumpUnwritable?
  }

  /** The fixed parts of the messages the command writes itself; "a a file" is the source's wording. */
  const MissingInputText := "You have to specify keywords to search for a a file (--file) to parse."
  const DumpExistsText := " already exists. Use --force-dump to allow file override."
  const DumpUnwritableText := " cannot be written"
  const DumpWriteFailedText := "An error happened while dumping the file "

  /** The message of each error. The proxy and query messages are the ones the library threw. */
  function Message(e: Error): (m: string)
    ensures (e.DumpExists? || e.DumpUnwritable?) ==> "file " + e.path <= m
    ensures e.DumpWriteFailed? ==> |e.path| <= |m| && m[|m| - |e.path|..] == e.path
    ensures e.MissingInput? ==> |m| > 0
    ensures e.InvalidProxy? || e.QueryFailed? ==> m == e.reason
  {
    match e
    case MissingInput => MissingInputText
    case DumpExists(p) => "file " + p + DumpExistsText
    case DumpUnwritable(p) => "file " + p + DumpUnwritableText
    case InvalidProxy(_, r) => r
    case QueryFailed(r) => r
    case DumpWriteFailed(p) => DumpWriteFailedText + p
  }

  /** The two dump errors carry different messages for the same path. */
  lemma DumpMessagesDiffer(p: string)
    ensures Message(DumpExists(p)) != Message(DumpUnwritable(p))
  {
  }
}
