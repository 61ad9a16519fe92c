# google:search — a Dafny model of the command's decisions

serps-cli's `google:search` console command searches Google or parses a saved
result page, then prints the natural results as JSON. This project models the
decisions the command makes around the search library it drives. The library
itself is left out.

- **Input and options.** The command fails unless keywords or `--file` are
  given. It validates the `--dump` target before anything is fetched. It
  builds the query descriptor: host `www.google.<tld>`, search term, page,
  results per page, and a language restriction only for a truthy `--lr`.
  Option values follow PHP's truthiness: `null`, `""` and `"0"` count as
  absent.
- **Transport.** An explicit `--user-agent` wins over `--mobile`; otherwise
  one of two fixed strings is sent. `--http-client` selects PhantomJS only
  for exactly `phantomjs` and curl for anything else, and the normalised
  name is what the report shows.
- **Normalisation.** Each natural-result item becomes an ordered JSON object:
  - its raw `types` list;
  - then the fields of the first kind it matches, in the order CLASSICAL,
    TOP_STORIES, VIDEO_GROUP, KNOWLEDGE, IMAGE_GROUP.

  Related searches are copied as title/URL pairs. `natural-results-count` is
  the length of the natural-results list.
- **Run order.** One run of the command goes through these phases:
  1. check the dump target;
  2. build the descriptor;
  3. parse the proxy;
  4. fetch, by parsing the file or querying live;
  5. write the dump;
  6. report.

  The run records what it did as a `Trace`, with one slot per phase. The
  lemmas show that configuration errors stop the run before any fetch, and
  that a dump is written only after a fetch.

The outside world is the `Env` record, which holds the answers a run receives:
- whether the dump file exists;
- whether its directory is writable;
- the page parsed from `--file`;
- the parsed proxy, or the message the proxy parser threw;
- the page the live query returns, or what it threw;
- how many bytes the dump write wrote.

Modules, one per concern:
- `Wrappers`: `Option` and `Result`.
- `Json`: ordered JSON values.
- `Cli`: the options, truthiness and errors.
- `Query`: the descriptor.
- `Transport`: the user agent and the client.
- `Results`: items, kind dispatch and the report.
- `Command`: one run.
- `RunProperties`: lemmas about whole runs.

## Model

| member | source | states |
|---|---|---|
| Cli.DefaultOptions | src/Command/Google/Search.php:34-122 | with only keywords given, tld is `com`, page 1, 10 results per page, client `curl`, and every other option absent or off |
| Cli.TruthyStrings | src/Command/Google/Search.php:135-137 | PHP truthiness as the tests at lines 135, 149, 165, 186 and 208 apply it: a missing value is false, and a string is true iff it is longer than one character or is one character other than `0` |
| Cli.Message | src/Command/Google/Search.php:136-237 | both dump errors start with `file <path>`, the dump-write error ends with the path, the missing-input message is not empty, and the proxy and query errors carry the message the library threw |
| Cli.DumpMessagesDiffer | src/Command/Google/Search.php:154-158 | for the same path, "already exists" and "cannot be written" are different messages |
| Query.BuildUrl | src/Command/Google/Search.php:161-167 | the host is `www.google.` followed by exactly the tld; search term, page and results per page are passed through; a language restriction is present iff `--lr` is truthy, and then it equals `--lr` |
| Query.TldOfHost | src/Command/Google/Search.php:161 | reading the tld back from a built host gives the tld the user chose |
| Query.HostDeterminesTld | src/Command/Google/Search.php:161 | two option sets give the same host iff they have the same tld |
| Query.BuildUrlDependsOnQueryOptions | src/Command/Google/Search.php:161-167 | the descriptor is determined by keywords, tld, lr, page and page size alone |
| Query.PageSizeNotClamped | src/Command/Google/Search.php:161-167 | a results-per-page above the documented maximum of 100 reaches the descriptor unchanged |
| Query.DefaultUrl | src/Command/Google/Search.php:161-167 | with the declared defaults the descriptor is www.google.com, page 1, 10 results, no language restriction |
| Transport.SelectUserAgent | src/Command/Google/Search.php:181-199 | the user agent is explicit iff `--user-agent` is truthy, and then it is that string; the mobile default is chosen iff none is given and `--mobile` is set |
| Transport.EffectiveUserAgent | src/Command/Google/Search.php:186-191 | the string sent is the given one, or else the mobile string iff `--mobile`, or else the desktop string; it is never empty or `"0"` |
| Transport.MobileFlagMatters | src/Command/Google/Search.php:183-192 | `--mobile` changes the sent user agent iff no explicit user agent is given |
| Transport.ClientName | src/Command/Google/Search.php:216-222 | a reported client name is `curl` or `phantomjs` |
| Transport.SelectClient | src/Command/Google/Search.php:215-223 | PhantomJS is selected iff the option is exactly `phantomjs` |
| Transport.SelectClientName | src/Command/Google/Search.php:216-222 | selecting by a reported name gives the same client back |
| Transport.ReportedClientName | src/Command/Google/Search.php:215-223 | the reported name equals the option iff the option is `curl` or `phantomjs`; every other value is reported as `curl` |
| Transport.SelectClientIdempotent | src/Command/Google/Search.php:216-222 | normalising an already normalised client name changes nothing |
| Results.FirstKind | src/Command/Google/Search.php:293-332 | the chosen kind is one the item is, and no earlier kind in the testing order is; none is chosen iff the item is none of the kinds |
| Results.FirstKindUnique | src/Command/Google/Search.php:293-332 | a kind the item is, with no earlier kind matching, is the one dispatched |
| Results.EntryKeysDistinct | src/Command/Google/Search.php:289-333 | no normalised entry repeats a member name |
| Results.NormalizeItem | src/Command/Google/Search.php:266-270 | an entry's member names are `types` and then the fields of the first-matching kind (only `types` when none matches); `types` holds the item's types, and every other member holds the item's accessor of that name |
| Results.EntryLookup | src/Command/Google/Search.php:289-333 | looking an entry up by each of its member names gives the raw types or the item's accessor of that name (news as title/url pairs, videos as titles, `imagesCount` as the number of images) |
| Results.KeysDetermineKind | src/Command/Google/Search.php:289-333 | each kind's member-name list reads back as that kind, and the bare `types` list reads back as no kind |
| Results.EntryKindOfNormalizeItem | src/Command/Google/Search.php:289-333 | the kind read back from an entry's member names is the kind the dispatch chose |
| Results.NormalizeItems | src/Command/Google/Search.php:264-273 | one entry per item, in order, each the normalisation of its item |
| Results.TypesPreserved | src/Command/Google/Search.php:266-268 | every entry, whatever its kind, carries its item's raw type list |
| Json.AsStringsOfStrings | src/Command/Google/Search.php:266-268 | a type list encoded as a JSON array reads back as the same list |
| Results.NormalizeItemsAppend | src/Command/Google/Search.php:264-273 | items are normalised independently: normalising a concatenation concatenates the normalised parts |
| Results.AsLinksOfLinkValues | src/Command/Google/Search.php:276-281 | related searches encoded as title/url objects read back as the same list in the same order |
| Results.BuildReport | src/Command/Google/Search.php:245-283 | the count equals the number of natural results and of items; each result normalises its item; related searches are the title/url pairs verbatim; total count, URL, client, evaluated and mobile flags are passed through |
| Results.ReportValue | src/Command/Google/Search.php:251-261 | the printed object has the nine members in source order, each holding the report's value of that name (`ReportField`): rendered initial URL, response URL, client or `null`, evaluated and mobile flags, count, total, natural results, related searches |
| Results.ReportLookup | src/Command/Google/Search.php:251-261 | looking up each of the nine member names in the printed object gives the report's value of that name |
| Results.PrintedRelatedSearches | src/Command/Google/Search.php:276-281 | the printed `related-searches` are the page's related searches as title/url pairs, and they read back as the same list in the same order |
| Results.ReportKeysDistinct | src/Command/Google/Search.php:251-261 | no member name of the report occurs twice |
| Results.PrintedCountMatches | src/Command/Google/Search.php:283 | in the printed object `natural-results-count` is the length of `natural-results`, 0 included |
| Command.ValidateDump | src/Command/Google/Search.php:148-159 | without a truthy `--dump` there is no error; "already exists" iff the file exists and force is off; "cannot be written" iff the directory is not writable and force is on or the file is absent |
| Command.RequestFor | src/Command/Google/Search.php:181-225 | the live query uses the built descriptor, the selected user agent and the normalised client; it carries a proxy iff `--proxy` is truthy and parsed, and then it is the parsed proxy |
| Command.Finish | src/Command/Google/Search.php:232-239 | the dump is written iff `--dump` is truthy; the run fails iff a dump was asked for and the write returned false or 0 bytes; otherwise it reports the fetched page |
| Command.Proceed | src/Command/Google/Search.php:161-239 | the descriptor is built before the fetch; a file is parsed instead of querying and no proxy is parsed then; a refused proxy stops the run before any query, with the parser's message; the report names a client iff no file was given |
| Command.Run | src/Command/Google/Search.php:129-239 | missing input iff neither keywords nor file is truthy; a configuration error leaves no descriptor, proxy, fetch or dump step; the dump check happens iff there is input and a truthy `--dump`; a fetch comes from the file iff a file is given; success implies a fetch |
| RunProperties.MissingInputStopsRun | src/Command/Google/Search.php:135-137 | without keywords and file, the run fails with no step taken, whatever the other options |
| RunProperties.DumpExistsFailsFirst | src/Command/Google/Search.php:149-155 | the run fails with "already exists" iff there is input, a truthy dump, force is off and the file exists; the dump check is then its only step |
| RunProperties.DumpUnwritableFailsFirst | src/Command/Google/Search.php:149-158 | the run fails with "cannot be written" iff there is input, a truthy dump, the directory is not writable, and force is on or the file is absent; the dump check is then its only step |
| RunProperties.RunPhasesInOrder | src/Command/Google/Search.php:134-239 | the descriptor is built only after input and dump target pass (with the dump check done iff a dump target is given); the proxy parse and the fetch only after the descriptor; a live fetch only after parsing a given proxy; the dump write only after the fetch |
| RunProperties.ConfigErrorsPrecedeFetch | src/Command/Google/Search.php:135-176 | a run ending in a configuration error took no fetch step |
| RunProperties.SuccessFetchedAfterUrl | src/Command/Google/Search.php:161-229 | a successful run fetched, and the descriptor was built before that fetch |
| RunProperties.NoDumpNoDumpSteps | src/Command/Google/Search.php:148-159 | without a truthy dump, no dump check or write happens and no dump error occurs |
| RunProperties.FileTakesPrecedence | src/Command/Google/Search.php:172-238 | with a file and a valid dump target, the run builds the descriptor and parses the file, with no proxy or query, even with keywords; it fails iff an asked-for dump writes false or 0 bytes, and then with the dump-write error; a success reports the file's page with no client |
| RunProperties.FileRunIgnoresNetwork | src/Command/Google/Search.php:172-229 | with a file, the proxy parser and the live query have no influence on the run |
| RunProperties.LiveQueryRequest | src/Command/Google/Search.php:176-238 | without a file, once validation and proxy pass, the query is issued with the request built from the options; the run succeeds iff the query returns a page and any asked-for dump is written; a failed query fails the run with the library's reason, and a failure after a returned page is the dump-write error; the report then names the normalised client |
| RunProperties.ExplicitUserAgentBeatsMobile | src/Command/Google/Search.php:186-199 | with both `--mobile` and `--user-agent`, the query sends exactly the given user agent |
| RunProperties.InvalidProxyFailsBeforeQuery | src/Command/Google/Search.php:206-210 | the run fails on a proxy string with a message iff input and dump are valid, no file is given, and the parser refuses the truthy proxy string with that message; the proxy parse is then the last step |
| RunProperties.DumpFollowsFetch | src/Command/Google/Search.php:232-239 | in every run a dump write implies a fetch; the step sequence places that fetch before the write by its phase order |
| RunProperties.FileRunWithDefaults | src/Command/Google/Search.php:161-176 | a file run with default options builds the www.google.com descriptor, parses the file, succeeds and names no client |

## Left out

- The network, and construction of the Browser, GoogleClient, CurlClient and PhantomJsClient (lines 225-228). These are library calls. The query's answer is `Env.queryResponse`, a page or the reason it threw.
- Proxy::createFromString (line 209) belongs to the library. Its answer is `Env.proxy`: the proxy object, or the message it threw. The proxy object's type is the parameter `P`.
- HTML parsing in GoogleSerp. Items come in as the abstract `Item` datatype. The parser's `is(kind)` answers are the item's `kinds` set. How the library relates kinds to the raw `types` names is not part of this model.
- `file_get_contents` (line 175) and a failed read are left out. The page parsed from the file is `Env.fileResponse`.
- `file_put_contents` (line 235) is the byte count `Env.dumpWritten`, with `None` standing for `false`.
- The race between the dump check and the dump write (line 153) is not modelled. The two file-system answers are fixed for the whole run.
- JSON pretty-print encoding and console output (line 285) are left out.
- The verbose notice for using `--mobile` together with `--user-agent` (lines 193-198) is left out.
- `(string) $url` is the library's rendering of the descriptor. `Results.ReportValue` takes it as a parameter.
- configure() (lines 34-122) is framework declaration. Only its defaults are modelled, in `Cli.DefaultOptions`.
- brief() is left out.
- Option values arrive already typed:
  - page and results per page are integers, with no coercion of console strings;
  - `--tld` and `--http-client` given without a value are the empty string, where PHP would have `null`;
  - the host is still `www.google.` followed by the tld;
  - an empty `--http-client` still selects curl.
- PHP truthiness is modelled for strings and null only: `null`, `""` and `"0"` are false.
- Cli.Message: for the two dump errors it states only that the message starts with `file <path>`, and for the write error only that it ends with the path. The remaining wording is the fixed text of the `Cli` constants. The proxy and query errors carry the message the library threw, which is part of `Env`.
