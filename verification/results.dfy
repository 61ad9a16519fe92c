/**
 Result normalisation: each natural-result item the parser found becomes a
 JSON object holding its raw type list plus the fields of its kind, and the
 whole parsed page becomes the report the command prints.
 */
module Results {
  import opened Wrappers
  import Json
  import opened Query

  /** The result kinds the command knows, in the order it tests them. */
  datatype Kind = Classical | TopStories | VideoGroup | Knowledge | ImageGroup

  const KindOrder: seq<Kind> := [Classical, TopStories, VideoGroup, Knowledge, ImageGroup]

  /** The position of a kind in the testing order. */
  function Rank(k: Kind): (r: nat)
    ensures r < |KindOrder| && KindOrder[r] == k
  {
    match k
    case Classical => 0
    case TopStories => 1
    case VideoGroup => 2
    case Knowledge => 3
    case ImageGroup => 4
  }

  /** A title and a URL: a news entry, a video, or a related search. */
  datatype Link = Link(title: string, url: string)

  /**
   One natural-result item as the parser exposes it: its raw type names, the
   kinds its `is` query answers yes to, and the per-kind accessors (each
   meaningful only for the kinds that use it).
   */
  datatype Item = Item(
    types: seq<string>,
    kinds: set<Kind>,
    title: string,
    url: string,
    isCarousel: bool,
    news: seq<Link>,
    videos: seq<Link>,
    images: seq<string>)

  predicate Is(item: Item, k: Kind) {
    k in item.kinds
  }

  /** An item that is none of the five kinds the dispatch checks is no kind at all. */
  lemma NoKindMatched(item: Item)
    requires forall i :: 0 <= i < |KindOrder| ==> !Is(item, KindOrder[i])
    ensures forall k :: !Is(item, k)
  {
    forall k ensures !Is(item, k) {
      assert KindOrder[Rank(k)] == k;
    }
  }

  /**
   The kind whose fields the item gets: the first kind, in the testing order,
   that the item is; none when it is none of them.
   */
  function FirstKind(item: Item): (r: Option<Kind>)
    ensures r.Some? ==> Is(item, r.value)
    ensures r.Some? ==> forall k :: Rank(k) < Rank(r.value) ==> !Is(item, k)
    ensures r.None? <==> forall k :: !Is(item, k)
  {
    if Is(item, Classical) then Some(Classical)
    else if Is(item, TopStories) then Some(TopStories)
    else if Is(item, VideoGroup) then Some(VideoGroup)
    else if Is(item, Knowledge) then Some(Knowledge)
    else if Is(item, ImageGroup) then Some(ImageGroup)
    else
      NoKindMatched(item);
      None
  }

  /** Exactly one kind is the first match, so the dispatch picks one kind at most. */
  lemma FirstKindUnique(item: Item, k: Kind)
    requires Is(item, k)
    requires forall k' :: Rank(k') < Rank(k) ==> !Is(item, k')
    ensures FirstKind(item) == Some(k)
  {
  }

  /** A title/URL pair as a JSON object. */
  function LinkValue(l: Link): Json.Value {
    Json.Obj([("title", Json.Str(l.title)), ("url", Json.Str(l.url))])
  }

  /** A list of title/URL pairs as JSON objects, one for one and in order. */
  function LinkValues(ls: seq<Link>): (r: seq<Json.Value>)
    ensures |r| == |ls|
    ensures forall i :: 0 <= i < |ls| ==> r[i] == LinkValue(ls[i])
  {
    seq(|ls|, i requires 0 <= i < |ls| => LinkValue(ls[i]))
  }

  /** Reads a title/URL object back. */
  function AsLink(v: Json.Value): Option<Link> {
    if v.Obj? && |v.members| == 2
       && v.members[0].0 == "title" && v.members[0].1.Str?
       && v.members[1].0 == "url" && v.members[1].1.Str?
    then Some(Link(v.members[0].1.s, v.members[1].1.s))
    else None
  }

  /** Reads a list of title/URL objects back; fails if any element is not one. */
  function AsLinks(vs: seq<Json.Value>): Option<seq<Link>> {
    if vs == [] then Some([])
    else
      match (AsLink(vs[0]), AsLinks(vs[1..]))
      case (Some(l), Some(rest)) => Some([l] + rest)
      case _ => None
  }

  /** Title/URL lists survive the trip through JSON unchanged: same length, same order. */
  lemma {:induction false} AsLinksOfLinkValues(ls: seq<Link>)
    ensures AsLinks(LinkValues(ls)) == Some(ls)
  {
    if ls != [] {
      assert LinkValues(ls)[1..] == LinkValues(ls[1..]);
      AsLinksOfLinkValues(ls[1..]);
      assert [ls[0]] + ls[1..] == ls;
    }
  }

  /** The video entries: only each video's title is kept, in order. */
  function VideoValues(videos: seq<Link>): (r: seq<Json.Value>)
    ensures |r| == |videos|
    ensures forall i :: 0 <= i < |videos| ==> r[i] == Json.Obj([("title", Json.Str(videos[i].title))])
  {
    seq(|videos|, i requires 0 <= i < |videos| => Json.Obj([("title", Json.Str(videos[i].title))]))
  }

  /** The fields a kind adds after `types`. */
  function KindFields(item: Item, k: Kind): seq<(string, Json.Value)> {
    match k
    case Classical => [("title", Json.Str(item.title)), ("url", Json.Str(item.url))]
    case TopStories => [("isCarousel", Json.Bool(item.isCarousel)), ("news", Json.Arr(LinkValues(item.news)))]
    case VideoGroup => [("videos", Json.Arr(VideoValues(item.videos)))]
    case Knowledge => [("title", Json.Str(item.title))]
    case ImageGroup => [("isCarousel", Json.Bool(item.isCarousel)), ("imagesCount", Json.Int(|item.images|))]
  }

  /**
   The value of a field, by name, as the item's accessor of that name gives
   it; the names are the ones the result kinds use.
   */
  function FieldValue(item: Item, name: string): Json.Value {
    if name == "title" then Json.Str(item.title)
    else if name == "url" then Json.Str(item.url)
    else if name == "isCarousel" then Json.Bool(item.isCarousel)
    else if name == "news" then Json.Arr(LinkValues(item.news))
    else if name == "videos" then Json.Arr(VideoValues(item.videos))
    else if name == "imagesCount" then Json.Int(|item.images|)
    else Json.Null
  }

  /** The member names a normalised entry of the given kind has, in order. */
  function EntryKeys(k: Option<Kind>): seq<string> {
    match k
    case None => ["types"]
    case Some(Classical) => ["types", "title", "url"]
    case Some(TopStories) => ["types", "isCarousel", "news"]
    case Some(VideoGroup) => ["types", "videos"]
    case Some(Knowledge) => ["types", "title"]
    case Some(ImageGroup) => ["types", "isCarousel", "imagesCount"]
  }

  /** No entry repeats a member name. */
  lemma EntryKeysDistinct(k: Option<Kind>)
    ensures var keys := EntryKeys(k);
      forall i, j :: 0 <= i < j < |keys| ==> keys[i] != keys[j]
  {
  }

  /**
   Normalises one item: its raw types first, then the fields of its
   first-matching kind, each holding the item's accessor of that name.
   */
  function NormalizeItem(item: Item): (r: Json.Value)
    ensures r.Obj? && Json.Keys(r.members) == EntryKeys(FirstKind(item))
    ensures r.members[0].1 == Json.Arr(Json.Strings(item.types))
    ensures forall i :: 1 <= i < |r.members| ==> r.members[i].1 == FieldValue(item, r.members[i].0)
  {
    var kind := FirstKind(item);
    var fields := if kind.Some? then KindFields(item, kind.value) else [];
    Json.Obj([("types", Json.Arr(Json.Strings(item.types)))] + fields)
  }

  /** An entry finds its raw types, and each field of its kind, by name. */
  lemma EntryLookup(item: Item, name: string)
    requires name in EntryKeys(FirstKind(item))
    ensures Json.Get(NormalizeItem(item).members, name)
         == Some(if name == "types" then Json.Arr(Json.Strings(item.types)) else FieldValue(item, name))
  {
    var members := NormalizeItem(item).members;
    EntryKeysDistinct(FirstKind(item));
    var i :| 0 <= i < |members| && Json.Keys(members)[i] == name;
    Json.GetAt(members, i);
    if i == 0 {
      assert name == "types";
    } else {
      assert name != "types";
    }
  }

  /** The kind a list of member names reveals; none when it is no kind's list. */
  function KindOfKeys(keys: seq<string>): (r: Option<Kind>)
  {
    if keys == EntryKeys(Some(Classical)) then Some(Classical)
    else if keys == EntryKeys(Some(TopStories)) then Some(TopStories)
    else if keys == EntryKeys(Some(VideoGroup)) then Some(VideoGroup)
    else if keys == EntryKeys(Some(Knowledge)) then Some(Knowledge)
    else if keys == EntryKeys(Some(ImageGroup)) then Some(ImageGroup)
    else None
  }

  /** The member names tell the kinds apart: each kind's names read back as that kind. */
  lemma KeysDetermineKind(k: Option<Kind>)
    ensures KindOfKeys(EntryKeys(k)) == k
  {
  }

  /** Reads the kind of a normalised entry back from its member names. */
  function EntryKind(entry: Json.Value): Option<Kind> {
    if entry.Obj? then KindOfKeys(Json.Keys(entry.members)) else None
  }

  /**
   The entry is tagged with exactly the kind the dispatch chose: reading the
   kind back from the member names gives it, and an unmatched item reads
   back as no kind.
   */
  lemma EntryKindOfNormalizeItem(item: Item)
    ensures EntryKind(NormalizeItem(item)) == FirstKind(item)
  {
  }

  /** Normalises the items one for one, keeping their order. */
  function NormalizeItems(items: seq<Item>): (r: seq<Json.Value>)
    ensures |r| == |items|
    ensures forall i :: 0 <= i < |items| ==> r[i] == NormalizeItem(items[i])
  {
    if items == [] then []
    else [NormalizeItem(items[0])] + NormalizeItems(items[1..])
  }

  /** Every entry carries its item's raw type list, whatever its kind. */
  lemma TypesPreserved(items: seq<Item>, i: nat)
    requires i < |items|
    ensures Json.Get(NormalizeItems(items)[i].members, "types")
         == Some(Json.Arr(Json.Strings(items[i].types)))
    ensures NormalizeItems(items)[i].Obj?
  {
  }

  /**
   Items are normalised independently of each other: normalising a
   concatenation concatenates the normalised parts.
   */
  lemma NormalizeItemsAppend(a: seq<Item>, b: seq<Item>)
    ensures NormalizeItems(a + b) == NormalizeItems(a) + NormalizeItems(b)
  {
  }

  /** The parsed page as the search library exposes it. */
  datatype Response = Response(
    html: string,          // the rendered document, written by --dump
    url: string,           // the URL the engine resolved
    evaluated: bool,       // whether javascript was evaluated
    mobile: bool,          // whether the page is the mobile layout
    totalCount: int,       // the engine's own estimate of the number of results
    items: seq<Item>,      // the natural results, in page order
    related: seq<Link>)    // the related searches, in page order

  /** The report the command prints, before JSON encoding. */
  datatype Report = Report(
    initialUrl: GoogleUrl,
    url: string,
    httpClient: Option<string>,
    evaluated: bool,
    isMobileDom: bool,
    naturalResultsCount: int,
    totalCount: int,
    naturalResults: seq<Json.Value>,
    relatedSearches: seq<Json.Value>)

  /**
   Assembles the report from the initial URL, the parsed page and the name of
   the client used (none when a file was parsed).
   */
  function BuildReport(initialUrl: GoogleUrl, response: Response, client: Option<string>): (r: Report)
    ensures r.naturalResultsCount == |r.naturalResults| == |response.items|
    ensures forall i :: 0 <= i < |response.items| ==> r.naturalResults[i] == NormalizeItem(response.items[i])
    ensures r.relatedSearches == LinkValues(response.related)
    ensures AsLinks(r.relatedSearches) == Some(response.related)
    ensures r.totalCount == response.totalCount
    ensures r.initialUrl == initialUrl && r.url == response.url && r.httpClient == client
    ensures r.evaluated == response.evaluated && r.isMobileDom == response.mobile
  {
    AsLinksOfLinkValues(response.related);
    var natural := NormalizeItems(response.items);
    Report(initialUrl, response.url, client, response.evaluated, response.mobile,
           |natural|, response.totalCount, natural, LinkValues(response.related))
  }

  /** The member names of the printed report, in order. */
  const ReportKeys := ["initial-url", "url", "http-client", "evaluated", "isMobileDom",
                       "natural-results-count", "total-count", "natural-results", "related-searches"]

  /** No member name of the report occurs twice. */
  lemma ReportKeysDistinct()
    ensures forall i, j :: 0 <= i < j < |ReportKeys| ==> ReportKeys[i] != ReportKeys[j]
  {
  }

  /**
   The value of a report member, by name: what the command puts under that
   name, with the descriptor rendered by the search library.
   */
  function ReportField(r: Report, render: GoogleUrl -> string, name: string): Json.Value {
    if name == "initial-url" then Json.Str(render(r.initialUrl))
    else if name == "url" then Json.Str(r.url)
    else if name == "http-client" then (if r.httpClient.Some? then Json.Str(r.httpClient.value) else Json.Null)
    else if name == "evaluated" then Json.Bool(r.evaluated)
    else if name == "isMobileDom" then Json.Bool(r.isMobileDom)
    else if name == "natural-results-count" then Json.Int(r.naturalResultsCount)
    else if name == "total-count" then Json.Int(r.totalCount)
    else if name == "natural-results" then Json.Arr(r.naturalResults)
    else if name == "related-searches" then Json.Arr(r.relatedSearches)
    else Json.Null
  }

  /**
   The report as the JSON object the command encodes: the nine members in
   the command's order, each holding the report's value of that name.
   */
  function ReportValue(r: Report, render: GoogleUrl -> string): (v: Json.Value)
    ensures v.Obj? && Json.Keys(v.members) == ReportKeys
    ensures forall i :: 0 <= i < |v.members| ==> v.members[i].1 == ReportField(r, render, v.members[i].0)
  {
    var values := [
      Json.Str(render(r.initialUrl)),
      Json.Str(r.url),
      if r.httpClient.Some? then Json.Str(r.httpClient.value) else Json.Null,
      Json.Bool(r.evaluated),
      Json.Bool(r.isMobileDom),
      Json.Int(r.naturalResultsCount),
      Json.Int(r.totalCount),
      Json.Arr(r.naturalResults),
      Json.Arr(r.relatedSearches)
    ];
    Json.Obj(seq(|ReportKeys|, i requires 0 <= i < |ReportKeys| => (ReportKeys[i], values[i])))
  }

  /**
   Looking a member of the printed report up by name gives the report's
   value of that name: the rendered initial URL, `null` for a missing
   client, the related searches as title/url pairs, and so on.
   */
  lemma ReportLookup(r: Report, render: GoogleUrl -> string, name: string)
    requires name in ReportKeys
    ensures Json.Get(ReportValue(r, render).members, name) == Some(ReportField(r, render, name))
  {
    var members := ReportValue(r, render).members;
    ReportKeysDistinct();
    var i :| 0 <= i < |ReportKeys| && ReportKeys[i] == name;
    assert Json.Keys(members)[i] == name;
    Json.GetAt(members, i);
  }

  /**
   In every printed report the natural-results count is the length of the
   natural-results array, including 0 for a page without items.
   */
  lemma PrintedCountMatches(initialUrl: GoogleUrl, response: Response, client: Option<string>,
                            render: GoogleUrl -> string)
    ensures var v := ReportValue(BuildReport(initialUrl, response, client), render);
      && Json.Get(v.members, "natural-results").Some?
      && Json.Get(v.members, "natural-results").value.Arr?
      && Json.Get(v.members, "natural-results-count")
         == Some(Json.Int(|Json.Get(v.members, "natural-results").value.elems|))
  {
    var r := BuildReport(initialUrl, response, client);
    ReportLookup(r, render, "natural-results");
    ReportLookup(r, render, "natural-results-count");
  }

  /**
   The printed related searches are the page's related searches, title and
   URL verbatim and in order: reading them back gives the same list.
   */
  lemma PrintedRelatedSearches(initialUrl: GoogleUrl, response: Response, client: Option<string>,
                               render: GoogleUrl -> string)
    ensures var v := ReportValue(BuildReport(initialUrl, response, client), render);
      && Json.Get(v.members, "related-searches") == Some(Json.Arr(LinkValues(response.related)))
      && AsLinks(Json.Get(v.members, "related-searches").value.elems) == Some(response.related)
  {
    ReportLookup(BuildReport(initialUrl, response, client), render, "related-searches");
  }
}
