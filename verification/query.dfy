/**
 The query descriptor the command hands to the search library: the Google
 host for the chosen top-level domain, the search term, the page, the number
 of results per page and an optional language restriction. How the library
 renders it as a URL string is not part of this model.
 */
module Query {
  import opened Wrappers
  import opened Cli

  const HostPrefix := "www.google."

  datatype GoogleUrl = GoogleUrl(
    host: string,
    searchTerm: Option<string>,
    page: int,
    resultsPerPage: int,
    languageRestriction: Option<string>)

  /** Builds the descriptor from the options; nothing is clamped or defaulted here. */
  function BuildUrl(o: Options): (u: GoogleUrl)
    ensures HostPrefix <= u.host && TldOf(u.host) == Some(o.tld)
    ensures u.searchTerm == o.keywords
    ensures u.page == o.page && u.resultsPerPage == o.resPerPage
    ensures u.languageRestriction.Some? <==> Truthy(o.lr)
    ensures u.languageRestriction.Some? ==> u.languageRestriction == o.lr
  {
    TldOfHost(o.tld);
    GoogleUrl(HostPrefix + o.tld, o.keywords, o.page, o.resPerPage,
              if Truthy(o.lr) then o.lr else None)
  }

  /** Recovers the top-level domain from a Google host, if it is one. */
  function TldOf(host: string): (r: Option<string>)
    ensures r.Some? <==> HostPrefix <= host
  {
    if HostPrefix <= host then Some(host[|HostPrefix|..]) else None
  }

  /** Building a host and reading its domain back gives the domain the user chose. */
  lemma TldOfHost(tld: string)
    ensures TldOf(HostPrefix + tld) == Some(tld)
  {
  }

  /** Different top-level domains always give different hosts. */
  lemma HostDeterminesTld(o1: Options, o2: Options)
    ensures BuildUrl(o1).host == BuildUrl(o2).host <==> o1.tld == o2.tld
  {
  }

  /**
   The descriptor depends on the keywords, the domain, the language
   restriction, the page and the page size only: the file, dump, transport
   and user-agent options leave it unchanged.
   */
  lemma BuildUrlDependsOnQueryOptions(o1: Options, o2: Options)
    requires o1.keywords == o2.keywords && o1.tld == o2.tld && o1.lr == o2.lr
    requires o1.page == o2.page && o1.resPerPage == o2.resPerPage
    ensures BuildUrl(o1) == BuildUrl(o2)
  {
  }

  /** A page size above the documented maximum of 100 is passed on as it is. */
  lemma PageSizeNotClamped(o: Options)
    requires o.resPerPage > 100
    ensures BuildUrl(o).resultsPerPage == o.resPerPage > 100
  {
  }

  /** With the declared defaults the query goes to www.google.com, page 1, ten results. */
  lemma DefaultUrl(keywords: Option<string>)
    ensures BuildUrl(DefaultOptions(keywords))
         == GoogleUrl("www.google.com", keywords, 1, 10, None)
  {
  }
}
