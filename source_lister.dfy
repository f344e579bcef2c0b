/** `get_haproxy_sites`: the list of sites the reverse proxy fronts, as URLs. */
module SourceLister {
  import opened Services

  /** Every site is monitored over HTTPS. */
  const Scheme: string := "https://"

  /** The URL a domain record stands for. */
  function SiteUrl(d: DomainRecord): Url
  {
    Scheme + d.domain
  }

  /** The list comprehension over the decoded body: one URL per record, in order. */
  function SiteUrls(records: seq<DomainRecord>): (r: seq<Url>)
    ensures |r| == |records|
    ensures forall i :: 0 <= i < |r| ==>
              |Scheme| <= |r[i]| && r[i][..|Scheme|] == Scheme && r[i][|Scheme|..] == records[i].domain
  {
    if records == [] then [] else [SiteUrl(records[0])] + SiteUrls(records[1..])
  }

  /** Inverse of `SiteUrl`: the domain an HTTPS site URL names. */
  function DomainOf(u: Url): Option<string>
  {
    if |Scheme| <= |u| && u[..|Scheme|] == Scheme then Some(u[|Scheme|..]) else None
  }

  /** `DomainOf` undoes `SiteUrl`, and nothing but `SiteUrl` produces a given domain. */
  lemma SiteUrlRoundTrip(d: DomainRecord, u: Url)
    ensures DomainOf(SiteUrl(d)) == Some(d.domain)
    ensures DomainOf(u) == Some(d.domain) <==> u == SiteUrl(d)
  {
  }

  /** Two records give the same site URL exactly when they name the same domain,
      so comparing URLs compares domains. */
  lemma SiteUrlInjective(a: DomainRecord, b: DomainRecord)
    ensures SiteUrl(a) == SiteUrl(b) <==> a == b
  {
    if SiteUrl(a) == SiteUrl(b) {
      SiteUrlRoundTrip(a, SiteUrl(b));
    }
  }

  /** The domains named by a list of URLs, `None` where a URL is not HTTPS. */
  function DomainsOf(urls: seq<Url>): (r: seq<Option<string>>)
    ensures |r| == |urls|
  {
    if urls == [] then [] else [DomainOf(urls[0])] + DomainsOf(urls[1..])
  }

  /** Reading the domains back out of the site list gives the records' domains, in order. */
  lemma {:induction false} SiteUrlsRoundTrip(records: seq<DomainRecord>)
    ensures forall i :: 0 <= i < |records| ==> DomainsOf(SiteUrls(records))[i] == Some(records[i].domain)
  {
    if records != [] {
      SiteUrlsRoundTrip(records[1..]);
      SiteUrlRoundTrip(records[0], SiteUrl(records[0]));
      assert SiteUrls(records) == [SiteUrl(records[0])] + SiteUrls(records[1..]);
      assert DomainsOf(SiteUrls(records)) == [DomainOf(SiteUrl(records[0]))] + DomainsOf(SiteUrls(records[1..]));
    }
  }

  /** `raise_for_status` raises for client (4xx) and server (5xx) error codes. */
  predicate IsHttpError(status: int)
  {
    400 <= status < 600
  }

  /** Whether the fetch got through `raise_for_status` and the body to the comprehension. */
  predicate Fetched(fetch: FetchOutcome)
  {
    fetch.Responded? && !IsHttpError(fetch.status)
  }

  /** `get_haproxy_sites`: the site URLs, or `[]` when any `requests` exception
      was caught (fail-open: the run goes on with nothing to add). */
  function GetHaproxySites(fetch: FetchOutcome): (r: seq<Url>)
    ensures Fetched(fetch) ==> |r| == |fetch.records|
    ensures Fetched(fetch) ==> forall i :: 0 <= i < |r| ==> DomainOf(r[i]) == Some(fetch.records[i].domain)
    ensures !Fetched(fetch) ==> r == []
  {
    if Fetched(fetch) then SiteUrls(fetch.records) else []
  }
}
