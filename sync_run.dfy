/** `main`: one reconciliation run, from both listings to the creation pass. */
module SyncRun {
  import opened Services
  import SourceLister
  import MonitorLister
  import opened Reconciler
  import opened MonitorCreator

  /** How every external call of one run turns out. `respond(i)` answers the
      `i`-th `add_monitor` call of the creation pass. */
  datatype Environment = Environment(
    fetch: FetchOutcome,
    listLogin: LoginOutcome,
    listing: ListOutcome,
    createLogin: LoginOutcome,
    respond: nat -> AddOutcome)

  /** What a run did: the two listings, the missing sites, whether the
      creation pass was entered, the requests it sent and how they ended; or
      an uncaught exception from the monitor listing or from the creation
      pass's login ended the run. */
  datatype RunOutcome =
    | Completed(
        sources: seq<Url>,
        existing: seq<Url>,
        missing: seq<Url>,
        creationRan: bool,
        attempts: seq<MonitorRequest>,
        created: seq<Url>,
        failed: seq<Url>)
    | Aborted

  /** List the proxied sites, list the monitored URLs, compute the missing
      sites and, only if there are any, run the creation pass on them. */
  method Sync(env: Environment) returns (r: RunOutcome)
    ensures var listed := MonitorLister.GetUptimeKumaMonitors(env.listLogin, env.listing);
            r.Aborted? <==>
              listed.Raised? ||
              (env.createLogin.LoginError? && Missing(SourceLister.GetHaproxySites(env.fetch), listed.urls) != [])
    ensures r.Completed? ==> r.sources == SourceLister.GetHaproxySites(env.fetch)
    ensures r.Completed? ==> r.existing == MonitorLister.GetUptimeKumaMonitors(env.listLogin, env.listing).urls
    ensures r.Completed? ==> r.missing == Missing(r.sources, r.existing)
    ensures r.Completed? ==> (r.creationRan <==> r.missing != [])
    ensures r.Completed? && !(r.creationRan && env.createLogin.LoggedIn?) ==>
              r.attempts == [] && r.created == [] && r.failed == []
    ensures r.Completed? && r.creationRan && env.createLogin.LoggedIn? ==>
              |r.attempts| == |r.missing| &&
              (forall i :: 0 <= i < |r.missing| ==> r.attempts[i] == Request(r.missing[i])) &&
              r.created == WithResponse(r.missing, env.respond, Created) &&
              r.failed == WithResponse(r.missing, env.respond, Rejected)
    ensures r.Completed? ==> forall u :: u in r.created ==> u in r.sources && u !in r.existing
  {
    var sources := SourceLister.GetHaproxySites(env.fetch);
    var listing := MonitorLister.GetUptimeKumaMonitors(env.listLogin, env.listing);
    if listing.Raised? {
      return Aborted;
    }
    var existing := listing.urls;
    var missing := Missing(sources, existing);
    var attempts, created, failed := [], [], [];
    if |missing| > 0 {
      var raised;
      attempts, created, failed, raised := UpdateUptimeKuma(missing, env.createLogin, env.respond);
      if raised {
        return Aborted;
      }
    }
    forall u | u in created
      ensures u in sources && u !in existing
    {
      WithResponseMembers(missing, env.respond, Created, u);
    }
    r := Completed(sources, existing, missing, |missing| > 0, attempts, created, failed);
  }

  /** Fail-open listing: when login is rejected or the fetch of the monitor
      list times out, every proxied site counts as missing and is offered for
      creation, even if it is in fact monitored already. */
  lemma FailOpenListingMakesAllMissing(fetch: FetchOutcome, login: LoginOutcome, listing: ListOutcome)
    requires login.AuthFailed? || (login.LoggedIn? && listing.ListTimeout?)
    ensures MonitorLister.GetUptimeKumaMonitors(login, listing).Returned?
    ensures Missing(SourceLister.GetHaproxySites(fetch), MonitorLister.GetUptimeKumaMonitors(login, listing).urls)
            == SourceLister.GetHaproxySites(fetch)
  {
    MissingFromNone(SourceLister.GetHaproxySites(fetch));
  }

  /** Fail-open source listing: when the domain API call fails, nothing is
      missing, so the creation pass is never entered. */
  lemma FailedFetchCreatesNothing(fetch: FetchOutcome, existing: seq<Url>)
    requires !SourceLister.Fetched(fetch)
    ensures Missing(SourceLister.GetHaproxySites(fetch), existing) == []
  {
  }

  /** When the listing is accurate and the server accepts every request, after
      the run every proxied site is monitored: either it was already, or it
      was just created. */
  lemma SyncCoversSources(sources: seq<Url>, existing: seq<Url>, respond: nat -> AddOutcome)
    requires forall i: nat :: respond(i) == Created
    ensures forall u :: u in sources ==>
              u in existing || u in WithResponse(Missing(sources, existing), respond, Created)
  {
    var missing := Missing(sources, existing);
    AllAcceptedCreatesAll(missing, respond);
  }

  /** A run never creates a monitor for a URL the listing returned, and creates
      each missing URL as often as the proxy lists it when every request is
      accepted. */
  lemma CreatedMultiplicity(sources: seq<Url>, existing: seq<Url>, respond: nat -> AddOutcome, u: Url)
    requires forall i: nat :: respond(i) == Created
    ensures u in existing ==> multiset(WithResponse(Missing(sources, existing), respond, Created))[u] == 0
    ensures u !in existing ==>
              multiset(WithResponse(Missing(sources, existing), respond, Created))[u] == multiset(sources)[u]
  {
    AllAcceptedCreatesAll(Missing(sources, existing), respond);
    MissingMultiplicity(sources, existing, u);
  }
}
