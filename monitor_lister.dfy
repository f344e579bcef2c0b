/** `get_uptimekuma_monitors`: the URLs Uptime Kuma already monitors. */
module MonitorLister {
  import opened Services

  /** The list comprehension over the monitor list: each monitor's URL, in order. */
  function MonitorUrls(monitors: seq<MonitorRecord>): (r: seq<Url>)
    ensures |r| == |monitors|
    ensures forall i :: 0 <= i < |r| ==> r[i] == monitors[i].url
  {
    if monitors == [] then [] else [monitors[0].url] + MonitorUrls(monitors[1..])
  }

  /** What the lister hands back to the run: a URL list together with whether
      the session was disconnected on the way out, or an exception that
      propagates out of the run. */
  datatype Listing =
    | Returned(urls: seq<Url>, disconnected: bool)
    | Raised

  /** Log in, then fetch the monitors, then disconnect. A rejected login and a
      timeout while fetching are both read as "no monitors exist" (fail-open);
      any other error from login or from the fetch propagates. */
  function GetUptimeKumaMonitors(login: LoginOutcome, listing: ListOutcome): (r: Listing)
    ensures r.Raised? <==> login.LoginError? || (login.LoggedIn? && listing.ListError?)
    ensures login.AuthFailed? || (login.LoggedIn? && listing.ListTimeout?) ==> r == Returned([], false)
    ensures r.Returned? ==> (r.disconnected <==> login.LoggedIn? && listing.Listed?)
    ensures login.LoggedIn? && listing.Listed? ==>
              r.Returned? && |r.urls| == |listing.monitors| &&
              forall i :: 0 <= i < |r.urls| ==> r.urls[i] == listing.monitors[i].url
    ensures r.Returned? ==> forall u :: u in r.urls ==> exists m :: m in listing.monitors && m.url == u
  {
    match login
    case AuthFailed => Returned([], false)
    case LoginError => Raised
    case LoggedIn =>
      match listing
      case ListTimeout => Returned([], false)
      case ListError => Raised
      case Listed(monitors) => Returned(MonitorUrls(monitors), true)
  }
}
