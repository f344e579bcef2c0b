/** `update_uptime_kuma`: create one monitor per missing site. */
module MonitorCreator {
  import opened Services
  import opened Sequences

  datatype MonitorType = Http
  datatype AuthMethod = NoAuth

  /** The options every created monitor gets; nothing in them depends on the site. */
  datatype MonitorTemplate = MonitorTemplate(
    kind: MonitorType,
    httpMethod: string,
    interval: nat,
    retryInterval: nat,
    resendInterval: nat,
    maxRetries: nat,
    timeout: nat,
    expiryNotification: bool,
    ignoreTls: bool,
    upsideDown: bool,
    maxRedirects: nat,
    acceptedStatusCodes: seq<string>,
    dnsResolveType: string,
    dnsResolveServer: string,
    notificationIds: seq<int>,
    authMethod: AuthMethod,
    httpBodyEncoding: string)

  const Template: MonitorTemplate := MonitorTemplate(
    Http, "GET", 60, 30, 0, 5, 30, false, false, false, 10,
    ["200-299"], "A", "1.1.1.1", [1], NoAuth, "json")

  /** The arguments of one `add_monitor` call. */
  datatype MonitorRequest = MonitorRequest(
    name: Url,
    url: Url,
    description: Option<string>,
    template: MonitorTemplate)

  /** The request made for a site: named after it, probing it, no description. */
  function Request(site: Url): MonitorRequest
  {
    MonitorRequest(site, site, None, Template)
  }

  /** The sites, in order, whose `add_monitor` call (the `i`-th of the pass is
      answered by `respond(i)`) ended with outcome `o`. */
  function WithResponse(sites: seq<Url>, respond: nat -> AddOutcome, o: AddOutcome): (r: seq<Url>)
    ensures |r| <= |sites|
    decreases |sites|
  {
    if sites == [] then []
    else
      var n := |sites| - 1;
      WithResponse(sites[..n], respond, o) + (if respond(n) == o then [sites[n]] else [])
  }

  /** Each site's fate depends on its own call only: a site is among those with
      outcome `o` exactly when some call for it had that outcome. A rejection
      elsewhere in the list has no effect on it. */
  lemma {:induction false} WithResponseMembers(sites: seq<Url>, respond: nat -> AddOutcome, o: AddOutcome, u: Url)
    ensures u in WithResponse(sites, respond, o) <==>
            exists i :: 0 <= i < |sites| && sites[i] == u && respond(i) == o
    decreases |sites|
  {
    if sites != [] {
      var n := |sites| - 1;
      WithResponseMembers(sites[..n], respond, o, u);
      if u in WithResponse(sites[..n], respond, o) {
        var i :| 0 <= i < n && sites[..n][i] == u && respond(i) == o;
        assert sites[i] == u;
      }
      if exists i :: 0 <= i < |sites| && sites[i] == u && respond(i) == o {
        var i :| 0 <= i < |sites| && sites[i] == u && respond(i) == o;
        if i < n {
          assert sites[..n][i] == u;
        }
      }
    }
  }

  /** Every attempted site ends either created or rejected, and only once. */
  lemma {:induction false} ResponsesPartition(sites: seq<Url>, respond: nat -> AddOutcome)
    ensures multiset(WithResponse(sites, respond, Created)) + multiset(WithResponse(sites, respond, Rejected))
            == multiset(sites)
    decreases |sites|
  {
    if sites != [] {
      var n := |sites| - 1;
      ResponsesPartition(sites[..n], respond);
      var c, f := WithResponse(sites[..n], respond, Created), WithResponse(sites[..n], respond, Rejected);
      assert multiset(c) + multiset(f) == multiset(sites[..n]);
      assert sites == sites[..n] + [sites[n]];
      assert multiset(sites) == multiset(sites[..n]) + multiset{sites[n]};
      if respond(n) == Created {
        assert WithResponse(sites, respond, Created) == c + [sites[n]];
        assert WithResponse(sites, respond, Rejected) == f;
      } else {
        assert WithResponse(sites, respond, Created) == c;
        assert WithResponse(sites, respond, Rejected) == f + [sites[n]];
      }
    }
  }

  /** The sites created keep the order in which they were listed. */
  lemma {:induction false} CreatedInOrder(sites: seq<Url>, respond: nat -> AddOutcome, o: AddOutcome)
    ensures IsSubsequence(WithResponse(sites, respond, o), sites)
    decreases |sites|
  {
    if sites != [] {
      var n := |sites| - 1;
      CreatedInOrder(sites[..n], respond, o);
      SubsequenceSnoc(WithResponse(sites[..n], respond, o), sites[..n], sites[n], respond(n) == o);
      assert sites == sites[..n] + [sites[n]];
    }
  }

  /** When the server accepts every request, every site gets its monitor. */
  lemma {:induction false} AllAcceptedCreatesAll(sites: seq<Url>, respond: nat -> AddOutcome)
    requires forall i :: 0 <= i < |sites| ==> respond(i) == Created
    ensures WithResponse(sites, respond, Created) == sites
    ensures WithResponse(sites, respond, Rejected) == []
    decreases |sites|
  {
    if sites != [] {
      var n := |sites| - 1;
      AllAcceptedCreatesAll(sites[..n], respond);
      assert sites == sites[..n] + [sites[n]];
    }
  }

  /** Log in once; if that fails, create nothing. Otherwise make exactly one
      `add_monitor` call per site, in order; a rejected call is recorded
      (logged, in the source) and the loop goes on with the next site.
      `created` and `failed` are the sites whose call succeeded and was
      rejected. A login error that is not an Uptime Kuma exception propagates
      (`raised`). The session is never disconnected. */
  method UpdateUptimeKuma(sites: seq<Url>, login: LoginOutcome, respond: nat -> AddOutcome)
    returns (attempts: seq<MonitorRequest>, created: seq<Url>, failed: seq<Url>, raised: bool)
    ensures raised <==> login.LoginError?
    ensures !login.LoggedIn? ==> attempts == [] && created == [] && failed == []
    ensures login.LoggedIn? ==> |attempts| == |sites|
    ensures login.LoggedIn? ==> forall i :: 0 <= i < |sites| ==> attempts[i] == Request(sites[i])
    ensures login.LoggedIn? ==> created == WithResponse(sites, respond, Created)
    ensures login.LoggedIn? ==> failed == WithResponse(sites, respond, Rejected)
  {
    attempts, created, failed := [], [], [];
    raised := login.LoginError?;
    if !login.LoggedIn? {
      return;
    }
    for i := 0 to |sites|
      invariant |attempts| == i
      invariant forall k :: 0 <= k < i ==> attempts[k] == Request(sites[k])
      invariant created == WithResponse(sites[..i], respond, Created)
      invariant failed == WithResponse(sites[..i], respond, Rejected)
    {
      attempts := attempts + [Request(sites[i])];
      assert sites[..i + 1][..i] == sites[..i];
      if respond(i) == Created {
        created := created + [sites[i]];
      } else {
        failed := failed + [sites[i]];
      }
    }
    assert sites[..|sites|] == sites;
  }
}
