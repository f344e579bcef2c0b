# UptimeKumaSync reconciliation, modelled in Dafny

UptimeKumaSync keeps an Uptime Kuma server in step with the sites a reverse
proxy (HAProxy) fronts. One run fetches the proxied domains from a
domain-listing API and turns each into `https://<domain>`. It then logs in to
Uptime Kuma and lists the URLs already monitored. The proxied URLs with no
monitor are the missing sites. If there are any, it logs in again and creates
one HTTP monitor per missing site from a fixed template.

Every call to the two services is replaced by its possible outcomes
(`Services`):

- the domain fetch either answers with a status code and records, or fails
  with a `requests` exception;
- each login succeeds, is rejected with an Uptime Kuma exception (caught), or
  raises some other exception (not caught);
- the monitor listing returns monitors, times out, or raises another error;
- the `i`-th `add_monitor` call of the creation pass is answered by
  `respond(i)`, which is `Created` or `Rejected`.

Modules, one per step of the script:

- `SourceLister`: `get_haproxy_sites`.
- `MonitorLister`: `get_uptimekuma_monitors`.
- `Reconciler`: the missing-site filter in `main`.
- `MonitorCreator`: `update_uptime_kuma`. It is a method whose loop makes one
  request per site, specified by the function `WithResponse`.
- `SyncRun`: `main` as a method over an `Environment` of outcomes.
- `Sequences`: the subsequence relation.

The failure policy is fail-open and is kept as written:

- A failed domain fetch, including an HTTP status from 400 to 599, gives an
  empty site list. The run still lists the monitors, but nothing is missing
  and nothing is created.
- A rejected listing login or a listing timeout gives an empty monitor list.
  Every proxied site then counts as missing.
- Any other listing error, and a login error that is not an Uptime Kuma
  exception (in the listing, or in the creation pass once it is entered),
  is not caught and ends the run (`Aborted`).
- The listing session is disconnected only on its success path. The
  creation session is never disconnected. A "release on every path" rule
  would therefore not describe this code.

## Model

| member | source | states |
|---|---|---|
| SourceLister.SiteUrls | main.py:35 | One URL per domain record, same length and order. Each URL is exactly `https://` followed by that record's domain. |
| SourceLister.SiteUrlRoundTrip | main.py:35 | Stripping the scheme from a site URL gives back its domain. A URL strips to a domain only if it is that domain's site URL. |
| SourceLister.SiteUrlInjective | main.py:35 | Two records give the same URL exactly when they name the same domain. So comparing URLs compares domains. |
| SourceLister.SiteUrlsRoundTrip | main.py:35 | Reading the domains back out of the site list gives every record's domain, position by position. |
| SourceLister.GetHaproxySites | main.py:28-38 | On a fetch with a non-error status, one URL per record, and the domain read back from the i-th URL is the i-th record's domain. On a `requests` exception or an HTTP 4xx/5xx status, the empty list. |
| MonitorLister.MonitorUrls | main.py:55 | One URL per monitor, in order: the monitor's `url` field. |
| MonitorLister.GetUptimeKumaMonitors | main.py:41-58 | Raises exactly when login raised a non-Uptime-Kuma error, or login succeeded and the fetch failed with a non-timeout error. A rejected login or a timeout returns `[]` without disconnecting. On success it disconnects and returns every monitor's URL, position by position. Every returned URL belongs to a listed monitor. |
| Reconciler.Missing | main.py:101 | A URL is in the missing list exactly when it is in the source list and not in the existing list (exact string equality). |
| Reconciler.MissingIsSubsequence | main.py:101 | The missing list is a subsequence of the source list: source order is kept. |
| Reconciler.MissingMultiplicity | main.py:101 | No deduplication. A URL with no monitor appears as often as in the source. A URL with a monitor appears zero times. |
| Reconciler.MissingEmptyIffCovered | main.py:101-106 | The missing list is empty exactly when every source URL is already monitored. This includes an empty source list, and then the creation pass is skipped. |
| Reconciler.MissingFromNone | main.py:101 | Against an empty monitor list, the missing list is the whole source list in order. |
| Reconciler.MissingIdempotent | main.py:101 | Filtering the missing list again against the same monitors changes nothing. |
| Reconciler.MissingIsLongestAvoiding | main.py:101 | No subsequence of the source that avoids every existing URL is longer than the missing list. The only one as long is the missing list itself. |
| MonitorCreator.UpdateUptimeKuma | main.py:61-94 | A login that does not succeed makes no attempts; it propagates exactly when the login error is not an Uptime Kuma exception. Otherwise it makes exactly one attempt per site, in order. Each request is named after its site and probes it with the fixed template. Created and rejected sites are those whose own call had that outcome. A rejection does not stop later sites. |
| MonitorCreator.WithResponseMembers | main.py:68-94 | A site is among those created (or rejected) exactly when some call for it had that outcome. Other sites' outcomes play no part. |
| MonitorCreator.ResponsesPartition | main.py:68-94 | Every attempted site ends up either created or rejected, exactly once (multiset partition). |
| MonitorCreator.CreatedInOrder | main.py:68-94 | The created sites, and the rejected ones, keep the order of the input. |
| MonitorCreator.AllAcceptedCreatesAll | main.py:68-94 | If the server accepts every request, every site is created and none rejected. |
| SyncRun.Sync | main.py:97-107 | The run aborts exactly when the listing raises, or something is missing and the creation login raises a non-Uptime-Kuma error. Otherwise missing = filter(source, existing). The creation pass runs exactly when something is missing. Requests go only to missing sites, one each and in order, and only after a successful login. No created URL was already listed. |
| SyncRun.FailOpenListingMakesAllMissing | main.py:41-54 | If the listing login is rejected or the listing times out, every proxied URL counts as missing, in source order. |
| SyncRun.FailedFetchCreatesNothing | main.py:99-106 | If the domain fetch fails, nothing is missing, so no creation pass runs. |
| SyncRun.SyncCoversSources | main.py:99-104 | With every request accepted, each proxied URL is either in the existing list or among the sites the creation pass creates from the missing list. When the creation login succeeds, `Sync` sets `created` to exactly that list, so the URL ends up monitored; when it fails, nothing is created. |
| SyncRun.CreatedMultiplicity | main.py:101-104 | With every request accepted, a URL is created as often as the proxy lists it if it had no monitor, and never if it had one. |

## Left out

- HTTP transport, bearer-header construction and JSON decoding (main.py:29-33) are replaced by `FetchOutcome`. An undecodable body counts as `RequestFailed`, which assumes a `requests` version whose JSON error is a `RequestException`.
- A domain record without a `domain` field raises `KeyError`, and that ends the run. The model's records always have a domain.
- Monitors whose `url` is absent or null are not modelled; a monitor URL is always a string.
- The `UptimeKumaApi` constructor connects to the server (main.py:42, 62). A connection failure there propagates and ends the run. The model assumes the connection opens.
- An exception from `api.disconnect()` (main.py:57) would propagate and end the run. The model's disconnect always succeeds.
- A non-string `domain` value is formatted by the f-string (main.py:35), so `None` becomes `https://None`. The model's domains are strings.
- A JSON body that is not a list of objects raises `TypeError` (main.py:35), which propagates and ends the run. The model's body is always a list of records.
- Exceptions from `add_monitor` other than Uptime Kuma's propagate and end the run. The model has only `Created` and `Rejected`, the caught case.
- `update_uptime_kuma` returns `[]` on a failed login and nothing otherwise. `main` ignores that value, so it is not modelled.
- Environment and `.env` loading, the logger and every log call (main.py:17-25, 111) are left out. `failed` records which sites the source logs as not created.
- Concurrent runs and the duplicate monitors they could create are left out. The source has no concurrency.
