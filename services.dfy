/** Values exchanged with the two external services the sync script talks to:
    the domain-listing API behind the reverse proxy and the Uptime Kuma server.
    Every call into those services is replaced by the outcome it can have, so a
    run of the script is a function of these outcomes. */
module Services {

  /** A site URL; two URLs are the same site only when they are equal strings. */
  type Url = string

  datatype Option<+T> = None | Some(value: T)

  /** One element of the JSON array the domain-listing API returns. */
  datatype DomainRecord = DomainRecord(domain: string)

  /** One monitor as Uptime Kuma lists it; only `url` is ever consulted. */
  datatype MonitorRecord = MonitorRecord(id: int, url: Url)

  /** What the GET to the domain-listing API produced: an HTTP response with
      its status code and decoded body, or a `requests` exception raised
      before a response could be read (connection refused, DNS failure,
      timeout, undecodable body). */
  datatype FetchOutcome =
    | Responded(status: int, records: seq<DomainRecord>)
    | RequestFailed

  /** What `login` on an Uptime Kuma session did: succeeded, raised an Uptime
      Kuma exception (which the caller catches), or raised anything else
      (which nothing catches). */
  datatype LoginOutcome = LoggedIn | AuthFailed | LoginError

  /** What `get_monitors` did: the monitor list, the library's `Timeout`, or
      any other Uptime Kuma exception (which nothing catches). */
  datatype ListOutcome =
    | Listed(monitors: seq<MonitorRecord>)
    | ListTimeout
    | ListError

  /** What one `add_monitor` call did. */
  datatype AddOutcome = Created | Rejected
}
