/**
 * The Cloudflare cache purger of libraries/cloudflare.py: deriving the zone
 * query string of a host, resolving it to a zone id through the zone-list
 * endpoint, and the purge orchestration over a list of hosts.
 *
 * HTTP is abstract: a reply is either a status with a decoded body or a
 * transport error, and the API is an oracle from the zone query string to
 * the reply it gets.
 */
module CloudflareLibrary {
  import opened Wrappers
  import opened PyStr

  /** One entry of the `result` list of the zone-list endpoint. */
  datatype Zone = Zone(name: string, id: string)

  /** The decoded JSON body: `result_info.total_count`, `result` and `errors`. */
  datatype Body = Body(totalCount: int, zones: seq<Zone>, errors: Option<string>)

  /** What the HTTP client hands back: a response, or a transport exception's message. */
  datatype RawReply = Reply(status: int, body: Body) | TransportError(message: string)

  /** The dictionary `_http_get` returns: success with data, or failure with an error. */
  datatype HttpResult = HttpOk(status: int, data: Body) | HttpErr(httpStatus: Option<int>, error: string)

  /** The outcome of `get_zone_id`; `ZoneIndexError` is the IndexError it raises. */
  datatype ZoneLookup =
    | ZoneFound(status: int, zoneId: Option<string>, longestZoneId: Option<string>)
    | ZoneMissing(httpStatus: Option<int>, error: string)
    | ZoneIndexError

  /** One element of `self.apps`. */
  datatype App = App(zoneId: Option<string>, host: string)

  /** The outcome of `purge_cache`; `PurgeRaised` is an IndexError escaping it. */
  datatype PurgeResult = PurgeOk(message: string) | PurgeErr(error: string) | PurgeRaised

  /** The hosts resolved so far, and how the resolve loop ended. */
  datatype Resolution =
    | Resolved(apps: seq<App>, zoneId: Option<string>, queries: seq<string>)
    | Stopped(apps: seq<App>, zoneId: Option<string>, queries: seq<string>, result: PurgeResult)

  /** A whole `purge_cache` call: its result, the object's new fields and the zone queries sent. */
  datatype PurgeRun = PurgeRun(result: PurgeResult, apps: seq<App>, zoneId: Option<string>, queries: seq<string>)

  const InitialZoneId := "123"
  const UnknownError := "Unknown error"
  const NoHostsProvided := "No hosts provided for cache purge"
  const NoValidZoneIds := "No valid zone IDs found for cache purge"

  function NoZonesFound(zoneName: string): string
  {
    "No zones found for " + zoneName
  }

  function LookupFailed(zoneFilter: string, error: string): string
  {
    "Failed to get zone ID for " + zoneFilter + ": " + error
  }

  function MultipleZoneIds(hosts: seq<string>): string
  {
    "Multiple zone IDs found for the provided hosts: " + Join(hosts, ", ") + ". Please specify a single host."
  }

  // ---------------------------------------------------------------------------
  // HTTP status classification
  // ---------------------------------------------------------------------------

  /** `_http_get` (and `_http_post`): a status of 400 or more, or a transport error, is a failure. */
  function Classify(raw: RawReply): (r: HttpResult)
    ensures r.HttpOk? <==> raw.Reply? && raw.status < 400
    ensures r.HttpOk? ==> r.status == raw.status && r.data == raw.body
    ensures raw.Reply? && raw.status >= 400 ==>
      r.httpStatus == Some(raw.status) && (raw.body.errors.Some? ==> r.error == raw.body.errors.value)
        && (raw.body.errors.None? ==> r.error == UnknownError)
    ensures raw.TransportError? ==> r == HttpErr(None, raw.message)
  {
    match raw
    case TransportError(message) => HttpErr(None, message)
    case Reply(status, body) =>
      if status >= 400 then
        HttpErr(Some(status), match body.errors case Some(e) => e case None => UnknownError)
      else HttpOk(status, body)
  }

  // ---------------------------------------------------------------------------
  // Zone query string
  // ---------------------------------------------------------------------------

  /** Number of dot-separated labels of a name, empty labels included. */
  function Labels(name: string): (n: nat)
    ensures n == Count(name, '.') + 1
  {
    |Split(name, '.')|
  }

  /** The zone query string of a host: with more than three labels the first one is dropped. */
  function ZoneFilter(host: string): string
  {
    var labels := Split(host, '.');
    if |labels| > 3 then Join(labels[1..], ".") else Join(labels, ".")
  }

  /**
   * The zone query is a suffix of the host, with one label fewer when the host
   * has more than three labels and the same labels otherwise.
   */
  lemma ZoneFilterShape(host: string)
    ensures var q := ZoneFilter(host);
      && |q| <= |host| && host[|host| - |q|..] == q
      && Labels(q) == if Labels(host) > 3 then Labels(host) - 1 else Labels(host)
  {
    var labels := Split(host, '.');
    JoinSplit(host, '.');
    assert "." == ['.'];
    if |labels| > 3 {
      assert Join(labels, ".") == labels[0] + "." + Join(labels[1..], ".");
      SplitJoin(labels[1..], '.');
    }
  }

  /** A host of at most three labels is its own zone query. */
  lemma ZoneFilterKeepsShortHost(host: string)
    requires Labels(host) <= 3
    ensures ZoneFilter(host) == host
  {
    JoinSplit(host, '.');
    assert "." == ['.'];
  }

  /**
   * A host of more than three labels loses exactly its first label: the host is
   * that label, a dot and the query, and the query's labels are the rest.
   */
  lemma ZoneFilterDropsFirstLabel(host: string)
    requires Labels(host) > 3
    ensures '.' !in Split(host, '.')[0]
    ensures host == Split(host, '.')[0] + "." + ZoneFilter(host)
    ensures Split(ZoneFilter(host), '.') == Split(host, '.')[1..]
  {
    var labels := Split(host, '.');
    JoinSplit(host, '.');
    assert "." == ['.'];
    assert Join(labels, ".") == labels[0] + "." + Join(labels[1..], ".");
    SplitJoin(labels[1..], '.');
  }

  // ---------------------------------------------------------------------------
  // Zone lookup
  // ---------------------------------------------------------------------------

  /** The zone `get_zone_id` keeps among several: the most labels, the earliest on a tie. */
  function LongestIndex(zones: seq<Zone>): (k: nat)
    requires |zones| > 0
    ensures k < |zones|
    ensures forall j :: 0 <= j < |zones| ==> Labels(zones[j].name) <= Labels(zones[k].name)
    ensures forall j :: 0 <= j < k ==> Labels(zones[j].name) < Labels(zones[k].name)
  {
    if |zones| == 1 then 0
    else
      var k := LongestIndex(zones[..|zones| - 1]);
      if Labels(zones[|zones| - 1].name) > Labels(zones[k].name) then |zones| - 1 else k
  }

  /** The two properties of `LongestIndex` single out one index. */
  lemma LongestIndexUnique(zones: seq<Zone>, k: nat)
    requires k < |zones|
    requires forall j :: 0 <= j < |zones| ==> Labels(zones[j].name) <= Labels(zones[k].name)
    requires forall j :: 0 <= j < k ==> Labels(zones[j].name) < Labels(zones[k].name)
    ensures k == LongestIndex(zones)
  {
  }

  /**
   * The selection loop of `get_zone_id`: a running maximum that starts at 0 and
   * is replaced only by a strictly greater label count.
   */
  method SelectLongestZone(zones: seq<Zone>) returns (longest: Option<string>)
    ensures zones == [] ==> longest == None
    ensures zones != [] ==> longest == Some(zones[LongestIndex(zones)].id)
  {
    var maxLength := 0;
    longest := None;
    for i := 0 to |zones|
      invariant i == 0 ==> maxLength == 0 && longest == None
      invariant i > 0 ==> maxLength == Labels(zones[LongestIndex(zones[..i])].name)
      invariant i > 0 ==> longest == Some(zones[LongestIndex(zones[..i])].id)
    {
      assert zones[..i + 1][..i] == zones[..i];
      var length := Labels(zones[i].name);
      if length > maxLength {
        maxLength := length;
        longest := Some(zones[i].id);
      }
    }
    assert zones[..|zones|] == zones;
  }

  /** The zone id kept among the zones of a reply, `None` when the list is empty. */
  function LongestZoneId(zones: seq<Zone>): (r: Option<string>)
    ensures r.None? <==> zones == []
    ensures r.Some? ==>
      exists k :: 0 <= k < |zones| && zones[k].id == r.value
        && forall j :: 0 <= j < |zones| ==> Labels(zones[j].name) <= Labels(zones[k].name)
  {
    if zones == [] then None else Some(zones[LongestIndex(zones)].id)
  }

  /** Of `a.b.com` and `x.a.b.com` the deeper name is kept. */
  lemma DeeperZoneWins()
    ensures LongestZoneId([Zone("a.b.com", "z1"), Zone("x.a.b.com", "z2")]) == Some("z2")
  {
  }

  /** Of two names with as many labels the first one is kept. */
  lemma TieKeepsFirst()
    ensures LongestZoneId([Zone("a.com", "z1"), Zone("b.com", "z2")]) == Some("z1")
  {
  }

  /** `get_zone_id` as a function of the zone name and the reply of the zone-list request. */
  function Lookup(zoneName: string, raw: RawReply): (r: ZoneLookup)
    ensures r.ZoneFound? <==>
      raw.Reply? && raw.status < 400
        && (raw.body.totalCount > 1 || (raw.body.totalCount == 1 && raw.body.zones != []))
    ensures r.ZoneIndexError? <==>
      raw.Reply? && raw.status < 400 && raw.body.totalCount == 1 && raw.body.zones == []
    ensures r.ZoneFound? ==> r.status == raw.status && r.zoneId == r.longestZoneId
    ensures r.ZoneFound? && raw.body.totalCount == 1 ==> r.zoneId == Some(raw.body.zones[0].id)
    ensures r.ZoneFound? && raw.body.totalCount > 1 && raw.body.zones != [] ==>
      r.zoneId == Some(raw.body.zones[LongestIndex(raw.body.zones)].id)
    ensures r.ZoneFound? && raw.body.totalCount > 1 && raw.body.zones == [] ==> r.zoneId == None
    ensures r.ZoneMissing? ==> r.error == NoZonesFound(zoneName)
    ensures r.ZoneMissing? && raw.Reply? ==> r.httpStatus == Some(raw.status)
    ensures r.ZoneMissing? && raw.TransportError? ==> r.httpStatus == None
  {
    match Classify(raw)
    case HttpErr(status, _) => ZoneMissing(status, NoZonesFound(zoneName))
    case HttpOk(status, data) =>
      if data.totalCount > 1 then
        ZoneFound(status, LongestZoneId(data.zones), LongestZoneId(data.zones))
      else if data.totalCount == 1 then
        if data.zones == [] then ZoneIndexError
        else ZoneFound(status, Some(data.zones[0].id), Some(data.zones[0].id))
      else ZoneMissing(Some(status), NoZonesFound(zoneName))
  }

  // ---------------------------------------------------------------------------
  // Purge orchestration
  // ---------------------------------------------------------------------------

  /** One turn of the resolve loop of `purge_cache`, after the hosts before `host` all resolved. */
  function Step(host: string, api: string -> RawReply, apps: seq<App>, zoneId: Option<string>, queries: seq<string>): Resolution
  {
    var q := ZoneFilter(host);
    match Lookup(q, api(q))
    case ZoneFound(_, z, _) => Resolved(apps + [App(z, host)], z, queries + [q])
    case ZoneMissing(_, e) => Stopped(apps, zoneId, queries + [q], PurgeErr(LookupFailed(q, e)))
    case ZoneIndexError => Stopped(apps, zoneId, queries + [q], PurgeRaised)
  }

  /**
   * One turn sends exactly the host's zone query. It goes on iff the host resolves,
   * appending the host with the zone id the lookup returned and making that id the
   * object's; otherwise it stops with the fields unchanged and a failure.
   */
  lemma StepOutcome(host: string, api: string -> RawReply, apps: seq<App>, zoneId: Option<string>, queries: seq<string>)
    ensures var r := Step(host, api, apps, zoneId, queries);
      && (r.Resolved? <==> HostResolves(host, api))
      && r.queries == queries + [ZoneFilter(host)]
      && (r.Resolved? ==> r.zoneId == Lookup(ZoneFilter(host), api(ZoneFilter(host))).zoneId)
      && (r.Resolved? ==> r.apps == apps + [App(r.zoneId, host)])
      && (r.Stopped? ==> r.apps == apps && r.zoneId == zoneId && !r.result.PurgeOk?)
  {
  }

  /** The resolve loop over `hosts`, starting from the object's `apps` and `zone_id`. */
  function Resolve(hosts: seq<string>, api: string -> RawReply, apps0: seq<App>, zoneId0: Option<string>): (r: Resolution)
    ensures |r.queries| <= |hosts|
    ensures r.Resolved? ==> |r.queries| == |hosts|
    ensures r.Stopped? ==> !r.result.PurgeOk?
  {
    if hosts == [] then Resolved(apps0, zoneId0, [])
    else
      match Resolve(hosts[..|hosts| - 1], api, apps0, zoneId0)
      case Resolved(apps, z, qs) => Step(hosts[|hosts| - 1], api, apps, z, qs)
      case stopped => stopped
  }

  /** `purge_cache` on an object whose fields are `apps0` and `zoneId0`. */
  function Purge(hosts: seq<string>, api: string -> RawReply, apps0: seq<App>, zoneId0: Option<string>): (r: PurgeRun)
    ensures |r.queries| <= |hosts|
    ensures r.result.PurgeOk? ==> |r.queries| == |hosts|
  {
    if |hosts| == 0 then PurgeRun(PurgeRaised, apps0, zoneId0, [])
    else if hosts[0] == "" then PurgeRun(PurgeErr(NoHostsProvided), apps0, zoneId0, [])
    else
      match Resolve(hosts, api, apps0, zoneId0)
      case Stopped(apps, z, qs, result) => PurgeRun(result, apps, z, qs)
      case Resolved(apps, z, qs) =>
        if |apps| == 0 then PurgeRun(PurgeErr(NoValidZoneIds), apps, z, qs)
        else PurgeRun(PurgeOk(MultipleZoneIds(hosts)), apps, z, qs)
  }

  /** The lookup of one host's query string succeeds. */
  function HostResolves(host: string, api: string -> RawReply): (b: bool)
    ensures var raw := api(ZoneFilter(host));
      b <==> (raw.Reply? && raw.status < 400
               && (raw.body.totalCount > 1 || (raw.body.totalCount == 1 && raw.body.zones != [])))
  {
    var q := ZoneFilter(host);
    Lookup(q, api(q)).ZoneFound?
  }

  /** The last turn of a resolve loop that completed: it appended the last host's app and query. */
  lemma ResolveLastTurn(hosts: seq<string>, api: string -> RawReply, apps0: seq<App>, zoneId0: Option<string>)
    requires hosts != [] && Resolve(hosts, api, apps0, zoneId0).Resolved?
    ensures var n := |hosts| - 1;
      var p := Resolve(hosts[..n], api, apps0, zoneId0);
      var r := Resolve(hosts, api, apps0, zoneId0);
      var q := ZoneFilter(hosts[n]);
      && p.Resolved?
      && Lookup(q, api(q)).ZoneFound?
      && r.queries == p.queries + [q]
      && r.apps == p.apps + [App(Lookup(q, api(q)).zoneId, hosts[n])]
  {
  }

  /**
   * When every host resolves, one app per host is appended after the old ones,
   * in input order, holding the original host and the zone id found for its query.
   */
  lemma {:induction false} ResolveAppendsInOrder(hosts: seq<string>, api: string -> RawReply, apps0: seq<App>, zoneId0: Option<string>)
    requires Resolve(hosts, api, apps0, zoneId0).Resolved?
    ensures var r := Resolve(hosts, api, apps0, zoneId0);
      && |r.apps| == |apps0| + |hosts| && r.apps[..|apps0|] == apps0 && |r.queries| == |hosts|
      && forall k :: 0 <= k < |hosts| ==>
           && r.queries[k] == ZoneFilter(hosts[k])
           && Lookup(r.queries[k], api(r.queries[k])).ZoneFound?
           && r.apps[|apps0| + k] == App(Lookup(r.queries[k], api(r.queries[k])).zoneId, hosts[k])
  {
    if hosts != [] {
      var n := |hosts| - 1;
      var pre := hosts[..n];
      ResolveLastTurn(hosts, api, apps0, zoneId0);
      ResolveAppendsInOrder(pre, api, apps0, zoneId0);
      var p := Resolve(pre, api, apps0, zoneId0);
      var r := Resolve(hosts, api, apps0, zoneId0);
      forall k | 0 <= k < n
        ensures r.queries[k] == ZoneFilter(hosts[k]) && r.apps[|apps0| + k] == p.apps[|apps0| + k]
      {
        assert pre[k] == hosts[k];
      }
    }
  }

  /** The resolve loop completes exactly when every host resolves. */
  lemma {:induction false} ResolvedIffAllResolve(hosts: seq<string>, api: string -> RawReply, apps0: seq<App>, zoneId0: Option<string>)
    ensures Resolve(hosts, api, apps0, zoneId0).Resolved? <==>
      forall k :: 0 <= k < |hosts| ==> HostResolves(hosts[k], api)
  {
    if hosts != [] {
      var n := |hosts| - 1;
      var pre := hosts[..n];
      ResolvedIffAllResolve(pre, api, apps0, zoneId0);
      var p := Resolve(pre, api, apps0, zoneId0);
      if p.Resolved? {
        assert Resolve(hosts, api, apps0, zoneId0) == Step(hosts[n], api, p.apps, p.zoneId, p.queries);
        assert Resolve(hosts, api, apps0, zoneId0).Resolved? <==> HostResolves(hosts[n], api);
      } else {
        assert Resolve(hosts, api, apps0, zoneId0) == p;
      }
      assert forall k :: 0 <= k < n ==> pre[k] == hosts[k];
      assert (forall k :: 0 <= k < |hosts| ==> HostResolves(hosts[k], api)) <==>
        (forall k :: 0 <= k < n ==> HostResolves(pre[k], api)) && HostResolves(hosts[n], api);
    }
  }

  /**
   * Fail-fast: a stopped loop stopped at host `k`; every earlier host resolved,
   * the fields are those after the earlier hosts, the query of host `k` was the
   * last one sent, and no later host was looked up.
   */
  lemma {:induction false} ResolveStopsAtFirstFailure(hosts: seq<string>, api: string -> RawReply, apps0: seq<App>, zoneId0: Option<string>)
    returns (k: nat)
    requires Resolve(hosts, api, apps0, zoneId0).Stopped?
    ensures k < |hosts|
    ensures forall j :: 0 <= j < k ==> HostResolves(hosts[j], api)
    ensures !HostResolves(hosts[k], api)
    ensures var r := Resolve(hosts, api, apps0, zoneId0);
      var p := Resolve(hosts[..k], api, apps0, zoneId0);
      var q := ZoneFilter(hosts[k]);
      && p.Resolved?
      && r.apps == p.apps && r.zoneId == p.zoneId && r.queries == p.queries + [q]
      && |r.queries| == k + 1
      && r.result == match Lookup(q, api(q))
                     case ZoneMissing(_, e) => PurgeErr(LookupFailed(q, e))
                     case _ => PurgeRaised
  {
    var n := |hosts| - 1;
    var pre := hosts[..n];
    assert hosts != [];
    if Resolve(pre, api, apps0, zoneId0).Stopped? {
      k := ResolveStopsAtFirstFailure(pre, api, apps0, zoneId0);
      assert pre[..k] == hosts[..k];
      assert forall j :: 0 <= j <= k ==> pre[j] == hosts[j];
    } else {
      k := n;
      assert hosts[..k] == pre;
      ResolvedIffAllResolve(pre, api, apps0, zoneId0);
      ResolveAppendsInOrder(pre, api, apps0, zoneId0);
      assert forall j :: 0 <= j < k ==> pre[j] == hosts[j];
    }
  }

  /** Once the loop has stopped, the hosts after that point change nothing. */
  lemma {:induction false} ResolveStoppedIsFinal(hosts: seq<string>, api: string -> RawReply, apps0: seq<App>, zoneId0: Option<string>, i: nat)
    requires i <= |hosts|
    requires Resolve(hosts[..i], api, apps0, zoneId0).Stopped?
    ensures Resolve(hosts, api, apps0, zoneId0) == Resolve(hosts[..i], api, apps0, zoneId0)
    decreases |hosts| - i
  {
    if i < |hosts| {
      assert hosts[..i + 1][..i] == hosts[..i];
      ResolveStoppedIsFinal(hosts, api, apps0, zoneId0, i + 1);
    } else {
      assert hosts[..i] == hosts;
    }
  }

  /** Resolving never drops or reorders the apps the object already held. */
  lemma ResolveKeepsApps(hosts: seq<string>, api: string -> RawReply, apps0: seq<App>, zoneId0: Option<string>)
    ensures var r := Resolve(hosts, api, apps0, zoneId0);
      |apps0| <= |r.apps| && r.apps[..|apps0|] == apps0
  {
    if Resolve(hosts, api, apps0, zoneId0).Resolved? {
      ResolveAppendsInOrder(hosts, api, apps0, zoneId0);
    } else {
      var k := ResolveStopsAtFirstFailure(hosts, api, apps0, zoneId0);
      ResolveAppendsInOrder(hosts[..k], api, apps0, zoneId0);
    }
  }

  /** An empty first host is refused before any lookup, and the object is left as it was. */
  lemma PurgeEmptyFirstHost(hosts: seq<string>, api: string -> RawReply, apps0: seq<App>, zoneId0: Option<string>)
    requires |hosts| > 0 && hosts[0] == ""
    ensures Purge(hosts, api, apps0, zoneId0) == PurgeRun(PurgeErr(NoHostsProvided), apps0, zoneId0, [])
  {
  }

  /**
   * The call succeeds exactly when the first host is non-empty and every host
   * resolves, and then it reports the hosts and holds one new app per host.
   */
  lemma PurgeOkIffAllResolve(hosts: seq<string>, api: string -> RawReply, apps0: seq<App>, zoneId0: Option<string>)
    ensures var r := Purge(hosts, api, apps0, zoneId0);
      r.result.PurgeOk? <==>
        |hosts| > 0 && hosts[0] != "" && forall k :: 0 <= k < |hosts| ==> HostResolves(hosts[k], api)
    ensures var r := Purge(hosts, api, apps0, zoneId0);
      r.result.PurgeOk? ==> r.result.message == MultipleZoneIds(hosts) && |r.apps| == |apps0| + |hosts|
  {
    ResolvedIffAllResolve(hosts, api, apps0, zoneId0);
    if |hosts| > 0 && hosts[0] != "" {
      if Resolve(hosts, api, apps0, zoneId0).Resolved? {
        ResolveAppendsInOrder(hosts, api, apps0, zoneId0);
      } else {
        var k := ResolveStopsAtFirstFailure(hosts, api, apps0, zoneId0);
      }
    }
  }

  /**
   * The "No valid zone IDs found" failure cannot happen: a non-empty host list
   * that resolves completely always leaves at least one app behind.
   */
  lemma PurgeNeverFindsNoValidZoneIds(hosts: seq<string>, api: string -> RawReply, apps0: seq<App>, zoneId0: Option<string>)
    ensures Purge(hosts, api, apps0, zoneId0).result != PurgeErr(NoValidZoneIds)
  {
    if |hosts| > 0 && hosts[0] != "" {
      var r := Resolve(hosts, api, apps0, zoneId0);
      if r.Resolved? {
        ResolveAppendsInOrder(hosts, api, apps0, zoneId0);
      } else {
        var k := ResolveStopsAtFirstFailure(hosts, api, apps0, zoneId0);
        var q := ZoneFilter(hosts[k]);
        if r.result.PurgeErr? {
          assert r.result.error[0] == 'F' != NoValidZoneIds[0];
        }
      }
    }
  }

  /**
   * Every failure of a call is either the empty-host refusal or the lookup
   * failure of the first host that did not resolve.
   */
  lemma PurgeFailureCauses(hosts: seq<string>, api: string -> RawReply, apps0: seq<App>, zoneId0: Option<string>)
    requires Purge(hosts, api, apps0, zoneId0).result.PurgeErr?
    ensures var r := Purge(hosts, api, apps0, zoneId0);
      || (hosts[0] == "" && r.result.error == NoHostsProvided && r.queries == [])
      || (exists k :: 0 <= k < |hosts| && !HostResolves(hosts[k], api) && |r.queries| == k + 1
            && r.result.error == LookupFailed(ZoneFilter(hosts[k]), NoZonesFound(ZoneFilter(hosts[k]))))
  {
    if hosts[0] != "" {
      PurgeNeverFindsNoValidZoneIds(hosts, api, apps0, zoneId0);
      var k := ResolveStopsAtFirstFailure(hosts, api, apps0, zoneId0);
    }
  }

  /** The `apps` list survives every call: entries from earlier calls are never removed. */
  lemma PurgeKeepsApps(hosts: seq<string>, api: string -> RawReply, apps0: seq<App>, zoneId0: Option<string>)
    ensures var r := Purge(hosts, api, apps0, zoneId0);
      |apps0| <= |r.apps| && r.apps[..|apps0|] == apps0
  {
    if |hosts| > 0 && hosts[0] != "" {
      ResolveKeepsApps(hosts, api, apps0, zoneId0);
    }
  }

  /** The purger object: the last zone id found and the apps resolved over its lifetime. */
  class Cloudflare {
    var zoneId: Option<string>
    var apps: seq<App>

    constructor()
      ensures zoneId == Some(InitialZoneId) && apps == []
    {
      zoneId := Some(InitialZoneId);
      apps := [];
    }

    /** `get_zone_id`: looks a zone name up and records the id found in `zoneId`. */
    method GetZoneId(zoneName: string, raw: RawReply) returns (r: ZoneLookup)
      modifies this`zoneId
      ensures r == Lookup(zoneName, raw)
      ensures r.ZoneFound? ==> zoneId == r.zoneId == r.longestZoneId
      ensures !r.ZoneFound? ==> zoneId == old(zoneId)
    {
      var result := Classify(raw);
      if result.HttpOk? {
        if result.data.totalCount > 0 {
          if result.data.totalCount > 1 {
            var longest := SelectLongestZone(result.data.zones);
            zoneId := longest;
            r := ZoneFound(result.status, zoneId, longest);
          } else if result.data.zones == [] {
            r := ZoneIndexError;
          } else {
            zoneId := Some(result.data.zones[0].id);
            r := ZoneFound(result.status, zoneId, zoneId);
          }
          return;
        }
        r := ZoneMissing(Some(result.status), NoZonesFound(zoneName));
        return;
      }
      r := ZoneMissing(result.httpStatus, NoZonesFound(zoneName));
    }

    /**
     * `purge_cache`: refuses an empty first host, resolves every host in order
     * (stopping at the first failure) and appends to `apps`; on success it
     * returns before the dispatch loop, so no purge request is ever sent.
     * `queries` are the zone names looked up, in order.
     */
    method PurgeCache(hosts: seq<string>, api: string -> RawReply) returns (r: PurgeResult, queries: seq<string>)
      modifies this
      ensures PurgeRun(r, apps, zoneId, queries) == Purge(hosts, api, old(apps), old(zoneId))
    {
      queries := [];
      if |hosts| == 0 {
        r := PurgeRaised;
        return;
      }
      if hosts[0] == "" {
        r := PurgeErr(NoHostsProvided);
        return;
      }
      var i := 0;
      while i < |hosts|
        invariant 0 <= i <= |hosts|
        invariant Resolve(hosts[..i], api, old(apps), old(zoneId)) == Resolved(apps, zoneId, queries)
      {
        assert hosts[..i + 1][..i] == hosts[..i];
        var host := hosts[i];
        var zoneFilter := ZoneFilter(host);
        var result := GetZoneId(zoneFilter, api(zoneFilter));
        queries := queries + [zoneFilter];
        match result {
          case ZoneFound(_, z, _) =>
            apps := apps + [App(z, host)];
          case ZoneMissing(_, e) =>
            r := PurgeErr(LookupFailed(zoneFilter, e));
            ResolveStoppedIsFinal(hosts, api, old(apps), old(zoneId), i + 1);
            return;
          case ZoneIndexError =>
            r := PurgeRaised;
            ResolveStoppedIsFinal(hosts, api, old(apps), old(zoneId), i + 1);
            return;
        }
        i := i + 1;
      }
      assert hosts[..|hosts|] == hosts;
      if |apps| == 0 {
        r := PurgeErr(NoValidZoneIds);
        return;
      }
      r := PurgeOk(MultipleZoneIds(hosts));
    }
  }
}
