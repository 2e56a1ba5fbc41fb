/**
 * The bucket configuration read by the `WP_Object_Cache` constructor, the
 * `host:port` parsing of each server entry, and `get_mc`'s choice of bucket.
 */
module Servers {
  import opened Optional
  import opened PhpStrings

  /** One entry handed to `Memcached::addServers`: host, port and weight (always 1). */
  datatype Server = Server(host: string, port: int, weight: nat)

  /** The memcached port used when neither the entry nor the ini setting gives a usable one. */
  const DefaultMemcachedPort: int := 11211

  /** The host fallback when `$memcached_servers` is not set. */
  const LocalServer: string := "127.0.0.1"

  /**
   * The shape of `$memcached_servers`: not set at all, an array whose first key
   * is an integer (a plain list of servers), or an array keyed by bucket name.
   * An empty PHP array has no first key and behaves as an empty bucket map.
   */
  datatype ServerConfig =
    | Unset
    | ServerList(servers: seq<string>)
    | BucketMap(buckets: seq<(string, seq<string>)>)

  /** The text before the first ':' and, when there is one, the text after it. */
  function SplitAtColon(s: string): (r: (string, Option<string>))
    ensures ':' !in r.0
    ensures r.1.None? ==> r.0 == s
    ensures r.1.Some? ==> s == r.0 + ":" + r.1.value
  {
    if s == [] then ([], None)
    else if s[0] == ':' then ([], Some(s[1..]))
    else
      var (head, tail) := SplitAtColon(s[1..]);
      ([s[0]] + head, tail)
  }

  /** `@list($node, $port) = explode(':', $server)`: the first field, and the second when there is one. */
  function ExplodeHostPort(entry: string): (r: (string, Option<string>))
    ensures ':' !in r.0 && (r.1.Some? ==> ':' !in r.1.value)
    ensures r.1.None? <==> ':' !in entry
    ensures r.1.None? ==> r.0 == entry
    ensures r.1.Some? ==> r.0 + ":" + r.1.value <= entry
  {
    var (node, rest) := SplitAtColon(entry);
    (node, if rest.None? then None else Some(SplitAtColon(rest.value).0))
  }

  /**
   * The port of one entry: an absent or PHP-empty field falls back to the ini
   * setting `memcache.default_port`; the text is cast with `(int)`; a zero port
   * becomes 11211.
   */
  function ResolvePort(portField: Option<string>, iniDefaultPort: string): (p: int)
    ensures p != 0
    ensures portField.Some? && !IsEmptyString(portField.value) && ToInt(portField.value) != 0 ==>
      p == ToInt(portField.value)
    ensures portField.None? || IsEmptyString(portField.value) ==> p == FallbackPort(iniDefaultPort)
    ensures portField.Some? && !IsEmptyString(portField.value) && ToInt(portField.value) == 0 ==>
      p == DefaultMemcachedPort
  {
    var text := if portField.None? || IsEmptyString(portField.value) then iniDefaultPort else portField.value;
    var n := ToInt(text);
    if n == 0 then DefaultMemcachedPort else n
  }

  /** The port an entry without a usable port of its own ends up with. */
  function FallbackPort(iniDefaultPort: string): int {
    if ToInt(iniDefaultPort) == 0 then DefaultMemcachedPort else ToInt(iniDefaultPort)
  }

  /** One `host:port` entry as handed to `addServers`: the host never holds ':', the port is never 0. */
  function ParseServer(entry: string, iniDefaultPort: string): (r: Server)
    ensures ':' !in r.host && r.port != 0 && r.weight == 1
    ensures r.host <= entry
  {
    var (node, portField) := ExplodeHostPort(entry);
    Server(node, ResolvePort(portField, iniDefaultPort), 1)
  }

  /** Writing a host and a port as `host:port` and parsing it gives them back. */
  lemma ParseServerRoundTrip(host: string, port: nat, iniDefaultPort: string)
    requires ':' !in host
    requires 0 < port <= IntMax
    ensures ParseServer(host + ":" + NatToDecimal(port), iniDefaultPort) == Server(host, port, 1)
  {
    var digits := NatToDecimal(port);
    var entry := host + ":" + digits;
    SplitOfHostPort(host, digits);
    assert ':' !in digits by {
      assert forall i :: 0 <= i < |digits| ==> IsDigit(digits[i]);
    }
    SplitWithoutColon(digits);
    assert ExplodeHostPort(entry) == (host, Some(digits));
    ToIntOfDecimal(port);
  }

  /** An entry without ':' is a bare host that gets the fallback port. */
  lemma ParseBareHost(host: string, iniDefaultPort: string)
    requires ':' !in host
    ensures ParseServer(host, iniDefaultPort) == Server(host, FallbackPort(iniDefaultPort), 1)
  {
    SplitWithoutColon(host);
  }

  /** An empty or "0" port field is treated as missing, not as port 0. */
  lemma ParseEmptyPort(host: string, field: string, iniDefaultPort: string)
    requires ':' !in host && IsEmptyString(field)
    ensures ParseServer(host + ":" + field, iniDefaultPort) == Server(host, FallbackPort(iniDefaultPort), 1)
  {
    SplitOfHostPort(host, field);
    SplitWithoutColon(field);
  }

  lemma {:induction false} SplitWithoutColon(s: string)
    requires ':' !in s
    ensures SplitAtColon(s) == (s, None)
  {
    if s != [] {
      SplitWithoutColon(s[1..]);
    }
  }

  lemma {:induction false} SplitOfHostPort(host: string, rest: string)
    requires ':' !in host
    ensures SplitAtColon(host + ":" + rest) == (host, Some(rest))
  {
    if host == [] {
      assert host + ":" + rest == [':'] + rest;
    } else {
      assert (host + ":" + rest)[0] == host[0] && host[0] in host;
      assert (host + ":" + rest)[1..] == host[1..] + ":" + rest;
      assert [host[0]] + host[1..] == host;
      SplitOfHostPort(host[1..], rest);
    }
  }

  /** Every entry of a server list, parsed in order. */
  function ParseServers(servers: seq<string>, iniDefaultPort: string): (r: seq<Server>)
    ensures |r| == |servers|
  {
    if servers == [] then []
    else ParseServers(servers[..|servers| - 1], iniDefaultPort) + [ParseServer(servers[|servers| - 1], iniDefaultPort)]
  }

  /** Entry `i` of the parsed list is entry `i` of the configuration, parsed on its own. */
  lemma {:induction false} ParseServersAt(servers: seq<string>, iniDefaultPort: string, i: nat)
    requires i < |servers|
    ensures ParseServers(servers, iniDefaultPort)[i] == ParseServer(servers[i], iniDefaultPort)
  {
    if i < |servers| - 1 {
      var front := servers[..|servers| - 1];
      ParseServersAt(front, iniDefaultPort, i);
      assert front[i] == servers[i];
    }
  }

  /** The constructor's normalisation: the local fallback, or a plain list wrapped as bucket `default`. */
  function Buckets(config: ServerConfig): (r: seq<(string, seq<string>)>)
    ensures !config.BucketMap? ==> |r| <= 1 && forall i :: 0 <= i < |r| ==> r[i].0 == "default" && r[i].1 != []
    ensures config.Unset? ==> r == [("default", [LocalServer])]
    ensures config.ServerList? && config.servers != [] ==> r == [("default", config.servers)]
    ensures config.ServerList? && config.servers == [] ==> r == []
    ensures config.BucketMap? ==> r == config.buckets
  {
    match config
    case Unset => [("default", [LocalServer])]
    case ServerList(servers) => if servers == [] then [] else [("default", servers)]
    case BucketMap(buckets) => buckets
  }

  /** The servers of every configured bucket; a name given twice keeps its last list. */
  function BucketTable(buckets: seq<(string, seq<string>)>, iniDefaultPort: string): (r: map<string, seq<Server>>)
    ensures r.Keys == Names(buckets)
  {
    if buckets == [] then map[]
    else
      var last := buckets[|buckets| - 1];
      var front := BucketTable(buckets[..|buckets| - 1], iniDefaultPort);
      NamesOfSnoc(buckets);
      front[last.0 := ParseServers(last.1, iniDefaultPort)]
  }

  function Names(buckets: seq<(string, seq<string>)>): set<string> {
    set i | 0 <= i < |buckets| :: buckets[i].0
  }

  lemma NamesOfSnoc(buckets: seq<(string, seq<string>)>)
    requires buckets != []
    ensures Names(buckets) == Names(buckets[..|buckets| - 1]) + {buckets[|buckets| - 1].0}
  {
    var front := buckets[..|buckets| - 1];
    forall b | b in Names(buckets) ensures b in Names(front) + {buckets[|buckets| - 1].0} {
      var i :| 0 <= i < |buckets| && buckets[i].0 == b;
      if i < |front| {
        assert front[i] == buckets[i];
      }
    }
    forall b | b in Names(front) ensures b in Names(buckets) {
      var i :| 0 <= i < |front| && front[i].0 == b;
      assert buckets[i] == front[i];
    }
    assert buckets[|buckets| - 1].0 in Names(buckets);
  }

  /** Each bucket gets the parsed servers of the last entry that names it. */
  lemma {:induction false} BucketTableLastWins(buckets: seq<(string, seq<string>)>, iniDefaultPort: string, i: nat)
    requires i < |buckets|
    requires forall j :: i < j < |buckets| ==> buckets[j].0 != buckets[i].0
    ensures buckets[i].0 in BucketTable(buckets, iniDefaultPort)
    ensures BucketTable(buckets, iniDefaultPort)[buckets[i].0] == ParseServers(buckets[i].1, iniDefaultPort)
  {
    if i < |buckets| - 1 {
      var front := buckets[..|buckets| - 1];
      BucketTableLastWins(front, iniDefaultPort, i);
    }
  }

  /** A `default` bucket exists unless the configuration is a bucket map that does not name one. */
  lemma DefaultBucketConfigured(config: ServerConfig, iniDefaultPort: string)
    ensures "default" in BucketTable(Buckets(config), iniDefaultPort) <==>
      match config
      case Unset => true
      case ServerList(servers) => servers != []
      case BucketMap(buckets) => "default" in Names(buckets)
  {
    var bs := Buckets(config);
    if !config.BucketMap? && bs != [] {
      assert bs[0].0 == "default";
    }
  }

  /** `get_mc($group)`: the group's own bucket, else `default`; nothing when neither is configured. */
  function GetMc<T>(mc: map<string, T>, group: string): (r: Option<string>)
    ensures r.Some? ==> r.value in mc
    ensures r.Some? && r.value != group ==> r.value == "default" && group !in mc
    ensures r.None? <==> group !in mc && "default" !in mc
  {
    if group in mc then Some(group)
    else if "default" in mc then Some("default")
    else None
  }
}
