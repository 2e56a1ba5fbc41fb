/**
 * The `WP_Object_Cache` object itself: its fields are updated in place by its
 * methods, and each method is proved to leave the object in the state the
 * matching function of CacheSpec describes.
 */
module ObjectCache {
  import opened Optional
  import opened PhpStrings
  import opened PhpValues
  import opened CacheKeys
  import opened GroupLists
  import opened Servers
  import opened CacheSpec
  import Memcached

  /** `$this->mc` as the constructor builds it: one client per configured bucket, over what that bucket holds. */
  function Connected(table: map<string, seq<Server>>, remote: map<string, Memcached.Store>): (mc: map<string, Bucket>)
    ensures mc.Keys == table.Keys
    ensures forall b :: b in mc ==> mc[b].servers == table[b]
  {
    map b | b in table :: Bucket(table[b], if b in remote then remote[b] else map[])
  }

  lemma ConnectedUpdate(table: map<string, seq<Server>>, name: string, servers: seq<Server>, remote: map<string, Memcached.Store>)
    ensures Connected(table[name := servers], remote)
      == Connected(table, remote)[name := Bucket(servers, if name in remote then remote[name] else map[])]
  {
  }

  /** One turn of that loop: split `host:port` and settle the port. */
  method ParseEntry(entry: string, iniDefaultPort: string) returns (server: Server)
    ensures server == ParseServer(entry, iniDefaultPort)
  {
    var (node, portField) := ExplodeHostPort(entry);
    var port := ResolvePort(portField, iniDefaultPort);
    server := Server(node, port, 1);
  }

  /** The `foreach ($servers as $server)` loop: the `$instances` handed to `addServers`. */
  method ParseServerList(servers: seq<string>, iniDefaultPort: string) returns (instances: seq<Server>)
    ensures instances == ParseServers(servers, iniDefaultPort)
  {
    instances := [];
    var i := 0;
    while i < |servers|
      invariant 0 <= i <= |servers|
      invariant instances == ParseServers(servers[..i], iniDefaultPort)
    {
      var server := ParseEntry(servers[i], iniDefaultPort);
      assert servers[..i + 1][..i] == servers[..i];
      instances := instances + [server];
      i := i + 1;
    }
    assert servers[..i] == servers;
  }

  /** The `foreach ($buckets as $bucket => $servers)` loop of the constructor. */
  method ConnectBuckets(buckets: seq<(string, seq<string>)>, iniDefaultPort: string, remote: map<string, Memcached.Store>)
    returns (mc: map<string, Bucket>)
    ensures mc == Connected(BucketTable(buckets, iniDefaultPort), remote)
  {
    mc := map[];
    var i := 0;
    while i < |buckets|
      invariant 0 <= i <= |buckets|
      invariant mc == Connected(BucketTable(buckets[..i], iniDefaultPort), remote)
    {
      var (name, servers) := buckets[i];
      var instances := ParseServerList(servers, iniDefaultPort);
      assert buckets[..i + 1][..i] == buckets[..i];
      ghost var table := BucketTable(buckets[..i], iniDefaultPort);
      assert BucketTable(buckets[..i + 1], iniDefaultPort) == table[name := instances];
      ConnectedUpdate(table, name, instances, remote);
      mc := mc[name := Bucket(instances, if name in remote then remote[name] else map[])];
      i := i + 1;
    }
    assert buckets[..|buckets|] == buckets;
  }

  class WpObjectCache {
    var globalGroups: seq<string>
    var noMcGroups: seq<string>
    var cache: map<string, Value>
    var mc: map<string, Bucket>
    var stats: Stats
    var groupOps: map<string, seq<string>>
    var defaultExpiration: int
    /** The requests this object has sent, oldest first. */
    var wire: seq<Memcached.Request>
    /** `WP_CACHE_KEY_SALT`. */
    const salt: string
    var globalPrefix: string
    var blogPrefix: string

    function Snapshot(): State
      reads this
    {
      State(globalGroups, noMcGroups, cache, mc, stats, groupOps, defaultExpiration, wire, salt, globalPrefix, blogPrefix)
    }

    predicate Valid()
      reads this
    {
      CacheSpec.Valid(Snapshot())
    }

    /** `key($id, $group)`. */
    function Key(id: string, group: string): (k: string)
      reads this
      ensures k == KeyOf(Snapshot(), id, group)
    {
      CacheKeys.Key(KeyConfig(salt, globalPrefix, blogPrefix, globalGroups), id, group)
    }

    /**
     * `__construct()`: zeroed statistics, the buckets of `$memcached_servers`
     * (or the local server), and the prefixes the host supplies. `remote`
     * is what each bucket's servers already hold.
     */
    constructor(config: ServerConfig, iniDefaultPort: string, remote: map<string, Memcached.Store>,
                salt: string, globalPrefix: string, blogPrefix: string)
      requires "default" in BucketTable(Buckets(config), iniDefaultPort)
      ensures Valid()
      ensures Snapshot() == State([], [], map[], Connected(BucketTable(Buckets(config), iniDefaultPort), remote),
                                  NoStats, map[], 0, [], salt, globalPrefix, blogPrefix)
    {
      var buckets := Buckets(config);
      var table := ConnectBuckets(buckets, iniDefaultPort, remote);
      this.globalGroups := [];
      this.noMcGroups := [];
      this.cache := map[];
      this.mc := table;
      this.stats := NoStats;
      this.groupOps := map[];
      this.defaultExpiration := 0;
      this.wire := [];
      this.salt := salt;
      this.globalPrefix := globalPrefix;
      this.blogPrefix := blogPrefix;
    }

    /** `get_mc($group)`. */
    function BucketFor(group: string): (b: string)
      reads this
      requires Valid()
      ensures b == BucketOf(Snapshot(), group)
    {
      GetMc(mc, group).value
    }

    /** Records a request to bucket `b` that left the bucket holding `store`. */
    method Send(b: string, store: Memcached.Store, req: Memcached.Request)
      requires Valid() && b in mc
      modifies this
      ensures Valid()
      ensures Snapshot() == Sent(old(Snapshot()), b, store, req)
    {
      mc := mc[b := mc[b].(store := store)];
      wire := wire + [req];
    }

    /** `$expire === 0 ? $this->default_expiration : $expire`. */
    function ExpiryFor(expire: int): int
      reads this
    {
      if expire == 0 then defaultExpiration else expire
    }

    /** The first half of `get`: the local entry, a local false for a non-persistent group, or the bucket. */
    method Resolve(id: string, group: string, force: bool, reachable: bool) returns (value: Value, found: bool)
      requires Valid()
      modifies this
      ensures var res := GetLookup(old(Snapshot()), id, group, force, reachable);
        Snapshot() == old(Snapshot()).(cache := res.cache, wire := res.wire) && value == res.value && found == res.found
    {
      var key := Key(id, group);
      found := false;
      if IsSet(cache, key) && (!force || group in noMcGroups) {
        found := true;
        value := cache[key];
      } else if group in noMcGroups {
        value := Bool(false);
        cache := cache[key := value];
      } else {
        var b := BucketFor(group);
        var fetched := Memcached.Get(mc[b].store, key, reachable);
        wire := wire + [Memcached.GetReq(b, key)];
        value := fetched.value;
        if IsEmpty(value) || value == Int(-1) {
          value := Bool(false);
          found := fetched.code != Memcached.NotFound;
        } else {
          found := true;
        }
        cache := cache[key := value];
      }
    }

    /** `get($id, $group, $force, &$found)`. */
    method Get(id: string, group: string, force: bool, reachable: bool) returns (value: Value, found: bool)
      requires Valid()
      modifies this
      ensures Valid()
      ensures var r := GetSpec(old(Snapshot()), id, group, force, reachable);
        Snapshot() == r.st && value == r.value && found == r.found
    {
      var key := Key(id, group);
      value, found := Resolve(id, group, force, reachable);
      if found {
        stats := stats.(get := stats.get + 1);
        groupOps := LogOp(groupOps, group, "get " + id);
      } else {
        stats := stats.(miss := stats.miss + 1);
      }
      if value == Sentinel {
        cache := cache - {key};
        value := Bool(false);
      }
    }

    method Set(id: string, data: Value, group: string, expire: int, reachable: bool) returns (ok: bool)
      requires Valid()
      modifies this
      ensures Valid()
      ensures var r := SetSpec(old(Snapshot()), id, data, group, expire, reachable);
        Snapshot() == r.st && ok == r.ok
    {
      var key := Key(id, group);
      if IsSet(cache, key) && cache[key] == Sentinel {
        return false;
      }
      cache := cache[key := data];
      if group in noMcGroups {
        return true;
      }
      var e := ExpiryFor(expire);
      var b := BucketFor(group);
      var w := Memcached.Set(mc[b].store, key, data, e, reachable);
      Send(b, w.store, Memcached.SetReq(b, key, data, e));
      ok := w.ok;
    }

    method Add(id: string, data: Value, group: string, expire: int, reachable: bool) returns (ok: bool)
      requires Valid()
      modifies this
      ensures Valid()
      ensures var r := AddSpec(old(Snapshot()), id, data, group, expire, reachable);
        Snapshot() == r.st && ok == r.ok
    {
      var key := Key(id, group);
      if group in noMcGroups {
        cache := cache[key := data];
        return true;
      } else if IsSet(cache, key) && cache[key] != Bool(false) {
        return false;
      }
      var b := BucketFor(group);
      var e := ExpiryFor(expire);
      var w := Memcached.Add(mc[b].store, key, data, e, reachable);
      Send(b, w.store, Memcached.AddReq(b, key, data, e));
      if w.ok {
        stats := stats.(add := stats.add + 1);
        groupOps := LogOp(groupOps, group, "add " + id);
        cache := cache[key := data];
      }
      ok := w.ok;
    }

    method Replace(id: string, data: Value, group: string, expire: int, reachable: bool) returns (ok: bool)
      requires Valid()
      modifies this
      ensures Valid()
      ensures var r := ReplaceSpec(old(Snapshot()), id, data, group, expire, reachable);
        Snapshot() == r.st && ok == r.ok
    {
      var key := Key(id, group);
      var e := ExpiryFor(expire);
      var b := BucketFor(group);
      var w := Memcached.Replace(mc[b].store, key, data, e, reachable);
      Send(b, w.store, Memcached.ReplaceReq(b, key, data, e));
      if w.ok {
        cache := cache[key := data];
      }
      ok := w.ok;
    }

    method Delete(id: string, group: string, reachable: bool) returns (ok: bool)
      requires Valid()
      modifies this
      ensures Valid()
      ensures var r := DeleteSpec(old(Snapshot()), id, group, reachable);
        Snapshot() == r.st && ok == r.ok
    {
      var key := Key(id, group);
      if group in noMcGroups {
        cache := cache - {key};
        return true;
      }
      var b := BucketFor(group);
      var w := Memcached.Delete(mc[b].store, key, reachable);
      Send(b, w.store, Memcached.DeleteReq(b, key));
      if w.ok {
        stats := stats.(delete := stats.delete + 1);
        groupOps := LogOp(groupOps, group, "delete " + id);
        cache := cache - {key};
      }
      ok := w.ok;
    }

    method Incr(id: string, n: int, group: string, reachable: bool) returns (value: Value)
      requires Valid()
      modifies this
      ensures Valid()
      ensures var r := IncrSpec(old(Snapshot()), id, n, group, reachable);
        Snapshot() == r.st && value == r.value
    {
      var key := Key(id, group);
      var b := BucketFor(group);
      var c := Memcached.Increment(mc[b].store, key, n, reachable);
      Send(b, c.store, Memcached.IncrementReq(b, key, n));
      cache := cache[key := c.value];
      value := cache[key];
    }

    method Decr(id: string, n: int, group: string, reachable: bool) returns (value: Value)
      requires Valid()
      modifies this
      ensures Valid()
      ensures var r := DecrSpec(old(Snapshot()), id, n, group, reachable);
        Snapshot() == r.st && value == r.value
    {
      var key := Key(id, group);
      var b := BucketFor(group);
      var c := Memcached.Decrement(mc[b].store, key, n, reachable);
      Send(b, c.store, Memcached.DecrementReq(b, key, n));
      cache := cache[key := c.value];
      value := cache[key];
    }

    /** `add_global_groups($groups)`: nothing but the global-group list changes. */
    method AddGlobalGroups(groups: GroupArg)
      requires Valid()
      modifies this
      ensures Valid()
      ensures Snapshot() == old(Snapshot()).(globalGroups := MergeGroups(old(globalGroups), groups))
    {
      globalGroups := Unique(globalGroups + AsList(groups));
    }

    /** `add_non_persistent_groups($groups)`: nothing but the non-persistent list changes. */
    method AddNonPersistentGroups(groups: GroupArg)
      requires Valid()
      modifies this
      ensures Valid()
      ensures Snapshot() == old(Snapshot()).(noMcGroups := MergeGroups(old(noMcGroups), groups))
    {
      noMcGroups := Unique(noMcGroups + AsList(groups));
    }

    /** One turn of `get_multi`'s loop: answer the item locally, or queue its key once. */
    method GatherItem(g: Gather, item: MultiKey) returns (next: Gather)
      requires Valid()
      ensures next == GatherStep(cache, g, LookupOf(Snapshot(), item))
    {
      var grp := DefaultGroup(item.group);
      var key := Key(item.id, grp);
      next := g.(bucketGroup := g.group, group := grp, id := item.id);
      if IsSet(cache, key) {
        next := next.(found := Put(g.found, key, cache[key]));
      } else if grp in noMcGroups {
        next := next.(found := Put(g.found, key, Bool(false)));
      } else if key !in g.queued {
        next := next.(queued := g.queued + [key]);
      }
    }

    /** The `foreach ($keys as ...)` loop of `get_multi`: local answers and queued keys. */
    method GatherLocal(items: seq<MultiKey>, group: string) returns (g: Gather)
      requires Valid()
      ensures g == Gathered(cache, Lookups(Snapshot(), items), group)
    {
      ghost var ls := Lookups(Snapshot(), items);
      g := Gather(Ordered([], map[]), [], group, "", group);
      var i := 0;
      while i < |items|
        invariant 0 <= i <= |items|
        invariant g == Gathered(cache, ls[..i], group)
      {
        assert ls[i] == LookupOf(Snapshot(), items[i]);
        GatheredSnoc(cache, ls, i, group);
        g := GatherItem(g, items[i]);
        i := i + 1;
      }
      assert ls[..|items|] == ls;
    }

    /** The `getMulti` call for the queued keys, merged into the local answers. */
    method FetchQueued(items: seq<MultiKey>, group: string, g: Gather) returns (batch: Ordered, sent: seq<Memcached.Request>)
      requires Valid() && g == Gathered(cache, Lookups(Snapshot(), items), group)
      ensures batch == GetMultiBatch(Snapshot(), items, group)
      ensures sent == if g.queued == [] then wire
        else wire + [Memcached.GetMultiReq(BucketOf(Snapshot(), g.bucketGroup), g.queued)]
    {
      batch := g.found;
      sent := wire;
      if g.queued != [] {
        var b := BucketFor(g.bucketGroup);
        var results := Memcached.GetMulti(mc[b].store, g.queued);
        batch := PutAll(g.found, g.queued, results);
        sent := sent + [Memcached.GetMultiReq(b, g.queued)];
      }
    }

    /** `get_multi` up to its writes: the local pass, the bucket's answers, and what the object becomes. */
    method GetMultiOutcome(items: seq<MultiKey>, group: string) returns (r: MultiResult)
      requires Valid()
      ensures r == GetMultiSpec(Snapshot(), items, group)
    {
      var g := GatherLocal(items, group);
      var batch, sent := FetchQueued(items, group, g);
      var st := Snapshot().(stats := stats.(getMulti := stats.getMulti + 1),
                            groupOps := LogOp(groupOps, g.group, "get_multi " + g.id),
                            cache := cache + batch.vals,
                            wire := sent);
      r := MultiResult(st, ValuesOf(batch));
    }

    /** `get_multi($keys, $group)`. */
    method GetMulti(items: seq<MultiKey>, group: string) returns (values: seq<Value>)
      requires Valid()
      modifies this
      ensures Valid()
      ensures var r := GetMultiSpec(old(Snapshot()), items, group);
        Snapshot() == r.st && values == r.values
    {
      var r := GetMultiOutcome(items, group);
      stats := r.st.stats;
      groupOps := r.st.groupOps;
      cache := r.st.cache;
      wire := r.st.wire;
      values := r.values;
    }

    /** The `foreach ($items as $item)` loop of `set_multi`: the new local map and the items queued for the bucket. */
    method StageItems(items: seq<SetItem>) returns (local: map<string, Value>, sets: map<string, Value>)
      requires Valid()
      ensures Staged(local, sets) == Staging(cache, Writes(Snapshot(), items))
    {
      ghost var ws := Writes(Snapshot(), items);
      local := cache;
      sets := map[];
      var i := 0;
      while i < |items|
        invariant 0 <= i <= |items|
        invariant Staged(local, sets) == Staging(cache, ws[..i])
      {
        var g := DefaultGroup(items[i].group);
        var key := Key(items[i].id, g);
        assert ws[i] == Write(key, items[i].data, g !in noMcGroups);
        StagingSnoc(cache, ws, i);
        if IsSet(local, key) && local[key] == Sentinel {
        } else {
          local := local[key := items[i].data];
          if g !in noMcGroups {
            sets := sets[key := items[i].data];
          }
        }
        i := i + 1;
      }
      assert ws[..|items|] == ws;
    }

    /** `set_multi($items, $expire, $group)`. */
    method SetMulti(items: seq<SetItem>, expire: int, group: string, reachable: bool)
      requires Valid()
      modifies this
      ensures Valid()
      ensures Snapshot() == SetMultiSpec(old(Snapshot()), items, expire, group, reachable)
    {
      var b := BucketFor(group);
      var e := ExpiryFor(expire);
      var local, sets := StageItems(items);
      cache := local;
      if sets != map[] {
        var w := Memcached.SetMulti(mc[b].store, sets, e, reachable);
        Send(b, w.store, Memcached.SetMultiReq(b, sets, e));
      }
    }
  }
}
