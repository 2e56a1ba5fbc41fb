# WP_Object_Cache (memcached-redux) in Dafny

This project models `WP_Object_Cache` from the memcached-redux WordPress drop-in
(`object-cache.php`). It is the object that sits between WordPress and a set of
memcached buckets. It builds one cache key per `(id, group)` pair. It keeps a
local per-request copy of everything it reads or writes (`$this->cache`). It
forwards writes to the bucket that `get_mc()` picks for the group. For a
non-persistent group, `get`, `set`, `add` and `delete` stay in the process,
and `get_multi` and `set_multi` send no request for its items; `replace`,
`incr` and `decr` ask the bucket whatever the group.

The model has eight modules, plus `Optional`:

- `PhpStrings` (php_strings.dfy): the PHP string behaviour the cache relies on.
  It covers `preg_replace('/\s+/', '', ...)`, PHP's `(int)` cast of a string
  (saturating at 64 bits) and decimal spelling. The `Option` type the
  modules share is in its own module, `Optional` (optional.dfy).
- `PhpValues` (php_values.dfy): the stored values, the `'checkthedatabaseplease'`
  sentinel, `empty()` and `isset()`.
- `CacheKeys` (cache_keys.dfy): `key()` and what it guarantees about sharing
  and separating entries.
- `GroupLists` (group_lists.dfy): `array_unique(array_merge(...))` as
  `add_global_groups` and `add_non_persistent_groups` use it.
- `Servers` (servers.dfy): the constructor's reading of `$memcached_servers`,
  the `host:port` parsing with its port fallbacks, and `get_mc()`.
- `Memcached` (memcached.dfy): one remote bucket as a map from key to entry,
  with one function per client call the cache makes. Every call takes a
  `reachable` flag that stands for the network. The requests the object sends
  are recorded in a `wire` trace, so "no remote call" can be stated and proved.
- `CacheSpec` (cache_spec.dfy): the object's fields as a `State` value, one
  function per operation from the state before the call to the state after it,
  and the lemmas that relate several operations.
- `ObjectCache` (object_cache.dfy): the class `WpObjectCache`. Its fields are
  updated in place. Each method is proved to leave `Snapshot()` equal to the
  matching `CacheSpec` function of `old(Snapshot())`. The loops of the
  constructor, `get_multi` and `set_multi` are `while` loops with invariants
  tied to those functions.

## Behaviour worth knowing

- `get_multi` sends its single `getMulti` through the bucket of the group
  *before* the last item's group. `$mc` is taken at the top of each loop turn,
  before `$group` is overwritten (object-cache.php:517-526), not through the
  last item's group. With one item, or none, it is the `$group` argument
  (`CacheSpec.Gathered`).
- `set_multi` routes the whole batch through the bucket of its `$group`
  argument (line 647). Each item's own group decides only its key and whether
  it is persistent. An item whose group has its own bucket is therefore written
  where a later `get` of it does not look (`CacheSpec.SetMultiThenForcedGet`
  needs the two buckets to agree).
- `get_multi` returns the values in the insertion order of `$return`: local
  answers in item order, then the fetched keys in queue order
  (`array_merge`, line 545), whatever order the bucket answers in.
- `get_multi` may return the sentinel. Unlike `get`, it does not filter it.
- A non-persistent `get` uses `isset`, so a locally stored `null` counts as
  absent. The entry is overwritten with `false`, and `found` is false.
- A `get` whose remote call fails (any result code other than `RES_NOTFOUND`)
  reports `found = true` with the value `false`.
- `stats['set']` is initialised (line 767) and never incremented.
- Keys can collide. Ids and groups are joined with `:` and nothing is escaped
  (`CacheKeys.ColonIdsCollide`). Whitespace is removed from the whole key
  (`CacheKeys.KeySeparatesIds`).
- `replace` has no non-persistent case. It always asks the bucket.
- `incr` and `decr` always ask the bucket. The answer, `false` included,
  becomes the local entry.

## Model

| member | source | states |
|---|---|---|
| PhpStrings.StripWhitespace | object-cache.php:574 | removing whitespace never lengthens the string |
| PhpStrings.StripLeavesNoWhitespace | object-cache.php:574 | no character matched by `\s` survives `preg_replace('/\s+/', '', ...)` |
| PhpStrings.StripKeepsChars | object-cache.php:574 | a character is in the stripped string exactly when it is in the input and is not whitespace |
| PhpStrings.StripAppend | object-cache.php:574 | stripping distributes over concatenation |
| PhpStrings.StripKeepsClean | object-cache.php:574 | a string without whitespace is left unchanged |
| PhpStrings.StripIdempotent | object-cache.php:574 | stripping twice is the same as stripping once |
| PhpStrings.ToInt | object-cache.php:798 | the `(int)` cast always lies between PHP_INT_MIN and PHP_INT_MAX |
| PhpStrings.ToIntOfDecimal | object-cache.php:798 | casting the decimal spelling of a port number gives that number back |
| PhpStrings.ToIntOfNonNumeric | object-cache.php:798 | a string whose first non-blank character is not a sign or digit casts to 0 |
| PhpValues.IsEmpty | object-cache.php:480 | `empty()` is true exactly of false, 0, `""`, `"0"`, null and the empty array |
| PhpValues.IsSet | object-cache.php:467 | `isset()` is false for a key the map does not hold |
| CacheKeys.DefaultGroup | object-cache.php:564-566 | an empty group (`""` or `"0"`) becomes `default`; any other group is kept |
| CacheKeys.Prefix | object-cache.php:568-572 | a global group takes the global prefix; every other group takes the blog prefix |
| CacheKeys.Key | object-cache.php:563-575 | the key always keeps its `:` separator and is never longer than salt, prefix, group, `:` and id together |
| CacheKeys.KeyOfEmptyGroup | object-cache.php:564-566 | an empty group addresses the same entries as `default` |
| CacheKeys.KeyHasNoWhitespace | object-cache.php:563-575 | a key never contains whitespace, whatever the id, group, salt and prefixes |
| CacheKeys.KeyParts | object-cache.php:563-575 | the key is the stripped salt, the stripped prefix (global or blog), the stripped group, `:` and the stripped id |
| CacheKeys.GlobalKeySharedByBlogs | object-cache.php:568-574 | a global group's key does not depend on the blog prefix |
| CacheKeys.BlogKeysSeparate | object-cache.php:568-574 | for a non-global group, two blog prefixes give the same key exactly when they agree after stripping |
| CacheKeys.KeySeparatesIds | object-cache.php:574 | for one group, two ids share a key exactly when they agree after stripping |
| CacheKeys.ColonIdsCollide | object-cache.php:574 | `("b:c", "a")` and `("c", "a:b")` share a key when neither group is global |
| GroupLists.AsList | object-cache.php:340-342 | a single group name becomes a one-element list; an array is kept |
| GroupLists.UniqueFrom | object-cache.php:345 | the result has no repeats and holds exactly the elements not already seen |
| GroupLists.Unique | object-cache.php:345 | `array_unique` leaves no repeats and keeps exactly the elements of its input |
| GroupLists.MergeGroups | object-cache.php:339-347 | after adding groups the list has no repeats and holds the old and the new names |
| GroupLists.MergeKeepsExisting | object-cache.php:345-346 | listed groups keep their places; only new names are appended, once each, in order |
| GroupLists.MergeIdempotent | object-cache.php:339-347 | adding the same groups twice changes nothing the second time |
| GroupLists.UniqueOfNoDups | object-cache.php:346 | `array_unique` leaves a list without repeats unchanged |
| Servers.SplitAtColon | object-cache.php:792 | the head has no `:` and, when there is a tail, head `:` tail is the entry |
| Servers.ExplodeHostPort | object-cache.php:792 | the host field and the port field hold no `:`; there is a port field exactly when the entry has a `:`, and host `:` port is a prefix of the entry |
| Servers.ResolvePort | object-cache.php:794-802 | the port is never 0; an absent or empty port field takes the ini port (11211 when that is unusable); a non-empty field is cast with `(int)`, and a field that casts to 0 gives 11211 without consulting the ini port |
| Servers.ParseServer | object-cache.php:791-804 | a parsed entry has a host without `:` taken from the front of the entry, a port that is never 0, and weight 1 |
| Servers.ParseServerRoundTrip | object-cache.php:791-805 | parsing `host:port` gives back the host, the port and weight 1 |
| Servers.ParseBareHost | object-cache.php:792-802 | an entry without `:` gets the ini port, or 11211 when that is unusable |
| Servers.ParseEmptyPort | object-cache.php:794-802 | an empty or `"0"` port field is treated as missing |
| Servers.ParseServers | object-cache.php:791-805 | one server per configured entry |
| Servers.ParseServersAt | object-cache.php:791-805 | entry i of the parsed list is entry i of the configuration, parsed on its own |
| Servers.Buckets | object-cache.php:774-784 | no configuration gives the one bucket `default` on 127.0.0.1; a non-empty plain list becomes the bucket `default`, and an empty one gives no bucket; a bucket map is used as given |
| Servers.BucketTable | object-cache.php:786-808 | exactly the configured bucket names get a client |
| Servers.BucketTableLastWins | object-cache.php:786-808 | each bucket gets the parsed servers of the last entry that names it |
| Servers.DefaultBucketConfigured | object-cache.php:774-784 | a `default` bucket exists exactly when the servers global is unset, a non-empty list, or a map naming `default` |
| Servers.GetMc | object-cache.php:747-753 | `get_mc` gives the group's own bucket, else `default`, else nothing |
| Memcached.Get | object-cache.php:478-482 | a reachable bucket succeeds exactly when it holds the key and returns the stored value; a missing key gives false with `RES_NOTFOUND`; an unreachable bucket gives false with a failure code |
| Memcached.Set | object-cache.php:633 | a reachable bucket stores the entry unconditionally |
| Memcached.Add | object-cache.php:323 | the entry is stored exactly when the bucket is reachable and the key is absent |
| Memcached.Replace | object-cache.php:596 | the entry is stored exactly when the bucket is reachable and the key is present |
| Memcached.Delete | object-cache.php:421 | the key is removed exactly when the bucket is reachable and holds it; no other entry changes |
| Memcached.Increment | object-cache.php:374 | a counter grows by the offset modulo 2^64 and the new count is returned; otherwise false and nothing changes |
| Memcached.Decrement | object-cache.php:391 | a counter becomes the old count minus the offset, or 0 when the offset is larger, and the new count is returned; otherwise false and nothing changes |
| Memcached.GetMulti | object-cache.php:543 | one value per requested key, in request order, null for a missing key |
| Memcached.SetMulti | object-cache.php:676 | a reachable bucket stores every item with the same expiry and keeps every other entry |
| Memcached.IncrementThenDecrement | object-cache.php:371-394 | incrementing then decrementing by the same offset restores the bucket when nothing wraps |
| CacheSpec.ResolveFetched | object-cache.php:480-485 | a non-empty remote value other than -1 is returned as found; an empty value or -1 becomes false, found unless the code is `RES_NOTFOUND` |
| CacheSpec.Expiry | object-cache.php:322 | an `$expire` of 0 becomes the default expiration; any other value is kept |
| CacheSpec.GetSpec | object-cache.php:462-503 | a live local entry (unforced, or in a non-persistent group) is returned with no request, and a sentinel entry is evicted and read as false; a local miss in a non-persistent group returns false, not found, and stores false; otherwise a persistent group sends one `get` to its bucket and returns what `ResolveFetched` makes of the reply, stored locally unless it is the sentinel, which is evicted and read as false; hit and miss counters |
| CacheSpec.GetLookup | object-cache.php:467-488 | the three branches: a live local entry as found; a non-persistent miss as false, not found; otherwise `ResolveFetched` of the bucket's reply. The local map then holds the resolved value under the key and nothing else changes, and a request is sent exactly in the third branch, one `get` to the group's bucket |
| CacheSpec.SetSpec | object-cache.php:615-636 | a sentinel entry blocks the write and changes nothing; otherwise the data is cached, a non-persistent group succeeds with no request, and a persistent group sends one `set` with the resolved expiry, reports the bucket's answer and leaves the bucket as `Memcached.Set` does |
| CacheSpec.AddSpec | object-cache.php:307-332 | a non-persistent `add` stores locally and succeeds; a live local entry makes a persistent `add` fail with no request; otherwise the result and the bucket are `Memcached.Add`'s, one `add` is sent, and a success caches the data and counts it |
| CacheSpec.ReplaceSpec | object-cache.php:587-603 | `replace` always sends one `replace` to the group's bucket; the result and the bucket are `Memcached.Replace`'s, and the data is cached only on success |
| CacheSpec.DeleteSpec | object-cache.php:411-430 | a non-persistent `delete` removes the local entry and succeeds; otherwise one `delete` is sent, the result and the bucket are `Memcached.Delete`'s, and the local entry goes only on success, which is counted |
| CacheSpec.IncrSpec | object-cache.php:371-377 | one `increment` is sent; the result and the bucket are `Memcached.Increment`'s, and the answer, false included, becomes the local entry |
| CacheSpec.DecrSpec | object-cache.php:388-394 | one `decrement` is sent; the result and the bucket are `Memcached.Decrement`'s, and the answer, false included, becomes the local entry |
| CacheSpec.PutKeeps | object-cache.php:528-537 | assigning a key of a PHP array keeps its key order well formed and sets that key's value |
| CacheSpec.PutAllKeeps | object-cache.php:541-546 | `array_merge` keeps the array well formed and adds exactly the merged keys |
| CacheSpec.PutAllValues | object-cache.php:545 | `array_merge` with keys that do not repeat gives each merged key its own value and keeps every other key's value |
| CacheSpec.ValuesOf | object-cache.php:552 | `array_values` gives the value under each key, in key order |
| CacheSpec.GatherStep | object-cache.php:518-539 | one loop turn takes the item's group and id, remembers the previous group for `get_mc`, and queues at most the item's key, and only for a local miss of a persistent group |
| CacheSpec.GatherStepKeeps | object-cache.php:517-539 | one loop turn of `get_multi` keeps the loop invariant: every key answered locally or queued once, a key is queued exactly when it is a local miss of a persistent group |
| CacheSpec.Gathered | object-cache.php:517-526 | after the loop, `$group` and `$id` are the last item's, and the bucket group is the one before |
| CacheSpec.GatheredGathers | object-cache.php:517-539 | the whole `get_multi` loop establishes that invariant |
| CacheSpec.GatherStepQueuesMisses | object-cache.php:528-538 | one loop turn keeps every persistent local miss seen so far in the queue |
| CacheSpec.MissesQueued | object-cache.php:528-538 | after the loop, every local miss is queued for the bucket (persistent group) or answered with false (non-persistent group) |
| CacheSpec.MissesAnswered | object-cache.php:534-535 | after the loop, every local miss of a non-persistent group has an answer |
| CacheSpec.GetMultiBatchCovers | object-cache.php:513-553 | the batch holds each requested key once, and every requested item has a value |
| CacheSpec.GetMultiBatch | object-cache.php:541-546 | the merged array holds exactly the keys answered locally and the keys queued for the bucket |
| CacheSpec.GetMultiSpec | object-cache.php:513-553 | `get_multi` leaves the buckets and the setup alone and never drops a local entry |
| CacheSpec.GetMultiEffect | object-cache.php:513-553 | `get_multi` writes every answer back to the local map, counts one call, and sends one `getMulti` unless every item is a live local entry or in a non-persistent group |
| CacheSpec.GetMultiAnswerAt | object-cache.php:517-546 | an item's answer is its live local entry; for a local miss of a persistent group, the bucket's value (null when absent); for a local miss of a non-persistent group whose key no persistent item shares, false |
| CacheSpec.GetMultiAnswers | object-cache.php:513-553 | the same for every item of the batch at once |
| CacheSpec.StageStepKeeps | object-cache.php:650-673 | one loop turn of `set_multi` keeps the loop invariant: sentinel entries stay and are never queued; only persistent writes are queued |
| CacheSpec.StagingStages | object-cache.php:650-673 | the whole `set_multi` loop establishes that invariant |
| CacheSpec.StagingStoresEachWrite | object-cache.php:650-673 | with distinct keys, every item not blocked by the sentinel is cached, and it is queued exactly when its group is persistent |
| CacheSpec.SetMultiEffect | object-cache.php:645-678 | `set_multi` caches as staged and sends one `setMulti` to the `$group` bucket exactly when something was queued; that bucket then holds what `Memcached.SetMulti` leaves; counters and log are untouched |
| CacheSpec.StageStep | object-cache.php:651-672 | one loop turn leaves everything alone when the key holds the sentinel, touches only the item's key, and queues nothing for a non-persistent group |
| CacheSpec.Staging | object-cache.php:650-673 | the loop touches only the keys of its items, locally and in the queued batch |
| CacheSpec.SetMultiSpec | object-cache.php:645-678 | `set_multi` sends at most one request, changes no bucket but the `$group` one, and leaves counters and log alone |
| CacheSpec.SetMultiThenForcedGet | object-cache.php:645-678 | after `set_multi` reaches the bucket, a forced `get` of a persistent item returns its data, when the item's group routes to the `$group` bucket |
| CacheSpec.GetLocalHit | object-cache.php:467-473 | a live local entry is returned with no request, and a hit is counted |
| CacheSpec.SetThenGet | object-cache.php:615-636 | after an unblocked `set`, a non-forced `get` returns the data with no request |
| CacheSpec.NonPersistentSetThenGet | object-cache.php:475 | in a non-persistent group, `set` then `get` returns the data whatever `force` and the network do |
| CacheSpec.GetThenGetIsLocal | object-cache.php:467-493 | when neither the local entry nor the bucket holds the sentinel, a second non-forced `get` answers from the local map with what the first returned, misses included |
| CacheSpec.AddOverLiveEntry | object-cache.php:317-319 | `add` over a live local entry fails with no request and no change |
| CacheSpec.AddTwice | object-cache.php:307-332 | a second `add` of a key the first one stored fails and changes nothing |
| CacheSpec.DeleteThenForcedGet | object-cache.php:411-430 | after a successful `delete`, a forced `get` reports a true miss |
| CacheSpec.NonPersistentStaysLocal | object-cache.php:475 | `get`, `set`, `add` and `delete` on a non-persistent group send no request; `add` and `delete` succeed |
| CacheSpec.GetMultiThenGet | object-cache.php:550 | after `get_multi`, `get` of one of its items returns the batch's value with no request |
| CacheSpec.SetThenForcedGet | object-cache.php:615-636 | after a `set` that reaches the bucket, a forced `get` reads the data back from the bucket as found |
| CacheSpec.AddOfAbsent | object-cache.php:321-329 | `add` of a key that is not live locally and not in a reachable bucket succeeds, caches the data and stores it in the bucket with the resolved expiry |
| CacheSpec.ReplaceOfMissing | object-cache.php:596-602 | `replace` of a key the bucket does not hold fails and changes neither the local map nor any bucket |
| CacheSpec.ReplaceThenGet | object-cache.php:596-600 | after a successful `replace`, a non-forced `get` returns the new data with no request |
| CacheSpec.IncrCounts | object-cache.php:371-377 | `incr` on a counter returns the sum modulo 2^64 (the plain sum when it does not wrap), caches it, and leaves it as the bucket's counter |
| CacheSpec.DecrCounts | object-cache.php:388-394 | `decr` on a counter returns the difference stopped at 0, caches it, and leaves it as the bucket's counter |
| CacheSpec.IncrRepeatCounts | object-cache.php:371-377 | `k` calls of `incr` by 1 on counter `c` give `c + k` while nothing wraps, and the local entry equals the bucket's answer after the last call |
| CacheSpec.DecrRepeatCounts | object-cache.php:388-394 | `k` calls of `decr` by 1 on counter `c >= k` give `c - k`, and the local entry equals the bucket's answer after the last call |
| CacheSpec.CountUpFromTen | object-cache.php:371-377 | five `incr` by 1 from 10 give 15, and the local entry is 15 |
| CacheSpec.CountDownFromTen | object-cache.php:388-394 | five `decr` by 1 from 10 give 5, and the local entry is 5 |
| ObjectCache.Connected | object-cache.php:787 | one client per configured bucket, with that bucket's servers |
| ObjectCache.ParseEntry | object-cache.php:792-803 | one loop turn parses one entry as `ParseServer` does |
| ObjectCache.ParseServerList | object-cache.php:791-805 | the loop builds the parsed server list of the bucket |
| ObjectCache.ConnectBuckets | object-cache.php:786-808 | the loop builds one client per bucket of the configuration |
| ObjectCache.WpObjectCache.constructor | object-cache.php:761-822 | zeroed stats, empty lists and local map, the configured buckets, the given prefixes |
| ObjectCache.WpObjectCache.Key | object-cache.php:563-575 | the key is computed from the object's salt, prefixes and global groups |
| ObjectCache.WpObjectCache.BucketFor | object-cache.php:747-753 | the bucket `get_mc` picks |
| ObjectCache.WpObjectCache.Resolve | object-cache.php:467-487 | the three branches of `get` update the local map and send requests as `GetLookup` says |
| ObjectCache.WpObjectCache.Get | object-cache.php:462-503 | the object after `get` is `GetSpec` of the object before |
| ObjectCache.WpObjectCache.Set | object-cache.php:615-636 | the object after `set` is `SetSpec` of the object before |
| ObjectCache.WpObjectCache.Add | object-cache.php:307-332 | the object after `add` is `AddSpec` of the object before |
| ObjectCache.WpObjectCache.Replace | object-cache.php:587-603 | the object after `replace` is `ReplaceSpec` of the object before |
| ObjectCache.WpObjectCache.Delete | object-cache.php:411-430 | the object after `delete` is `DeleteSpec` of the object before |
| ObjectCache.WpObjectCache.Incr | object-cache.php:371-377 | the object after `incr` is `IncrSpec` of the object before |
| ObjectCache.WpObjectCache.Decr | object-cache.php:388-394 | the object after `decr` is `DecrSpec` of the object before |
| ObjectCache.WpObjectCache.AddGlobalGroups | object-cache.php:339-347 | only the global-group list changes, to the merged list |
| ObjectCache.WpObjectCache.AddNonPersistentGroups | object-cache.php:353-360 | only the non-persistent list changes, to the merged list |
| ObjectCache.WpObjectCache.GatherItem | object-cache.php:518-539 | one turn of the `get_multi` loop is one `GatherStep` |
| ObjectCache.WpObjectCache.GatherLocal | object-cache.php:517-539 | the `get_multi` loop yields `Gathered` of the items |
| ObjectCache.WpObjectCache.FetchQueued | object-cache.php:541-546 | the fetched and merged array is `GetMultiBatch`; one request exactly when keys were queued |
| ObjectCache.WpObjectCache.GetMultiOutcome | object-cache.php:513-552 | the computed new state and values are `GetMultiSpec` |
| ObjectCache.WpObjectCache.GetMulti | object-cache.php:513-553 | the object after `get_multi` is `GetMultiSpec` of the object before, and so are the values |
| ObjectCache.WpObjectCache.StageItems | object-cache.php:650-673 | the `set_multi` loop yields `Staging` of the items |
| ObjectCache.WpObjectCache.SetMulti | object-cache.php:645-678 | the object after `set_multi` is `SetMultiSpec` of the object before |

## Left out

- The `wp_cache_*` wrapper functions (object-cache.php:31-279) only forward to the object. `WP_INSTALLING` handling and the forced arguments of `wp_cache_set_multi` go with them.
- `stats()`, `colorize_debug_line` and the debug output (687-737) only render text.
- `flush()` and `close()` are left out. `flush` acts on every bucket and is gated by the host for multisite, which is an outside decision.
- The network is the `reachable` parameter of each remote call. Expiry is recorded but not enforced, because there is no clock. `new Memcached`, `addServers` and the client options are left out.
- The no-Memcached fallback after the class (827-838) is left out; it is host lifecycle.
- The global and blog prefixes are constructor parameters. Their derivation from `is_multisite()`, `$blog_id`, `$table_prefix` and the custom-user-table constants is left out, as is `WP_CACHE_KEY_SALT`, which the constructor takes as `salt`. The ini setting `memcache.default_port` is a parameter.
- The remote buckets' contents at construction are a constructor parameter, because other processes share them.
- ObjectCache.WpObjectCache.constructor: it requires a configured `default` bucket. Without one the source would call methods on null on the first fallback in `get_mc`.
- Objects and `clone` are left out: values are immutable, so the defensive copy is the identity. Floats are left out.
- The `(int)` cast reads leading whitespace, a sign and digits. Hexadecimal, exponent and float forms are not read.
- `in_array` and `array_search` compare loosely in PHP. The model compares group names as strings.
- PHP arrays with numeric-string keys are left out. `array_merge` would renumber them, and `array_combine` would meet duplicate results. The model treats every key as a string key.
- GetMultiSpec: it models a reachable bucket. A failed `getMulti` returns false, and `array_combine` would then fail; that path is left out.
- SetMultiSpec: `set_multi` ignores the result of `setMulti` and returns nothing. The model keeps the bucket's new state and no result.
- In `get_multi` an item without an id, and the undefined `$null` argument of `getMulti` (line 543), are left out. With no items the log line uses an empty id.
- `cache_enabled`, `cache_hits` and `cache_misses` are not used by the modelled operations.
- Memcached.Increment: the PHP client hands back the new count as a signed 64-bit integer, so a count of 2^63 or more reads as negative; the model returns the unsigned count, because that conversion happens inside the client extension, which is not part of this model.
- Memcached.IsCounter: memcached also increments a value stored as a decimal string (`set` of `'10'`, then `incr`, gives 11). The model counts only integer values, because the client's serialisation flags, which decide how PHP strings reach the server, are not modelled.
