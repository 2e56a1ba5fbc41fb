/**
 * The remote memcached bucket as the object cache sees it: a map from key to
 * stored entry, and one function per client call the cache makes. Each call
 * takes `reachable`, which stands for the network: when it is false the call
 * fails and the bucket is left as it was. The requests the cache sends are
 * recorded as `Request` values so that "no remote call" can be stated.
 */
module Memcached {
  import opened PhpValues

  datatype Entry = Entry(value: Value, expire: int)

  type Store = map<string, Entry>

  /** `Memcached::getResultCode()` after a get: success, `RES_NOTFOUND`, or any other failure. */
  datatype ResultCode = Success | NotFound | Failure

  datatype Fetched = Fetched(value: Value, code: ResultCode)

  /** The boolean a write call returns, and the bucket afterwards. */
  datatype Written = Written(ok: bool, store: Store)

  /** The value `increment`/`decrement` return (the new count, or false), and the bucket afterwards. */
  datatype Counted = Counted(value: Value, store: Store)

  /** One request sent to the bucket named `bucket`. */
  datatype Request =
    | GetReq(bucket: string, key: string)
    | SetReq(bucket: string, key: string, value: Value, expire: int)
    | AddReq(bucket: string, key: string, value: Value, expire: int)
    | ReplaceReq(bucket: string, key: string, value: Value, expire: int)
    | DeleteReq(bucket: string, key: string)
    | IncrementReq(bucket: string, key: string, offset: int)
    | DecrementReq(bucket: string, key: string, offset: int)
    | GetMultiReq(bucket: string, keys: seq<string>)
    | SetMultiReq(bucket: string, items: map<string, Value>, expire: int)

  /** Counters are unsigned 64-bit numbers on the server. */
  const CounterModulus: int := 0x1_0000_0000_0000_0000

  /** `get`: the stored value, or false with `RES_NOTFOUND`; false with a failure code when unreachable. */
  function Get(s: Store, key: string, reachable: bool): (r: Fetched)
    ensures r.code == Success <==> reachable && key in s
    ensures r.code == NotFound <==> reachable && key !in s
    ensures !reachable ==> r.code == Failure
    ensures r.code == Success ==> r.value == s[key].value
    ensures r.code != Success ==> r.value == Bool(false)
  {
    if !reachable then Fetched(Bool(false), Failure)
    else if key in s then Fetched(s[key].value, Success)
    else Fetched(Bool(false), NotFound)
  }

  /** `set`: store unconditionally. */
  function Set(s: Store, key: string, v: Value, expire: int, reachable: bool): (r: Written)
    ensures r.ok == reachable
    ensures r.store == if reachable then s[key := Entry(v, expire)] else s
  {
    if reachable then Written(true, s[key := Entry(v, expire)]) else Written(false, s)
  }

  /** `add`: store only when the key is absent. */
  function Add(s: Store, key: string, v: Value, expire: int, reachable: bool): (r: Written)
    ensures r.ok <==> reachable && key !in s
    ensures r.store == if r.ok then s[key := Entry(v, expire)] else s
  {
    if reachable && key !in s then Written(true, s[key := Entry(v, expire)]) else Written(false, s)
  }

  /** `replace`: store only when the key is present. */
  function Replace(s: Store, key: string, v: Value, expire: int, reachable: bool): (r: Written)
    ensures r.ok <==> reachable && key in s
    ensures r.store == if r.ok then s[key := Entry(v, expire)] else s
  {
    if reachable && key in s then Written(true, s[key := Entry(v, expire)]) else Written(false, s)
  }

  /** `delete`: remove the key; deleting an absent key fails with `RES_NOTFOUND`. */
  function Delete(s: Store, key: string, reachable: bool): (r: Written)
    ensures r.ok <==> reachable && key in s
    ensures r.ok ==> r.store.Keys == s.Keys - {key}
    ensures !r.ok ==> r.store == s
    ensures forall k :: k in r.store ==> k in s && r.store[k] == s[k]
  {
    if reachable && key in s then Written(true, s - {key}) else Written(false, s)
  }

  /** Whether the entry under `key` is a counter the server can change. */
  predicate IsCounter(s: Store, key: string) {
    key in s && s[key].value.Int? && 0 <= s[key].value.i < CounterModulus
  }

  /**
   * `increment`: add `offset` to a counter, wrapping at 2^64, and return the new
   * count; a missing key, a non-counter value, a negative offset (refused by
   * the PHP client) or an unreachable server give false.
   */
  function Increment(s: Store, key: string, offset: int, reachable: bool): (r: Counted)
    ensures r.value != Bool(false) <==> reachable && offset >= 0 && IsCounter(s, key)
    ensures r.value != Bool(false) ==>
      r.value == Int((s[key].value.i + offset) % CounterModulus) &&
      r.store == s[key := s[key].(value := r.value)]
    ensures r.value == Bool(false) ==> r.store == s
  {
    if reachable && offset >= 0 && IsCounter(s, key) then
      var v := Int((s[key].value.i + offset) % CounterModulus);
      Counted(v, s[key := s[key].(value := v)])
    else Counted(Bool(false), s)
  }

  /** `decrement`: subtract `offset`, stopping at 0 (the server never goes below zero). */
  function Decrement(s: Store, key: string, offset: int, reachable: bool): (r: Counted)
    ensures r.value != Bool(false) <==> reachable && offset >= 0 && IsCounter(s, key)
    ensures r.value != Bool(false) ==>
      r.value == Int(if s[key].value.i < offset then 0 else s[key].value.i - offset) &&
      r.store == s[key := s[key].(value := r.value)]
    ensures r.value == Bool(false) ==> r.store == s
  {
    if reachable && offset >= 0 && IsCounter(s, key) then
      var c := s[key].value.i;
      var v := Int(if c < offset then 0 else c - offset);
      Counted(v, s[key := s[key].(value := v)])
    else Counted(Bool(false), s)
  }

  /** `getMulti` with `GET_PRESERVE_ORDER`: one value per requested key, null for a missing one. */
  function GetMulti(s: Store, keys: seq<string>): (r: seq<Value>)
    ensures |r| == |keys|
    ensures forall i :: 0 <= i < |keys| ==> r[i] == if keys[i] in s then s[keys[i]].value else Null
  {
    seq(|keys|, i requires 0 <= i < |keys| => if keys[i] in s then s[keys[i]].value else Null)
  }

  /** `setMulti`: store every item with the same expiry. */
  function SetMulti(s: Store, items: map<string, Value>, expire: int, reachable: bool): (r: Written)
    ensures r.ok == reachable
    ensures r.store.Keys == if reachable then s.Keys + items.Keys else s.Keys
    ensures forall k :: k in r.store ==>
      r.store[k] == if reachable && k in items then Entry(items[k], expire) else s[k]
  {
    if reachable then Written(true, s + map k | k in items :: Entry(items[k], expire))
    else Written(false, s)
  }

  /** Incrementing and then decrementing by the same offset restores the counter when nothing wraps. */
  lemma IncrementThenDecrement(s: Store, key: string, offset: nat)
    requires IsCounter(s, key) && s[key].value.i + offset < CounterModulus
    ensures Decrement(Increment(s, key, offset, true).store, key, offset, true) == Counted(s[key].value, s)
  {
    var up := Increment(s, key, offset, true);
    assert up.store[key].value.i == s[key].value.i + offset;
    assert up.store[key := up.store[key].(value := s[key].value)] == s;
  }
}
