/** backend/src/config/redis.ts: the cache wrappers over an abstract key-value
    store with expiry. Every client error is swallowed: a read yields null, a
    write or delete does nothing. The store carries its own clock and a flag
    telling whether the client can currently reach the server. */
module Cache {
  import opened Wrappers

  /** A stored value and, when it was set with a TTL, the instant it expires. */
  datatype Entry<V> = Entry(value: V, expiresAt: Option<nat>)

  datatype Store<V> = Store(entries: map<string, Entry<V>>, now: nat, reachable: bool)

  predicate Live<V>(e: Entry<V>, now: nat) {
    e.expiresAt.None? || now < e.expiresAt.value
  }

  /** `getCache` (lines 29-36): the live value, or null when the key is
      missing, expired, or the client fails. */
  function GetCache<V>(st: Store<V>, key: string): (r: Option<V>)
    ensures r.Some? <==> st.reachable && key in st.entries && Live(st.entries[key], st.now)
    ensures r.Some? ==> r.value == st.entries[key].value
  {
    if st.reachable && key in st.entries && Live(st.entries[key], st.now) then Some(st.entries[key].value) else None
  }

  /** `if (expiry)`: only a present, non-zero expiry sets a TTL. */
  predicate HasTtl(expiry: Option<nat>) { expiry.Some? && expiry.value != 0 }

  /** `setCache` (lines 38-48): SETEX with a truthy expiry, plain SET (which
      also clears any earlier TTL) otherwise; a client error changes nothing. */
  function SetCache<V>(st: Store<V>, key: string, value: V, expiry: Option<nat>): (r: Store<V>)
    ensures r.now == st.now && r.reachable == st.reachable
    ensures !st.reachable ==> r == st
    ensures st.reachable ==> key in r.entries && r.entries[key].value == value
    ensures st.reachable ==> (r.entries[key].expiresAt.Some? <==> HasTtl(expiry))
    ensures forall k :: k != key ==> (k in r.entries <==> k in st.entries)
    ensures forall k :: k != key && k in st.entries ==> r.entries[k] == st.entries[k]
  {
    if !st.reachable then st
    else
      var entry := if HasTtl(expiry) then Entry(value, Some(st.now + expiry.value)) else Entry(value, None);
      st.(entries := st.entries[key := entry])
  }

  /** `deleteCache` (lines 50-56); a client error changes nothing. */
  function DeleteCache<V>(st: Store<V>, key: string): (r: Store<V>)
    ensures r.now == st.now && r.reachable == st.reachable
    ensures !st.reachable ==> r == st
    ensures st.reachable ==> key !in r.entries
    ensures forall k :: k != key ==> (k in r.entries <==> k in st.entries)
    ensures forall k :: k != key && k in st.entries ==> r.entries[k] == st.entries[k]
  {
    if st.reachable then st.(entries := st.entries - {key}) else st
  }

  /** Time passing. */
  function Tick<V>(st: Store<V>, seconds: nat): Store<V> {
    st.(now := st.now + seconds)
  }

  // ---------------------------------------------------------------------------

  /** A write is read back: for the TTL's duration when one was given, for
      ever otherwise. */
  lemma SetThenGet<V>(st: Store<V>, key: string, value: V, expiry: Option<nat>, later: nat)
    requires st.reachable
    ensures HasTtl(expiry) ==>
      (GetCache(Tick(SetCache(st, key, value, expiry), later), key) == Some(value) <==> later < expiry.value)
    ensures !HasTtl(expiry) ==> GetCache(Tick(SetCache(st, key, value, expiry), later), key) == Some(value)
  {
  }

  /** A write or delete leaves every other key as it read before. */
  lemma WritesAreLocal<V>(st: Store<V>, key: string, other: string, value: V, expiry: Option<nat>)
    requires key != other
    ensures GetCache(SetCache(st, key, value, expiry), other) == GetCache(st, other)
    ensures GetCache(DeleteCache(st, key), other) == GetCache(st, other)
  {
  }

  lemma DeleteThenGet<V>(st: Store<V>, key: string)
    ensures GetCache(DeleteCache(st, key), key) == None
  {
  }

  /** An unreachable server reads as empty and ignores writes: no error
      reaches the caller, only the loss of caching. */
  lemma UnreachableIsInert<V>(st: Store<V>, key: string, value: V, expiry: Option<nat>)
    requires !st.reachable
    ensures GetCache(st, key) == None
    ensures SetCache(st, key, value, expiry) == st && DeleteCache(st, key) == st
  {
  }
}
