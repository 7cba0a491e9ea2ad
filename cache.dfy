/** The values the cache holds, how the source reads them, and the shape
    discipline its writers keep per key namespace. */
module Cache {
  import opened Results
  import opened Energy
  import opened CacheKeys
  import opened Upstream

  /** A parsed cache entry: one of the shapes the source writes. */
  datatype CachedValue =
    | MappedBlock(hash: string, index: int, time: int, transactions: seq<Tx>)
    | RawBlockValue(raw: RawBlock)
    | AddressEntry(transactions: seq<Tx>, timestamp: int)
    | BlockList(blocks: seq<BlockRef>)
    | Number(value: real)

  type Store = map<string, CachedValue>

  /** JavaScript truthiness of a parsed entry: objects and arrays are truthy,
      the number 0 is not. */
  predicate Truthy(v: CachedValue)
  {
    !(v.Number? && v.value == 0.0)
  }

  /** Reading `.transactions` off an entry. */
  function TransactionsField(v: CachedValue): Option<seq<Tx>>
  {
    match v
    case MappedBlock(_, _, _, txs) => Some(txs)
    case AddressEntry(txs, _) => Some(txs)
    case _ => None
  }

  /** Reading `.size` off an entry: only a raw block payload has one. */
  function SizeField(v: CachedValue): Option<int>
  {
    match v
    case RawBlockValue(raw) => raw.size
    case _ => None
  }

  /** The shapes the source writes under each key namespace: a block entry
      is a mapped block or a raw payload, an address entry, a by-date array
      and a per-day number. Keys outside these namespaces are never written. */
  ghost predicate WellShaped(store: Store)
  {
    && (forall h :: BlockKey(h) in store ==> store[BlockKey(h)].MappedBlock? || store[BlockKey(h)].RawBlockValue?)
    && (forall a :: AddressKey(a) in store ==> store[AddressKey(a)].AddressEntry?)
    && (forall m :: DateKey(m) in store ==> store[DateKey(m)].BlockList?)
    && TotalsAreNumbers(store)
  }

  /** Every cached per-day total is a number. */
  ghost predicate TotalsAreNumbers(store: Store)
  {
    forall m :: TotalKey(m) in store ==> store[TotalKey(m)].Number?
  }

  predicate SameAt(a: Store, b: Store, k: string)
  {
    (k in a <==> k in b) && (k in a ==> a[k] == b[k])
  }

  /** Writing a block-shaped entry under a block key keeps the store well shaped. */
  lemma BlockWriteShaped(store: Store, hash: string, v: CachedValue)
    requires WellShaped(store)
    requires v.MappedBlock? || v.RawBlockValue?
    ensures WellShaped(store[BlockKey(hash) := v])
  {
  }

  lemma AddressWriteShaped(store: Store, address: string, v: CachedValue)
    requires WellShaped(store)
    requires v.AddressEntry?
    ensures WellShaped(store[AddressKey(address) := v])
  {
  }

  lemma DateWriteShaped(store: Store, millis: int, v: CachedValue)
    requires WellShaped(store)
    requires v.BlockList?
    ensures WellShaped(store[DateKey(millis) := v])
  {
  }

  lemma TotalWriteShaped(store: Store, millis: int, v: CachedValue)
    requires WellShaped(store)
    requires v.Number?
    ensures WellShaped(store[TotalKey(millis) := v])
  {
  }

  /** In the block, address and date namespaces every well-shaped entry is
      truthy, so the truthiness tests there are plain presence tests. */
  lemma EntriesAreTruthy(store: Store, hash: string, address: string, millis: int)
    requires WellShaped(store)
    ensures BlockKey(hash) in store ==> Truthy(store[BlockKey(hash)])
    ensures AddressKey(address) in store ==> Truthy(store[AddressKey(address)])
    ensures DateKey(millis) in store ==> Truthy(store[DateKey(millis)])
  {
  }
}
