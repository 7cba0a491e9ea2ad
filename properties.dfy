/** What the cache-aside layer promises, stated over the step functions:
    hits, misses, failures, the shape of the cache afterwards and the
    requests issued. */
module Properties {
  import opened Results
  import opened Energy
  import opened JsArray
  import opened CacheKeys
  import opened Upstream
  import opened Cache
  import opened Pipeline

  // ---------------------------------------------------------------------
  // fetchBlockTransactionsWithEnergy

  /** A hit serves the `[offset, offset + limit)` window of the cached list,
      either bound counted back from the end when negative, issues no
      request and writes nothing. */
  lemma BlockHitServesCachedWindow(up: Provider, st: State, hash: string, limit: int, offset: int,
                                   txs: seq<Tx>)
    requires Hit(st.cache, BlockKey(hash))
    requires TransactionsField(st.cache[BlockKey(hash)]) == Some(txs)
    ensures var r := BlockTransactions(up, st, hash, limit, offset);
            var lo, hi := FromEnd(offset, |txs|), FromEnd(offset + limit, |txs|);
            r.state == st && r.result.Ok?
            && |r.result.value| == Max(0, Min(hi, |txs|) - Max(lo, 0))
            && (forall k :: 0 <= k < |r.result.value| ==> r.result.value[k] == txs[Max(lo, 0) + k])
            && (0 <= offset ==> forall k :: 0 <= k < |r.result.value| ==>
                                  offset + k < |txs| && r.result.value[k] == txs[offset + k])
            && (0 <= offset && 0 <= limit ==> |r.result.value| == Min(offset + limit, |txs|) - Min(offset, |txs|))
            && (offset >= |txs| ==> r.result.value == [])
  {
  }

  /** Pagination over five cached transactions: offset 1, limit 2 serves the
      second and third. */
  lemma PaginationExample(up: Provider, st: State, hash: string, h: int, t: int,
                          t0: Tx, t1: Tx, t2: Tx, t3: Tx, t4: Tx)
    requires BlockKey(hash) in st.cache
    requires st.cache[BlockKey(hash)] == MappedBlock(hash, h, t, [t0, t1, t2, t3, t4])
    ensures BlockTransactions(up, st, hash, 2, 1) == Step(Ok([t1, t2]), st)
  {
    SliceExample(t0, t1, t2, t3, t4);
  }

  /** A miss issues one `rawblock` request, caches the full mapped block
      (height as `index`, every transaction priced) and serves its window. */
  lemma BlockMissStoresMappedBlock(up: Provider, st: State, hash: string, limit: int, offset: int,
                                   raw: RawBlock)
    requires !Hit(st.cache, BlockKey(hash))
    requires up.rawBlock(hash) == Ok(raw)
    ensures var r := BlockTransactions(up, st, hash, limit, offset);
            var stored := MappedBlock(raw.hash, raw.height, raw.time, MapTxs(raw.tx));
            && r.state.log == st.log + [RawBlockRequest(hash)]
            && r.state.cache == st.cache[BlockKey(hash) := stored]
            && |stored.transactions| == |raw.tx|
            && (forall k :: 0 <= k < |raw.tx| ==>
                  stored.transactions[k] == Tx(raw.tx[k].hash, EnergyCost(raw.tx[k].size)))
            && r.result == Ok(Slice(stored.transactions, offset, offset + limit))
  {
  }

  /** A failed upstream fetch surfaces as an error and writes nothing. */
  lemma BlockFailureWritesNothing(up: Provider, st: State, hash: string, limit: int, offset: int)
    requires !Hit(st.cache, BlockKey(hash))
    requires up.rawBlock(hash).Err?
    ensures var r := BlockTransactions(up, st, hash, limit, offset);
            r.result == Err(BlockDataFailed(up.rawBlock(hash).error))
            && r.state == State(st.cache, st.log + [RawBlockRequest(hash)])
  {
  }

  /** Once a call has succeeded, every later call for the same block, with
      any window, is a hit over the very list the first call sliced. */
  lemma BlockWindowsShareOneList(up: Provider, st: State, hash: string,
                                 limit: int, offset: int, limit': int, offset': int)
    requires BlockTransactions(up, st, hash, limit, offset).result.Ok?
    ensures var first := BlockTransactions(up, st, hash, limit, offset);
            var second := BlockTransactions(up, first.state, hash, limit', offset');
            && Hit(first.state.cache, BlockKey(hash))
            && TransactionsField(first.state.cache[BlockKey(hash)]).Some?
            && var list := TransactionsField(first.state.cache[BlockKey(hash)]).value;
            && first.result == Ok(Slice(list, offset, offset + limit))
            && second == Step(Ok(Slice(list, offset', offset' + limit')), first.state)
  {
  }

  /** Calling twice with the same arguments gives the same result, and the
      second call issues no request. */
  lemma BlockTransactionsIdempotent(up: Provider, st: State, hash: string, limit: int, offset: int)
    requires BlockTransactions(up, st, hash, limit, offset).result.Ok?
    ensures var first := BlockTransactions(up, st, hash, limit, offset);
            BlockTransactions(up, first.state, hash, limit, offset) == Step(first.result, first.state)
  {
    BlockWindowsShareOneList(up, st, hash, limit, offset, limit, offset);
  }

  /** The end-to-end figure: a block with one 250-byte transaction, fetched
      into an empty cache with the default window, yields that transaction at
      1140 energy units. */
  lemma OneTransactionBlockEndToEnd(up: Provider, raw: RawBlock, log: seq<Request>)
    requires up.rawBlock("abc") == Ok(raw)
    requires raw.tx == [RawTx("t", 250)]
    ensures BlockTransactions(up, State(map[], log), "abc", 50, 0).result == Ok([Tx("t", 1140.0)])
  {
    TransactionOf250Bytes();
    var txs := MapTxs(raw.tx);
    assert Slice(txs, 0, 0 + 50) == txs[0..1] == txs;
  }

  // ---------------------------------------------------------------------
  // fetchAllTransactionsForAddress

  /** The page plan: n requests of PAGE_SIZE transactions, at offsets
      0, PAGE_SIZE, 2 * PAGE_SIZE, ..., in increasing order. */
  lemma {:induction false} PagePlan(address: string, n: nat)
    ensures |PageRequests(address, n)| == n
    ensures forall i :: 0 <= i < n ==>
              PageRequests(address, n)[i] == RawAddrRequest(address, i * PAGE_SIZE, PAGE_SIZE)
    ensures forall i, j :: 0 <= i < j < n ==>
              PageRequests(address, n)[i].offset < PageRequests(address, n)[j].offset
  {
    if n > 0 {
      PagePlan(address, n - 1);
    }
  }

  /** The page results, in page order. */
  lemma {:induction false} PagesInOrder(up: Provider, address: string, n: nat)
    ensures |Pages(up, address, n)| == n
    ensures forall i :: 0 <= i < n ==> Pages(up, address, n)[i] == PageTxs(up, address, i)
  {
    if n > 0 {
      PagesInOrder(up, address, n - 1);
    }
  }

  lemma {:induction false} FlattenAppend<T>(a: seq<seq<T>>, b: seq<seq<T>>)
    ensures Flatten(a + b) == Flatten(a) + Flatten(b)
    decreases |b|
  {
    if b == [] {
      assert a + b == a;
    } else {
      var b', last := b[..|b| - 1], b[|b| - 1];
      assert (a + b)[..|a + b| - 1] == a + b';
      assert Flatten(a + b) == Flatten(a + b') + last;
      FlattenAppend(a, b');
      assert Flatten(b) == Flatten(b') + last;
      assert Flatten(a) + Flatten(b') + last == Flatten(a) + (Flatten(b') + last);
    }
  }

  /** The first i page results are the results of a plan of i pages. */
  lemma {:induction false} PagesPrefix(up: Provider, address: string, n: nat, i: nat)
    requires i <= n
    ensures Pages(up, address, n)[..i] == Pages(up, address, i)
  {
    if i < n {
      PagesPrefix(up, address, n - 1, i);
      var prev := Pages(up, address, n - 1);
      assert Pages(up, address, n)[..i] == (prev + [PageTxs(up, address, n - 1)])[..i] == prev[..i];
    }
  }

  lemma {:induction false} FlattenSingle<T>(s: seq<T>)
    ensures Flatten([s]) == s
  {
    assert [s][..0] == [];
  }

  lemma SplitAround<T>(s: seq<T>, i: nat)
    requires i < |s|
    ensures s == (s[..i] + [s[i]]) + s[i + 1..]
  {
    assert s[..i + 1] == s[..i] + [s[i]];
  }

  /** Flattening around element i: what comes before it, it, what comes after. */
  lemma FlattenSplit<T>(ss: seq<seq<T>>, i: nat)
    requires i < |ss|
    ensures Flatten(ss) == Flatten(ss[..i]) + ss[i] + Flatten(ss[i + 1..])
  {
    SplitAround(ss, i);
    FlattenAppend(ss[..i] + [ss[i]], ss[i + 1..]);
    FlattenAppend(ss[..i], [ss[i]]);
    FlattenSingle(ss[i]);
  }

  /** In the concatenated list, page i's transactions sit, in order, right
      after those of the pages before it. */
  lemma PageInPlace(up: Provider, address: string, n: nat, i: nat)
    requires i < n
    ensures Flatten(Pages(up, address, n))
            == Flatten(Pages(up, address, i)) + PageTxs(up, address, i) + Flatten(Pages(up, address, n)[i + 1..])
  {
    FlattenSplit(Pages(up, address, n), i);
    PagesPrefix(up, address, n, i);
    PagesInOrder(up, address, n);
  }

  /** A failed page contributes nothing and does not stop the rest. */
  lemma FailedPageContributesNothing(up: Provider, address: string, n: nat, i: nat)
    requires i < n
    requires up.rawAddr(address, i * PAGE_SIZE, PAGE_SIZE).Err?
    ensures Flatten(Pages(up, address, n))
            == Flatten(Pages(up, address, i)) + Flatten(Pages(up, address, n)[i + 1..])
  {
    PageInPlace(up, address, n, i);
    DropEmpty(Flatten(Pages(up, address, i)), PageTxs(up, address, i), Flatten(Pages(up, address, n)[i + 1..]));
  }

  lemma DropEmpty<T>(a: seq<T>, e: seq<T>, b: seq<T>)
    requires e == []
    ensures a + e + b == a + b
  {
    assert a + e == a;
  }

  /** Of three pages, the middle one failing: the list holds exactly the
      first and the third page's transactions, and the fetch still succeeds. */
  lemma MiddlePageFails(up: Provider, st: State, address: string, now: int, initial: AddressPage)
    requires !Hit(st.cache, AddressKey(address))
    requires up.rawAddr(address, 0, 1) == Ok(initial)
    requires 100 < initial.nTx <= 150
    requires up.rawAddr(address, PAGE_SIZE, PAGE_SIZE).Err?
    ensures AddressTransactions(up, st, address, now).result
            == Ok(PageTxs(up, address, 0) + PageTxs(up, address, 2))
  {
    assert PageCount(initial.nTx) == 3;
    var p0, p2 := PageTxs(up, address, 0), PageTxs(up, address, 2);
    FailedPageContributesNothing(up, address, 3, 1);
    PagesInOrder(up, address, 3);
    assert Pages(up, address, 3)[2..] == [p2];
    assert Pages(up, address, 1) == [p0];
    FlattenSingle(p0);
    FlattenSingle(p2);
  }

  /** A miss issues the count request, then exactly one request per page,
      and caches the in-order concatenation of the pages with the timestamp. */
  lemma AddressMissFetchesEveryPage(up: Provider, st: State, address: string, now: int,
                                    initial: AddressPage)
    requires !Hit(st.cache, AddressKey(address))
    requires up.rawAddr(address, 0, 1) == Ok(initial)
    ensures var r := AddressTransactions(up, st, address, now);
            var n := PageCount(initial.nTx);
            && n * PAGE_SIZE >= initial.nTx && (n > 0 ==> (n - 1) * PAGE_SIZE < initial.nTx)
            && r.state.log == st.log + [RawAddrRequest(address, 0, 1)] + PageRequests(address, n)
            && r.result == Ok(Flatten(Pages(up, address, n)))
            && r.state.cache == st.cache[AddressKey(address) := AddressEntry(r.result.value, now)]
  {
  }

  /** The count request failing fails the fetch and writes nothing. */
  lemma AddressCountFailure(up: Provider, st: State, address: string, now: int)
    requires !Hit(st.cache, AddressKey(address))
    requires up.rawAddr(address, 0, 1).Err?
    ensures AddressTransactions(up, st, address, now)
            == Step(Err(AddressFailed(up.rawAddr(address, 0, 1).error)),
                    State(st.cache, st.log + [RawAddrRequest(address, 0, 1)]))
  {
  }

  /** A cached entry is served as is, whatever its timestamp and the current
      time: the entry never expires. */
  lemma AddressHitIgnoresTimestamp(up: Provider, st: State, address: string, now: int,
                                   txs: seq<Tx>, stamp: int)
    requires AddressKey(address) in st.cache
    requires st.cache[AddressKey(address)] == AddressEntry(txs, stamp)
    ensures AddressTransactions(up, st, address, now) == Step(Ok(txs), st)
  {
  }

  /** After a successful fetch, a later one, at any time, is served from the
      cache with no request. */
  lemma AddressSecondCallHits(up: Provider, st: State, address: string, now: int, later: int)
    requires AddressTransactions(up, st, address, now).result.Ok?
    ensures var first := AddressTransactions(up, st, address, now);
            AddressTransactions(up, first.state, address, later) == Step(first.result, first.state)
  {
  }

  // ---------------------------------------------------------------------
  // fetchBlockDataByDate

  /** A cached listing is served as is, with no request. */
  lemma DateHitServesCached(up: Provider, st: State, millis: int, blocks: seq<BlockRef>)
    requires DateKey(millis) in st.cache
    requires st.cache[DateKey(millis)] == BlockList(blocks)
    ensures BlocksByDate(up, st, millis) == Step(Ok(blocks), st)
  {
  }

  /** A miss issues one request. A transport failure and a payload that is
      not an array both fail and write nothing; an array is cached and served. */
  lemma DateMiss(up: Provider, st: State, millis: int)
    requires !Hit(st.cache, DateKey(millis))
    ensures var r := BlocksByDate(up, st, millis);
            var sent := State(st.cache, st.log + [BlocksForDateRequest(millis)]);
            && (up.blocksForDate(millis).Err? ==>
                  r == Step(Err(DateFailed(millis, up.blocksForDate(millis).error)), sent))
            && (up.blocksForDate(millis) == Ok(NotAnArray) ==>
                  r == Step(Err(DateFailed(millis, NoBlocksForDate)), sent))
            && (forall blocks :: up.blocksForDate(millis) == Ok(BlockArray(blocks)) ==>
                  r == Step(Ok(blocks), State(st.cache[DateKey(millis) := BlockList(blocks)], sent.log)))
  {
  }

  /** After a successful listing, the next one is served from the cache. */
  lemma DateSecondCallHits(up: Provider, st: State, millis: int)
    requires BlocksByDate(up, st, millis).result.Ok?
    ensures var first := BlocksByDate(up, st, millis);
            BlocksByDate(up, first.state, millis) == Step(first.result, first.state)
  {
  }

  /** A failed listing leaves the cache as it was. */
  lemma DateFailureWritesNothing(up: Provider, st: State, millis: int)
    requires BlocksByDate(up, st, millis).result.Err?
    ensures BlocksByDate(up, st, millis).state.cache == st.cache
  {
  }

  // ---------------------------------------------------------------------
  // calculateTotalEnergyConsumption

  /** A miss prices the fetched block by its byte size (0 without one) and
      caches the raw payload; a failed fetch contributes 0 and writes nothing. */
  lemma BlockEnergyMiss(up: Provider, st: State, block: BlockRef)
    requires !Hit(st.cache, BlockKey(block.hash))
    ensures var r := BlockEnergy(up, st, block);
            var sent := State(st.cache, st.log + [RawBlockRequest(block.hash)]);
            && (up.rawBlock(block.hash).Err? ==> r == Step(0.0, sent))
            && (forall raw :: up.rawBlock(block.hash) == Ok(raw) ==>
                  && r.result == EnergyCost(if raw.size.Some? then raw.size.value else 0)
                  && r.state == State(st.cache[BlockKey(block.hash) := RawBlockValue(raw)], sent.log))
  {
  }

  /** A block whose entry was written by the per-transaction path has no
      `size`, so it contributes 0, with no request. */
  lemma MappedBlockContributesZero(up: Provider, st: State, block: BlockRef)
    requires BlockKey(block.hash) in st.cache && st.cache[BlockKey(block.hash)].MappedBlock?
    ensures BlockEnergy(up, st, block) == Step(0.0, st)
  {
  }

  /** Any truthy entry, a raw payload an earlier sum cached included, is
      priced by its `size` with no request and no write. */
  lemma BlockEnergyHit(up: Provider, st: State, block: BlockRef)
    requires Hit(st.cache, BlockKey(block.hash))
    ensures BlockEnergy(up, st, block) == Step(SizeEnergy(SizeField(st.cache[BlockKey(block.hash)])), st)
  {
  }

  /** When every block is cached, the sum issues no request and writes
      nothing. */
  lemma {:induction false} BlockCostsAllHits(up: Provider, st: State, blocks: seq<BlockRef>)
    requires forall b :: b in blocks ==> Hit(st.cache, BlockKey(b.hash))
    ensures BlockCosts(up, st, blocks).state == st
    ensures TotalEnergyConsumption(up, st, blocks).state == st
    decreases |blocks|
  {
    if blocks != [] {
      var init := blocks[..|blocks| - 1];
      assert forall b :: b in init ==> b in blocks;
      BlockCostsAllHits(up, st, init);
      BlockEnergyHit(up, st, blocks[|blocks| - 1]);
    }
  }

  /** The two writers of `block:<hash>` disagree on its shape: once the
      per-transaction path has cached a block, the energy sum counts it as 0
      whatever its upstream size. */
  lemma PerTransactionPathZeroesBlock(up: Provider, st: State, hash: string, limit: int, offset: int)
    requires BlockTransactions(up, st, hash, limit, offset).result.Ok?
    ensures var first := BlockTransactions(up, st, hash, limit, offset);
            BlockEnergy(up, first.state, BlockRef(hash)) == Step(0.0, first.state)
  {
    BlockWindowsShareOneList(up, st, hash, limit, offset, limit, offset);
  }

  /** Conversely, once the energy sum has cached a raw payload, the
      per-transaction path finds no `transactions` list there and fails. */
  lemma RawBlockBreaksTransactions(up: Provider, st: State, hash: string, limit: int, offset: int)
    requires !Hit(st.cache, BlockKey(hash)) && up.rawBlock(hash).Ok?
    ensures var first := BlockEnergy(up, st, BlockRef(hash));
            BlockTransactions(up, first.state, hash, limit, offset)
            == Step(Err(MissingField("transactions")), first.state)
  {
  }

  /** The entry for `hash`, if any, prices the block as upstream would now. */
  ghost predicate PricesAsUpstream(up: Provider, cache: Store, hash: string)
  {
    Hit(cache, BlockKey(hash)) ==> SizeEnergy(SizeField(cache[BlockKey(hash)])) == UpstreamBlockEnergy(up, hash)
  }

  /** What each block would contribute if every one were fetched afresh. */
  function UpstreamCosts(up: Provider, blocks: seq<BlockRef>): (r: seq<real>)
    ensures |r| == |blocks|
  {
    if blocks == [] then []
    else UpstreamCosts(up, blocks[..|blocks| - 1]) + [UpstreamBlockEnergy(up, blocks[|blocks| - 1].hash)]
  }

  lemma {:induction false} UpstreamCostsInOrder(up: Provider, blocks: seq<BlockRef>)
    ensures forall i :: 0 <= i < |blocks| ==> UpstreamCosts(up, blocks)[i] == UpstreamBlockEnergy(up, blocks[i].hash)
    decreases |blocks|
  {
    if blocks != [] {
      var init := blocks[..|blocks| - 1];
      UpstreamCostsInOrder(up, init);
      forall i | 0 <= i < |init| ensures init[i] == blocks[i] {}
    }
  }

  /** A block without a size, or whose fetch fails, contributes exactly 0;
      otherwise its size is priced. */
  lemma UpstreamBlockEnergyCases(up: Provider, hash: string)
    ensures up.rawBlock(hash).Err? ==> UpstreamBlockEnergy(up, hash) == 0.0
    ensures up.rawBlock(hash).Ok? && up.rawBlock(hash).value.size.None? ==> UpstreamBlockEnergy(up, hash) == 0.0
    ensures up.rawBlock(hash).Ok? && up.rawBlock(hash).value.size.Some? ==>
              UpstreamBlockEnergy(up, hash) == EnergyCost(up.rawBlock(hash).value.size.value)
  {
  }

  /** What a block contributes on a given cache: the `size` of a truthy
      entry under its key, or else what a fresh fetch yields. */
  function BlockPrice(up: Provider, cache: Store, hash: string): real
  {
    if Hit(cache, BlockKey(hash)) then SizeEnergy(SizeField(cache[BlockKey(hash)])) else UpstreamBlockEnergy(up, hash)
  }

  /** Each block's price on one cache, in block order. */
  function Prices(up: Provider, cache: Store, blocks: seq<BlockRef>): (r: seq<real>)
    ensures |r| == |blocks|
  {
    if blocks == [] then []
    else Prices(up, cache, blocks[..|blocks| - 1]) + [BlockPrice(up, cache, blocks[|blocks| - 1].hash)]
  }

  lemma {:induction false} PricesInOrder(up: Provider, cache: Store, blocks: seq<BlockRef>)
    ensures forall i :: 0 <= i < |blocks| ==> Prices(up, cache, blocks)[i] == BlockPrice(up, cache, blocks[i].hash)
    decreases |blocks|
  {
    if blocks != [] {
      var init := blocks[..|blocks| - 1];
      PricesInOrder(up, cache, init);
      forall i | 0 <= i < |init| ensures init[i] == blocks[i] {}
    }
  }

  /** One block task answers its block's price and changes no block's
      price: it writes only a key that missed, and the raw payload it writes
      there prices as the fetch did. */
  lemma BlockEnergyKeepsPrices(up: Provider, st: State, block: BlockRef, hash: string)
    ensures BlockEnergy(up, st, block).result == BlockPrice(up, st.cache, block.hash)
    ensures BlockPrice(up, BlockEnergy(up, st, block).state.cache, hash) == BlockPrice(up, st.cache, hash)
  {
    if block.hash != hash {
      if BlockKey(block.hash) == BlockKey(hash) {
        BlockKeyInjective(block.hash, hash);
      }
    }
  }

  lemma {:induction false} BlockCostsKeepPrices(up: Provider, st: State, blocks: seq<BlockRef>, hash: string)
    ensures BlockPrice(up, BlockCosts(up, st, blocks).state.cache, hash) == BlockPrice(up, st.cache, hash)
    decreases |blocks|
  {
    if blocks != [] {
      var init := blocks[..|blocks| - 1];
      BlockCostsKeepPrices(up, st, init, hash);
      BlockEnergyKeepsPrices(up, BlockCosts(up, st, init).state, blocks[|blocks| - 1], hash);
    }
  }

  /** Whatever the cache holds, cost i is block i's price on the cache the
      sum started from, duplicates included: no block task changes what a
      later one sees for its block. */
  lemma {:induction false} CostsArePrices(up: Provider, st: State, blocks: seq<BlockRef>)
    ensures BlockCosts(up, st, blocks).result == Prices(up, st.cache, blocks)
    decreases |blocks|
  {
    if blocks != [] {
      var init, last := blocks[..|blocks| - 1], blocks[|blocks| - 1];
      CostsArePrices(up, st, init);
      BlockCostsKeepPrices(up, st, init, last.hash);
      BlockEnergyKeepsPrices(up, BlockCosts(up, st, init).state, last, last.hash);
    }
  }

  /** The total is the sum of the blocks' prices on the starting cache. */
  lemma TotalIsSumOfPrices(up: Provider, st: State, blocks: seq<BlockRef>)
    ensures TotalEnergyConsumption(up, st, blocks).result == SumReals(Prices(up, st.cache, blocks))
  {
    CostsArePrices(up, st, blocks);
  }

  /** A block whose entry the per-transaction path wrote adds 0 to the
      total, whatever its upstream size. */
  lemma MappedBlockAddsZeroToTotal(up: Provider, st: State, blocks: seq<BlockRef>, i: nat)
    requires i < |blocks|
    requires BlockKey(blocks[i].hash) in st.cache && st.cache[BlockKey(blocks[i].hash)].MappedBlock?
    ensures BlockCosts(up, st, blocks).result[i] == 0.0
  {
    CostsArePrices(up, st, blocks);
    PricesInOrder(up, st.cache, blocks);
  }

  /** When every cached block entry prices as upstream does (in particular
      when none of the blocks is cached), the prices are the fresh-fetch ones. */
  lemma {:induction false} PricesMatchUpstream(up: Provider, cache: Store, blocks: seq<BlockRef>)
    requires forall b :: b in blocks ==> PricesAsUpstream(up, cache, b.hash)
    ensures Prices(up, cache, blocks) == UpstreamCosts(up, blocks)
    decreases |blocks|
  {
    if blocks != [] {
      var init := blocks[..|blocks| - 1];
      assert forall b :: b in init ==> b in blocks;
      PricesMatchUpstream(up, cache, init);
    }
  }

  /** Under the same condition, each block contributes what its fresh fetch
      would. */
  lemma CostsMatchUpstream(up: Provider, st: State, blocks: seq<BlockRef>)
    requires forall b :: b in blocks ==> PricesAsUpstream(up, st.cache, b.hash)
    ensures BlockCosts(up, st, blocks).result == UpstreamCosts(up, blocks)
  {
    CostsArePrices(up, st, blocks);
    PricesMatchUpstream(up, st.cache, blocks);
  }

  /** The total is then the sum of the fresh-fetch contributions. */
  lemma TotalMatchesUpstream(up: Provider, st: State, blocks: seq<BlockRef>)
    requires forall b :: b in blocks ==> PricesAsUpstream(up, st.cache, b.hash)
    ensures TotalEnergyConsumption(up, st, blocks).result == SumReals(UpstreamCosts(up, blocks))
  {
    CostsMatchUpstream(up, st, blocks);
  }

  // ---------------------------------------------------------------------
  // totalEnergyConsumptionPerDay

  /** A cached total, 0 included, is answered as stored, without any request. */
  lemma DayCachedTotalIsHit(up: Provider, st: State, millis: int)
    requires TotalKey(millis) in st.cache
    ensures DayTotal(up, st, millis) == Step(st.cache[TotalKey(millis)], st)
  {
  }

  /** A day whose listing fails yields 0 and caches 0 beside what the
      listing left. */
  lemma DayErrorCachesZero(up: Provider, st: State, millis: int)
    requires TotalKey(millis) !in st.cache
    requires BlocksByDate(up, st, millis).result.Err?
    ensures DayTotal(up, st, millis)
            == Step(Number(0.0), State(st.cache[TotalKey(millis) := Number(0.0)], BlocksByDate(up, st, millis).state.log))
  {
    DateFailureWritesNothing(up, st, millis);
  }

  /** A day with no blocks yields 0 and caches 0. */
  lemma DayWithoutBlocksIsZero(up: Provider, st: State, millis: int)
    requires TotalKey(millis) !in st.cache
    requires BlocksByDate(up, st, millis).result == Ok([])
    ensures var day := BlocksByDate(up, st, millis);
            DayTotal(up, st, millis) == Step(Number(0.0), State(day.state.cache[TotalKey(millis) := Number(0.0)], day.state.log))
  {
  }

  /** A day with blocks yields their total and caches it. */
  lemma DayWithBlocksIsTheirTotal(up: Provider, st: State, millis: int)
    requires TotalKey(millis) !in st.cache
    requires BlocksByDate(up, st, millis).result.Ok? && |BlocksByDate(up, st, millis).result.value| > 0
    ensures var day := BlocksByDate(up, st, millis);
            var total := TotalEnergyConsumption(up, day.state, day.result.value);
            DayTotal(up, st, millis)
            == Step(Number(total.result), State(total.state.cache[TotalKey(millis) := Number(total.result)], total.state.log))
  {
  }

  /** After a day task its key holds exactly what the task answered. */
  lemma DayTotalIsCached(up: Provider, st: State, millis: int)
    ensures var r := DayTotal(up, st, millis);
            TotalKey(millis) in r.state.cache && r.state.cache[TotalKey(millis)] == r.result
  {
  }

  /** In a cache whose totals are numbers, a day task answers a number. */
  lemma DayTotalIsNumber(up: Provider, st: State, millis: int)
    requires TotalsAreNumbers(st.cache)
    ensures DayTotal(up, st, millis).result.Number?
  {
  }

  /** Running more tasks does not disturb the answers of earlier ones. */
  lemma {:induction false} RunTasksPrefix<T>(task: (State, nat) -> Step<T>, st: State, n: nat, i: nat)
    requires i <= n
    ensures RunTasks(task, st, n).result[..i] == RunTasks(task, st, i).result
  {
    if i < n {
      RunTasksPrefix(task, st, n - 1, i);
      var prev := RunTasks(task, st, n - 1).result;
      var all := RunTasks(task, st, n).result;
      assert all[..n - 1] == prev;
      assert all[..i] == all[..n - 1][..i];
    }
  }

  /** Answer i is what task i answers on the state tasks 0 to i - 1 left. */
  lemma RunTasksEntry<T>(task: (State, nat) -> Step<T>, st: State, n: nat, i: nat)
    requires i < n
    ensures RunTasks(task, st, n).result[i] == task(RunTasks(task, st, i).state, i).result
  {
    RunTasksPrefix(task, st, n, i + 1);
    assert RunTasks(task, st, n).result[i] == RunTasks(task, st, n).result[..i + 1][i];
  }

  /** Entry i of the resolver's answer is the task for the day i days
      before today, run on the state the earlier days left. */
  lemma PerDayEntry(up: Provider, st: State, today: int, days: int, i: nat)
    requires i < days
    ensures PerDay(up, st, today, days).result[i]
            == DayTotal(up, PerDay(up, st, today, i).state, DayMillis(today, i)).result
  {
    RunTasksEntry(DayTask(up, today), st, days, i);
  }

  /** If every task keeps `inv`, a run of tasks keeps it. */
  lemma {:induction false} RunTasksKeep<T>(task: (State, nat) -> Step<T>, inv: State -> bool, st: State, n: nat)
    requires inv(st)
    requires forall s: State, i: nat :: inv(s) ==> inv(task(s, i).state)
    ensures inv(RunTasks(task, st, n).state)
  {
    if n > 0 {
      RunTasksKeep(task, inv, st, n - 1);
    }
  }

  /** If task i records its answer under key(i) and leaves every other
      task's key alone, a run ends with each answer recorded under its key. */
  lemma {:induction false} RunTasksRecord(task: (State, nat) -> Step<CachedValue>, key: nat -> string, st: State, n: nat)
    requires forall s: State, i: nat :: key(i) in task(s, i).state.cache && task(s, i).state.cache[key(i)] == task(s, i).result
    requires forall s: State, i: nat, j: nat :: i != j ==> SameAt(s.cache, task(s, j).state.cache, key(i))
    ensures var r := RunTasks(task, st, n);
            forall i :: 0 <= i < n ==> key(i) in r.state.cache && r.state.cache[key(i)] == r.result[i]
  {
    if n > 0 {
      RunTasksRecord(task, key, st, n - 1);
      var prev := RunTasks(task, st, n - 1);
      var r := RunTasks(task, st, n);
      forall i | 0 <= i < n
        ensures key(i) in r.state.cache && r.state.cache[key(i)] == r.result[i]
      {
        if i < n - 1 {
          assert SameAt(prev.state.cache, task(prev.state, n - 1).state.cache, key(i));
          assert r.result[i] == prev.result[i];
        }
      }
    }
  }

  /** The key under which task i of the per-day resolver caches its total. */
  function DayKey(today: int): nat -> string
  {
    (i: nat) => TotalKey(DayMillis(today, i))
  }

  lemma DayTasksRecordTheirDays(up: Provider, today: int)
    ensures forall s: State, i: nat ::
              DayKey(today)(i) in DayTask(up, today)(s, i).state.cache
              && DayTask(up, today)(s, i).state.cache[DayKey(today)(i)] == DayTask(up, today)(s, i).result
  {
    forall s: State, i: nat
      ensures DayKey(today)(i) in DayTask(up, today)(s, i).state.cache
              && DayTask(up, today)(s, i).state.cache[DayKey(today)(i)] == DayTask(up, today)(s, i).result
    {
      DayTotalIsCached(up, s, DayMillis(today, i));
    }
  }

  lemma DayTasksKeepOtherDays(up: Provider, today: int)
    ensures forall s: State, i: nat, j: nat :: i != j ==>
              SameAt(s.cache, DayTask(up, today)(s, j).state.cache, DayKey(today)(i))
  {
    forall s: State, i: nat, j: nat | i != j
      ensures SameAt(s.cache, DayTask(up, today)(s, j).state.cache, DayKey(today)(i))
    {
      DayTotalKeepsOtherDays(up, s, DayMillis(today, j), DayMillis(today, i));
    }
  }

  /** After n day tasks, each of those days' totals is cached, holding the
      answer given for that day. */
  lemma PerDayCachesEveryDay(up: Provider, st: State, today: int, n: nat)
    ensures var r := PerDay(up, st, today, n);
            forall i :: 0 <= i < n ==>
              TotalKey(DayMillis(today, i)) in r.state.cache
              && r.state.cache[TotalKey(DayMillis(today, i))] == r.result[i]
  {
    DayTasksRecordTheirDays(up, today);
    DayTasksKeepOtherDays(up, today);
    RunTasksRecord(DayTask(up, today), DayKey(today), st, n);
    var r := PerDay(up, st, today, n);
    assert r == RunTasks(DayTask(up, today), st, n);
    forall i | 0 <= i < n
      ensures TotalKey(DayMillis(today, i)) in r.state.cache
              && r.state.cache[TotalKey(DayMillis(today, i))] == r.result[i]
    {
      assert DayKey(today)(i) == TotalKey(DayMillis(today, i));
    }
  }

  /** Day tasks keep every cached total a number. */
  lemma PerDayKeepsNumbers(up: Provider, st: State, today: int, n: nat)
    requires TotalsAreNumbers(st.cache)
    ensures TotalsAreNumbers(PerDay(up, st, today, n).state.cache)
  {
    var task := DayTask(up, today);
    var inv := (s: State) => TotalsAreNumbers(s.cache);
    forall s: State, i: nat | inv(s)
      ensures inv(task(s, i).state)
    {
      DayTotalKeepsNumbers(up, s, DayMillis(today, i));
    }
    RunTasksKeep(task, inv, st, n);
  }

  /** So on a well-kept cache the resolver answers numbers only, as its
      `[Float!]!` type demands. */
  lemma PerDayAnswersAreNumbers(up: Provider, st: State, today: int, days: int)
    requires TotalsAreNumbers(st.cache)
    ensures forall i :: 0 <= i < |PerDay(up, st, today, days).result| ==> PerDay(up, st, today, days).result[i].Number?
  {
    var n := if days <= 0 then 0 else days;
    PerDayKeepsNumbers(up, st, today, n);
    PerDayCachesEveryDay(up, st, today, n);
  }

  /** When every requested day is cached, the resolver issues no request
      and writes nothing. */
  lemma {:induction false} PerDayAllCachedKeepsState(up: Provider, st: State, today: int, n: nat)
    requires forall i :: 0 <= i < n ==> TotalKey(DayMillis(today, i)) in st.cache
    ensures PerDay(up, st, today, n).state == st
  {
    if n > 0 {
      PerDayAllCachedKeepsState(up, st, today, n - 1);
      DayCachedTotalIsHit(up, st, DayMillis(today, n - 1));
    }
  }

  /** ... and answers the cached totals, in day order. */
  lemma PerDayAllCached(up: Provider, st: State, today: int, n: nat)
    requires forall i :: 0 <= i < n ==> TotalKey(DayMillis(today, i)) in st.cache
    ensures forall i :: 0 <= i < n ==>
              PerDay(up, st, today, n).result[i] == st.cache[TotalKey(DayMillis(today, i))]
  {
    forall i | 0 <= i < n
      ensures PerDay(up, st, today, n).result[i] == st.cache[TotalKey(DayMillis(today, i))]
    {
      PerDayEntry(up, st, today, n, i);
      PerDayAllCachedKeepsState(up, st, today, i);
      DayCachedTotalIsHit(up, st, DayMillis(today, i));
    }
  }

  /** Three days are three totals: today, yesterday and the day before. */
  lemma ThreeDays(up: Provider, st: State, today: int)
    ensures var r := PerDay(up, st, today, 3);
            && |r.result| == 3
            && r.result[0] == DayTotal(up, st, today).result
            && r.result[1] == DayTotal(up, PerDay(up, st, today, 1).state, today - 86400000).result
            && r.result[2] == DayTotal(up, PerDay(up, st, today, 2).state, today - 2 * 86400000).result
  {
    PerDayEntry(up, st, today, 3, 0);
    PerDayEntry(up, st, today, 3, 1);
    PerDayEntry(up, st, today, 3, 2);
  }

  /** No days requested: no task runs. */
  lemma NoDaysNoTasks(up: Provider, st: State, today: int, days: int)
    requires days <= 0
    ensures PerDay(up, st, today, days) == Step([], st)
  {
  }

  // ---------------------------------------------------------------------
  // The shape discipline: each writer keeps every namespace in its shape

  lemma BlocksByDateShaped(up: Provider, st: State, millis: int)
    requires WellShaped(st.cache)
    ensures WellShaped(BlocksByDate(up, st, millis).state.cache)
  {
    if !Hit(st.cache, DateKey(millis)) && up.blocksForDate(millis).Ok? && up.blocksForDate(millis).value.BlockArray? {
      DateWriteShaped(st.cache, millis, BlockList(up.blocksForDate(millis).value.blocks));
    }
  }

  lemma BlockEnergyShaped(up: Provider, st: State, block: BlockRef)
    requires WellShaped(st.cache)
    ensures WellShaped(BlockEnergy(up, st, block).state.cache)
  {
    if !Hit(st.cache, BlockKey(block.hash)) && up.rawBlock(block.hash).Ok? {
      BlockWriteShaped(st.cache, block.hash, RawBlockValue(up.rawBlock(block.hash).value));
    }
  }

  /** The block tasks write only raw payloads under block keys, so the
      cache stays well shaped. */
  lemma {:induction false} BlockCostsShaped(up: Provider, st: State, blocks: seq<BlockRef>)
    requires WellShaped(st.cache)
    ensures WellShaped(BlockCosts(up, st, blocks).state.cache)
  {
    if blocks != [] {
      BlockCostsShaped(up, st, blocks[..|blocks| - 1]);
      BlockEnergyShaped(up, BlockCosts(up, st, blocks[..|blocks| - 1]).state, blocks[|blocks| - 1]);
    }
  }

  lemma DayComputeShaped(up: Provider, st: State, millis: int)
    requires WellShaped(st.cache)
    ensures WellShaped(DayCompute(up, st, millis).state.cache)
  {
    BlocksByDateShaped(up, st, millis);
    var day := BlocksByDate(up, st, millis);
    if day.result.Ok? && |day.result.value| > 0 {
      BlockCostsShaped(up, day.state, day.result.value);
    }
  }

  /** A day task writes only under block, date and per-day keys, each with
      its own shape. */
  lemma DayTotalShaped(up: Provider, st: State, millis: int)
    requires WellShaped(st.cache)
    ensures WellShaped(DayTotal(up, st, millis).state.cache)
  {
    if TotalKey(millis) !in st.cache {
      DayComputeShaped(up, st, millis);
      var computed := DayCompute(up, st, millis);
      TotalWriteShaped(computed.state.cache, millis, Number(computed.result));
    }
  }

  // ---------------------------------------------------------------------
  // totalEnergyConsumptionByAddress

  /** The address total sums the energy of the fetched transactions, and
      wraps the fetch's failure. */
  lemma AddressTotalSumsFetched(up: Provider, st: State, address: string, now: int)
    ensures var fetched := AddressTransactions(up, st, address, now);
            var r := AddressTotal(up, st, address, now);
            && r.state == fetched.state
            && (fetched.result.Ok? ==> r.result == Ok(SumEnergy(fetched.result.value)))
            && (fetched.result.Err? ==> r.result == Err(AddressTotalFailed(fetched.result.error)))
  {
  }

  /** The byte size of what page i contributes. */
  function PageSize(up: Provider, address: string, i: nat): int
  {
    match up.rawAddr(address, i * PAGE_SIZE, PAGE_SIZE)
    case Ok(page) => SumSizes(page.txs)
    case Err(_) => 0
  }

  /** The byte size of the first n pages' contributions. */
  function PagesSize(up: Provider, address: string, n: nat): int
  {
    if n == 0 then 0 else PagesSize(up, address, n - 1) + PageSize(up, address, n - 1)
  }

  /** Pricing the concatenated pages is pricing their total size. */
  lemma {:induction false} PagesEnergy(up: Provider, address: string, n: nat)
    ensures SumEnergy(Flatten(Pages(up, address, n))) == EnergyCost(PagesSize(up, address, n))
  {
    if n > 0 {
      var prev, page := Pages(up, address, n - 1), PageTxs(up, address, n - 1);
      assert (prev + [page])[..n - 1] == prev;
      assert Flatten(Pages(up, address, n)) == Flatten(prev) + page;
      SumEnergyAppend(Flatten(prev), page);
      PagesEnergy(up, address, n - 1);
      match up.rawAddr(address, (n - 1) * PAGE_SIZE, PAGE_SIZE)
      case Ok(p) => MappedEnergy(p.txs);
      case Err(_) =>
      EnergyCostAdditive(PagesSize(up, address, n - 1), PageSize(up, address, n - 1));
    }
  }

  /** On a fresh fetch the address total is the energy of every successful
      page's bytes. */
  lemma AddressTotalOfFreshFetch(up: Provider, st: State, address: string, now: int, initial: AddressPage)
    requires !Hit(st.cache, AddressKey(address))
    requires up.rawAddr(address, 0, 1) == Ok(initial)
    ensures AddressTotal(up, st, address, now).result
            == Ok(EnergyCost(PagesSize(up, address, PageCount(initial.nTx))))
  {
    PagesEnergy(up, address, PageCount(initial.nTx));
  }
}
