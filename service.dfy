/** The aggregation layer as the source runs it: one shared cache that the
    fetch operations read and overwrite, and the upstream requests they issue,
    recorded in order. The cache and request helpers are stated against the
    map and the provider directly; every fetch operation, block-energy task,
    day task and resolver is proved to act exactly as its pure counterpart
    in Pipeline. */
module Service {
  import opened Results
  import opened Energy
  import opened JsArray
  import opened CacheKeys
  import opened Upstream
  import opened Cache
  import opened Pipeline
  import Properties

  class Aggregator {
    /** The upstream data provider. */
    const upstream: Provider
    /** The contents of the key-value store. */
    var cache: Store
    /** Every upstream request issued so far, oldest first. */
    var requests: seq<Request>

    ghost predicate Valid()
      reads this
    {
      WellShaped(cache)
    }

    constructor (upstream: Provider)
      ensures Valid()
      ensures this.upstream == upstream && cache == map[] && requests == []
    {
      this.upstream := upstream;
      cache := map[];
      requests := [];
    }

    /** `getFromCache`: the parsed entry, or nothing when the key is absent. */
    method GetFromCache(key: string) returns (v: Option<CachedValue>)
      ensures v.Some? <==> key in cache
      ensures v.Some? ==> v.value == cache[key]
    {
      if key in cache {
        v := Some(cache[key]);
      } else {
        v := None;
      }
    }

    /** `setToCache`: overwrite unconditionally. */
    method SetToCache(key: string, value: CachedValue)
      modifies this`cache
      ensures cache == old(cache)[key := value]
    {
      cache := cache[key := value];
    }

    method GetRawBlock(hash: string) returns (r: Result<RawBlock>)
      modifies this`requests
      ensures r == upstream.rawBlock(hash)
      ensures requests == old(requests) + [RawBlockRequest(hash)]
    {
      requests := requests + [RawBlockRequest(hash)];
      r := upstream.rawBlock(hash);
    }

    method GetRawAddr(address: string, offset: int, limit: int) returns (r: Result<AddressPage>)
      modifies this`requests
      ensures r == upstream.rawAddr(address, offset, limit)
      ensures requests == old(requests) + [RawAddrRequest(address, offset, limit)]
    {
      requests := requests + [RawAddrRequest(address, offset, limit)];
      r := upstream.rawAddr(address, offset, limit);
    }

    method GetBlocksForDate(millis: int) returns (r: Result<DatePayload>)
      modifies this`requests
      ensures r == upstream.blocksForDate(millis)
      ensures requests == old(requests) + [BlocksForDateRequest(millis)]
    {
      requests := requests + [BlocksForDateRequest(millis)];
      r := upstream.blocksForDate(millis);
    }

    method FetchBlockTransactionsWithEnergy(blockHash: string, limit: int, offset: int)
      returns (r: Result<seq<Tx>>)
      requires Valid()
      modifies this`cache, this`requests
      ensures Valid()
      ensures var s := BlockTransactions(upstream, State(old(cache), old(requests)), blockHash, limit, offset);
              r == s.result && cache == s.state.cache && requests == s.state.log
    {
      var key := BlockKey(blockHash);
      var block := GetFromCache(key);
      if block.Some? && Truthy(block.value) {
        match TransactionsField(block.value)
        case Some(txs) => return Ok(Slice(txs, offset, offset + limit));
        case None => return Err(MissingField("transactions"));
      }
      var response := GetRawBlock(blockHash);
      if response.Err? {
        return Err(BlockDataFailed(response.error));
      }
      var raw := response.value;
      var transactions := MapTxs(raw.tx);
      BlockWriteShaped(cache, blockHash, MappedBlock(raw.hash, raw.height, raw.time, transactions));
      SetToCache(key, MappedBlock(raw.hash, raw.height, raw.time, transactions));
      return Ok(Slice(transactions, offset, offset + limit));
    }

    /** The page loop of fetchAllTransactionsForAddress: page `i` is requested
        at offset `i * PAGE_SIZE`, and a failed page contributes no transactions. */
    method FetchPages(address: string, totalPages: nat) returns (results: seq<seq<Tx>>)
      modifies this`requests
      ensures results == Pages(upstream, address, totalPages)
      ensures requests == old(requests) + PageRequests(address, totalPages)
    {
      results := [];
      var i := 0;
      while i < totalPages
        invariant 0 <= i <= totalPages
        invariant results == Pages(upstream, address, i)
        invariant requests == old(requests) + PageRequests(address, i)
      {
        var page := GetRawAddr(address, i * PAGE_SIZE, PAGE_SIZE);
        var transactions := if page.Ok? then MapTxs(page.value.txs) else [];
        results := results + [transactions];
        i := i + 1;
      }
    }

    method FetchAllTransactionsForAddress(address: string, now: int) returns (r: Result<seq<Tx>>)
      requires Valid()
      modifies this`cache, this`requests
      ensures Valid()
      ensures var s := AddressTransactions(upstream, State(old(cache), old(requests)), address, now);
              r == s.result && cache == s.state.cache && requests == s.state.log
    {
      var key := AddressKey(address);
      var cached := GetFromCache(key);
      if cached.Some? && Truthy(cached.value) {
        match TransactionsField(cached.value)
        case Some(txs) => return Ok(txs);
        case None => return Err(MissingField("transactions"));
      }
      var initial := GetRawAddr(address, 0, 1);
      if initial.Err? {
        return Err(AddressFailed(initial.error));
      }
      var totalPages := PageCount(initial.value.nTx);
      var results := FetchPages(address, totalPages);
      var allTransactions := Flatten(results);
      AddressWriteShaped(cache, address, AddressEntry(allTransactions, now));
      SetToCache(key, AddressEntry(allTransactions, now));
      return Ok(allTransactions);
    }

    method FetchBlockDataByDate(dateMillis: int) returns (r: Result<seq<BlockRef>>)
      requires Valid()
      modifies this`cache, this`requests
      ensures Valid()
      ensures var s := BlocksByDate(upstream, State(old(cache), old(requests)), dateMillis);
              r == s.result && cache == s.state.cache && requests == s.state.log
    {
      var key := DateKey(dateMillis);
      var cached := GetFromCache(key);
      if cached.Some? && Truthy(cached.value) {
        match cached.value
        case BlockList(blocks) => return Ok(blocks);
        case _ => return Err(MissingField("length"));
      }
      var response := GetBlocksForDate(dateMillis);
      if response.Err? {
        return Err(DateFailed(dateMillis, response.error));
      }
      match response.value
      case NotAnArray =>
        return Err(DateFailed(dateMillis, NoBlocksForDate));
      case BlockArray(blocks) =>
        DateWriteShaped(cache, dateMillis, BlockList(blocks));
        SetToCache(key, BlockList(blocks));
        return Ok(blocks);
    }

    /** One task of calculateTotalEnergyConsumption's pool. */
    method BlockEnergyTask(block: BlockRef) returns (cost: real)
      requires Valid()
      modifies this`cache, this`requests
      ensures Valid()
      ensures var s := BlockEnergy(upstream, State(old(cache), old(requests)), block);
              cost == s.result && cache == s.state.cache && requests == s.state.log
    {
      var key := BlockKey(block.hash);
      var blockData := GetFromCache(key);
      if blockData.Some? && Truthy(blockData.value) {
        return SizeEnergy(SizeField(blockData.value));
      }
      var response := GetRawBlock(block.hash);
      if response.Err? {
        return 0.0;
      }
      BlockWriteShaped(cache, block.hash, RawBlockValue(response.value));
      SetToCache(key, RawBlockValue(response.value));
      return SizeEnergy(response.value.size);
    }

    method CalculateTotalEnergyConsumption(blocks: seq<BlockRef>) returns (total: real)
      requires Valid()
      modifies this`cache, this`requests
      ensures Valid()
      ensures var s := TotalEnergyConsumption(upstream, State(old(cache), old(requests)), blocks);
              total == s.result && cache == s.state.cache && requests == s.state.log
    {
      var costs: seq<real> := [];
      var i := 0;
      while i < |blocks|
        invariant 0 <= i <= |blocks|
        invariant Valid()
        invariant var s := BlockCosts(upstream, State(old(cache), old(requests)), blocks[..i]);
                  costs == s.result && cache == s.state.cache && requests == s.state.log
      {
        BlockCostsNext(upstream, State(old(cache), old(requests)), blocks, i);
        var cost := BlockEnergyTask(blocks[i]);
        costs := costs + [cost];
        i := i + 1;
      }
      assert blocks[..i] == blocks;
      total := SumReals(costs);
    }

    /** The `try` block of a per-day task, without its final cache write. */
    method ComputeDay(millis: int) returns (total: real)
      requires Valid()
      modifies this`cache, this`requests
      ensures Valid()
      ensures var s := DayCompute(upstream, State(old(cache), old(requests)), millis);
              total == s.result && cache == s.state.cache && requests == s.state.log
    {
      var blocks := FetchBlockDataByDate(millis);
      if blocks.Err? {
        return 0.0;
      }
      total := 0.0;
      if |blocks.value| > 0 {
        total := CalculateTotalEnergyConsumption(blocks.value);
      }
    }

    /** One task of the per-day resolver's pool. */
    method DayTotalTask(millis: int) returns (total: CachedValue)
      requires Valid()
      modifies this`cache, this`requests
      ensures Valid()
      ensures var s := DayTotal(upstream, State(old(cache), old(requests)), millis);
              total == s.result && cache == s.state.cache && requests == s.state.log
    {
      var key := TotalKey(millis);
      var cachedTotal := GetFromCache(key);
      if cachedTotal.Some? {
        return cachedTotal.value;
      }
      var computed := ComputeDay(millis);
      total := Number(computed);
      TotalWriteShaped(cache, millis, total);
      SetToCache(key, total);
    }

    /** The `totalEnergyConsumptionPerDay` resolver, given today's UTC midnight. */
    method TotalEnergyConsumptionPerDay(today: int, days: int) returns (results: seq<CachedValue>)
      requires Valid()
      modifies this`cache, this`requests
      ensures Valid()
      ensures var s := PerDay(upstream, State(old(cache), old(requests)), today, days);
              results == s.result && cache == s.state.cache && requests == s.state.log
      ensures forall i :: 0 <= i < |results| ==> results[i].Number?
    {
      ghost var start := State(cache, requests);
      results := [];
      var i: nat := 0;
      while i < days
        invariant i <= if days <= 0 then 0 else days
        invariant Valid()
        invariant var s := PerDay(upstream, start, today, i);
                  results == s.result && State(cache, requests) == s.state
      {
        ghost var prev := RunTasks(DayTask(upstream, today), start, i);
        RunTasksNext(DayTask(upstream, today), start, i);
        DayTaskRunsDayTotal(upstream, today, prev.state, i);
        var total := DayTotalTask(DayMillis(today, i));
        results := results + [total];
        i := i + 1;
      }
      Properties.PerDayAnswersAreNumbers(upstream, start, today, days);
    }

    /** The `totalEnergyConsumptionByAddress` resolver, given the current time. */
    method TotalEnergyConsumptionByAddress(address: string, now: int) returns (r: Result<real>)
      requires Valid()
      modifies this`cache, this`requests
      ensures Valid()
      ensures var s := AddressTotal(upstream, State(old(cache), old(requests)), address, now);
              r == s.result && cache == s.state.cache && requests == s.state.log
    {
      var transactions := FetchAllTransactionsForAddress(address, now);
      if transactions.Err? {
        return Err(AddressTotalFailed(transactions.error));
      }
      return Ok(SumEnergy(transactions.value));
    }
  }
}
