/** The cache-aside aggregation layer as pure state transformers. Each
    operation takes the upstream provider and the state (cache contents and
    the log of upstream requests) and yields its result and the state it
    leaves. Concurrent task pools are taken one task at a time,
    in index order. */
module Pipeline {
  import opened Results
  import opened Energy
  import opened JsArray
  import opened CacheKeys
  import opened Upstream
  import opened Cache

  /** The upstream's largest address page. */
  const PAGE_SIZE: nat := 50

  const MILLIS_PER_DAY: int := 86400000

  /** What the layer observes and changes: the cache contents and the
      upstream requests issued so far, oldest first. */
  datatype State = State(cache: Store, log: seq<Request>)

  /** An operation's result and the state it leaves. */
  datatype Step<T> = Step(result: T, state: State)

  /** Issuing one upstream request. */
  function Issue(st: State, req: Request): State
  {
    State(st.cache, st.log + [req])
  }

  /** `setToCache(key, v)`. */
  function Write(st: State, key: string, v: CachedValue): State
  {
    State(st.cache[key := v], st.log)
  }

  /** The `if (cached)` test: present and truthy. */
  predicate Hit(store: Store, key: string)
  {
    key in store && Truthy(store[key])
  }

  // ---------------------------------------------------------------------
  // fetchBlockTransactionsWithEnergy

  function BlockTransactions(up: Provider, st: State, hash: string, limit: int, offset: int)
    : Step<Result<seq<Tx>>>
  {
    var key := BlockKey(hash);
    if Hit(st.cache, key) then
      match TransactionsField(st.cache[key])
      case Some(txs) => Step(Ok(Slice(txs, offset, offset + limit)), st)
      case None => Step(Err(MissingField("transactions")), st)
    else
      var sent := Issue(st, RawBlockRequest(hash));
      match up.rawBlock(hash)
      case Err(e) => Step(Err(BlockDataFailed(e)), sent)
      case Ok(raw) =>
        var txs := MapTxs(raw.tx);
        Step(Ok(Slice(txs, offset, offset + limit)),
             Write(sent, key, MappedBlock(raw.hash, raw.height, raw.time, txs)))
  }

  // ---------------------------------------------------------------------
  // fetchAllTransactionsForAddress

  /** `Math.ceil(nTx / 50)` as a loop bound: the fewest pages that cover nTx. */
  function PageCount(nTx: int): (p: nat)
    ensures p * PAGE_SIZE >= nTx
    ensures p > 0 ==> (p - 1) * PAGE_SIZE < nTx
  {
    if nTx <= 0 then 0 else (nTx + PAGE_SIZE - 1) / PAGE_SIZE
  }

  /** The page requests of the first n pages. */
  function PageRequests(address: string, n: nat): seq<Request>
  {
    if n == 0 then []
    else PageRequests(address, n - 1) + [RawAddrRequest(address, (n - 1) * PAGE_SIZE, PAGE_SIZE)]
  }

  /** What page i contributes: its priced transactions, or nothing if it failed. */
  function PageTxs(up: Provider, address: string, i: nat): seq<Tx>
  {
    match up.rawAddr(address, i * PAGE_SIZE, PAGE_SIZE)
    case Ok(page) => MapTxs(page.txs)
    case Err(_) => []
  }

  /** The results of the first n page tasks, in page order. */
  function Pages(up: Provider, address: string, n: nat): (ps: seq<seq<Tx>>)
    ensures |ps| == n
  {
    if n == 0 then [] else Pages(up, address, n - 1) + [PageTxs(up, address, n - 1)]
  }

  /** `results.flat()`. */
  function Flatten<T>(ss: seq<seq<T>>): seq<T>
  {
    if ss == [] then [] else Flatten(ss[..|ss| - 1]) + ss[|ss| - 1]
  }

  function AddressTransactions(up: Provider, st: State, address: string, now: int)
    : Step<Result<seq<Tx>>>
  {
    var key := AddressKey(address);
    if Hit(st.cache, key) then
      match TransactionsField(st.cache[key])
      case Some(txs) => Step(Ok(txs), st)
      case None => Step(Err(MissingField("transactions")), st)
    else
      var sent := Issue(st, RawAddrRequest(address, 0, 1));
      match up.rawAddr(address, 0, 1)
      case Err(e) => Step(Err(AddressFailed(e)), sent)
      case Ok(initial) =>
        var n := PageCount(initial.nTx);
        var all := Flatten(Pages(up, address, n));
        Step(Ok(all), State(sent.cache[key := AddressEntry(all, now)], sent.log + PageRequests(address, n)))
  }

  // ---------------------------------------------------------------------
  // fetchBlockDataByDate

  function BlocksByDate(up: Provider, st: State, millis: int): Step<Result<seq<BlockRef>>>
  {
    var key := DateKey(millis);
    if Hit(st.cache, key) then
      match st.cache[key]
      case BlockList(blocks) => Step(Ok(blocks), st)
      case _ => Step(Err(MissingField("length")), st)
    else
      var sent := Issue(st, BlocksForDateRequest(millis));
      match up.blocksForDate(millis)
      case Err(e) => Step(Err(DateFailed(millis, e)), sent)
      case Ok(NotAnArray) => Step(Err(DateFailed(millis, NoBlocksForDate)), sent)
      case Ok(BlockArray(blocks)) => Step(Ok(blocks), Write(sent, key, BlockList(blocks)))
  }

  // ---------------------------------------------------------------------
  // calculateTotalEnergyConsumption

  /** `if (!blockData.size) return 0; return calculateEnergyCost(blockData.size)`:
      the guard agrees with pricing a missing size as 0 bytes. */
  function SizeEnergy(size: Option<int>): (e: real)
    ensures e == EnergyCost(if size.Some? then size.value else 0)
  {
    match size
    case None => 0.0
    case Some(s) => if s == 0 then 0.0 else EnergyCost(s)
  }

  /** What one block would contribute if fetched from upstream now. */
  function UpstreamBlockEnergy(up: Provider, hash: string): real
  {
    match up.rawBlock(hash)
    case Ok(raw) => SizeEnergy(raw.size)
    case Err(_) => 0.0
  }

  /** One block task: a cached entry is priced by its `size` field; a miss
      fetches, caches the raw payload and prices it; a failure counts 0. */
  function BlockEnergy(up: Provider, st: State, block: BlockRef): Step<real>
  {
    var key := BlockKey(block.hash);
    if Hit(st.cache, key) then
      Step(SizeEnergy(SizeField(st.cache[key])), st)
    else
      var sent := Issue(st, RawBlockRequest(block.hash));
      match up.rawBlock(block.hash)
      case Err(_) => Step(0.0, sent)
      case Ok(raw) => Step(SizeEnergy(raw.size), Write(sent, key, RawBlockValue(raw)))
  }

  /** The per-block results of `Promise.all`, in block order. */
  function BlockCosts(up: Provider, st: State, blocks: seq<BlockRef>): (r: Step<seq<real>>)
    ensures |r.result| == |blocks|
  {
    if blocks == [] then Step([], st)
    else
      var prev := BlockCosts(up, st, blocks[..|blocks| - 1]);
      var last := BlockEnergy(up, prev.state, blocks[|blocks| - 1]);
      Step(prev.result + [last.result], last.state)
  }

  /** One more block appends its cost and hands on its state. */
  lemma BlockCostsNext(up: Provider, st: State, blocks: seq<BlockRef>, i: nat)
    requires i < |blocks|
    ensures var prev := BlockCosts(up, st, blocks[..i]);
            var last := BlockEnergy(up, prev.state, blocks[i]);
            BlockCosts(up, st, blocks[..i + 1]) == Step(prev.result + [last.result], last.state)
  {
    assert blocks[..i + 1][..i] == blocks[..i];
  }

  function TotalEnergyConsumption(up: Provider, st: State, blocks: seq<BlockRef>): Step<real>
  {
    var costs := BlockCosts(up, st, blocks);
    Step(SumReals(costs.result), costs.state)
  }

  // ---------------------------------------------------------------------
  // totalEnergyConsumptionPerDay

  /** The UTC midnight i days before `today`. */
  function DayMillis(today: int, i: nat): int
  {
    today - i * MILLIS_PER_DAY
  }

  /** The body of a day task's `try`: the day's blocks priced, 0 when there
      are none, and 0 from the `catch` when fetching them fails. */
  function DayCompute(up: Provider, st: State, millis: int): Step<real>
  {
    var day := BlocksByDate(up, st, millis);
    match day.result
    case Err(_) => Step(0.0, day.state)
    case Ok(blocks) =>
      if |blocks| > 0 then TotalEnergyConsumption(up, day.state, blocks)
      else Step(0.0, day.state)
  }

  /** One day task: a cached total (0 included) is answered as it is
      stored; otherwise the day is computed and the number it yields is
      cached and answered. */
  function DayTotal(up: Provider, st: State, millis: int): Step<CachedValue>
  {
    var key := TotalKey(millis);
    if key in st.cache then
      Step(st.cache[key], st)
    else
      var computed := DayCompute(up, st, millis);
      Step(Number(computed.result), Write(computed.state, key, Number(computed.result)))
  }

  lemma BlocksByDateKeepsTotals(up: Provider, st: State, millis: int, other: int)
    ensures SameAt(st.cache, BlocksByDate(up, st, millis).state.cache, TotalKey(other))
  {
    NamespacesDisjoint("", "", millis, other);
  }

  lemma {:induction false} BlockCostsKeepTotals(up: Provider, st: State, blocks: seq<BlockRef>, other: int)
    ensures SameAt(st.cache, BlockCosts(up, st, blocks).state.cache, TotalKey(other))
    decreases |blocks|
  {
    if blocks != [] {
      var init := blocks[..|blocks| - 1];
      BlockCostsKeepTotals(up, st, init, other);
      NamespacesDisjoint(blocks[|blocks| - 1].hash, "", other, other);
    }
  }

  /** A day task touches no other day's total. */
  lemma DayTotalKeepsOtherDays(up: Provider, st: State, millis: int, other: int)
    requires other != millis
    ensures SameAt(st.cache, DayTotal(up, st, millis).state.cache, TotalKey(other))
  {
    if TotalKey(millis) !in st.cache {
      var day := BlocksByDate(up, st, millis);
      BlocksByDateKeepsTotals(up, st, millis, other);
      if day.result.Ok? && |day.result.value| > 0 {
        BlockCostsKeepTotals(up, day.state, day.result.value, other);
      }
      if TotalKey(millis) == TotalKey(other) {
        TotalKeyInjective(millis, other);
      }
    }
  }

  /** A day task leaves every cached total a number. */
  lemma DayTotalKeepsNumbers(up: Provider, st: State, millis: int)
    requires TotalsAreNumbers(st.cache)
    ensures TotalsAreNumbers(DayTotal(up, st, millis).state.cache)
  {
    forall other | TotalKey(other) in DayTotal(up, st, millis).state.cache
      ensures DayTotal(up, st, millis).state.cache[TotalKey(other)].Number?
    {
      if other != millis {
        DayTotalKeepsOtherDays(up, st, millis, other);
      }
    }
  }

  /** Task i of the resolver's loop: the day i days before `today`. */
  function DayTask(up: Provider, today: int): (State, nat) -> Step<CachedValue>
  {
    (st: State, i: nat) => DayTotal(up, st, DayMillis(today, i))
  }

  /** Tasks 0 to n - 1, each run on the state the earlier ones left, with
      their answers in task order. */
  function RunTasks<T>(task: (State, nat) -> Step<T>, st: State, n: nat): (r: Step<seq<T>>)
    ensures |r.result| == n
  {
    if n == 0 then Step([], st)
    else
      var prev := RunTasks(task, st, n - 1);
      var last := task(prev.state, n - 1);
      Step(prev.result + [last.result], last.state)
  }

  /** One more task appends its answer and hands on its state. */
  lemma RunTasksNext<T>(task: (State, nat) -> Step<T>, st: State, n: nat)
    ensures var prev := RunTasks(task, st, n);
            RunTasks(task, st, n + 1) == Step(prev.result + [task(prev.state, n).result], task(prev.state, n).state)
  {
  }

  lemma DayTaskRunsDayTotal(up: Provider, today: int, st: State, i: nat)
    ensures DayTask(up, today)(st, i) == DayTotal(up, st, DayMillis(today, i))
  {
  }

  /** The resolver's `for (i = 0; i < days; i++)`: no task when days <= 0. */
  function PerDay(up: Provider, st: State, today: int, days: int): Step<seq<CachedValue>>
  {
    RunTasks(DayTask(up, today), st, if days <= 0 then 0 else days)
  }

  // ---------------------------------------------------------------------
  // totalEnergyConsumptionByAddress

  function AddressTotal(up: Provider, st: State, address: string, now: int): Step<Result<real>>
  {
    var fetched := AddressTransactions(up, st, address, now);
    match fetched.result
    case Ok(txs) => Step(Ok(SumEnergy(txs)), fetched.state)
    case Err(e) => Step(Err(AddressTotalFailed(e)), fetched.state)
  }
}
