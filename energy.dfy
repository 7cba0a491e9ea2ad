/** The energy model: a fixed cost per byte, applied to transactions and to
    whole blocks, and the sums the resolvers take. */
module Energy {

  /** Energy units charged per byte. */
  const ENERGY_COST_PER_BYTE: real := 4.56

  /** A transaction item as the upstream provider reports it. */
  datatype RawTx = RawTx(hash: string, size: int)

  /** A transaction as the query layer returns it. */
  datatype Tx = Tx(hash: string, energyCost: real)

  /** `calculateEnergyCost`: the cost is exactly 456/100 per byte, with no rounding. */
  function EnergyCost(size: int): (e: real)
    ensures 100.0 * e == (456 * size) as real
    ensures size >= 0 ==> e >= 0.0
  {
    size as real * ENERGY_COST_PER_BYTE
  }

  /** The cost of a combined size is the sum of the costs. */
  lemma EnergyCostAdditive(a: int, b: int)
    ensures EnergyCost(a + b) == EnergyCost(a) + EnergyCost(b)
  {
  }

  /** `tx.map(tx => ({hash, energyCost}))`: one priced transaction per raw one, in order. */
  function MapTxs(txs: seq<RawTx>): (r: seq<Tx>)
    ensures |r| == |txs|
    ensures forall k :: 0 <= k < |txs| ==> r[k] == Tx(txs[k].hash, EnergyCost(txs[k].size))
  {
    if txs == [] then []
    else MapTxs(txs[..|txs| - 1]) + [Tx(txs[|txs| - 1].hash, EnergyCost(txs[|txs| - 1].size))]
  }

  /** `reduce((sum, tx) => sum + tx.energyCost, 0)`, folded from the left. */
  function SumEnergy(txs: seq<Tx>): real
  {
    if txs == [] then 0.0 else SumEnergy(txs[..|txs| - 1]) + txs[|txs| - 1].energyCost
  }

  /** The total byte size of raw transactions. */
  function SumSizes(txs: seq<RawTx>): int
  {
    if txs == [] then 0 else SumSizes(txs[..|txs| - 1]) + txs[|txs| - 1].size
  }

  /** `reduce((total, c) => total + c, 0)` over plain numbers. */
  function SumReals(xs: seq<real>): real
  {
    if xs == [] then 0.0 else SumReals(xs[..|xs| - 1]) + xs[|xs| - 1]
  }

  lemma {:induction false} SumEnergyAppend(a: seq<Tx>, b: seq<Tx>)
    ensures SumEnergy(a + b) == SumEnergy(a) + SumEnergy(b)
    decreases |b|
  {
    if b == [] {
      assert a + b == a;
    } else {
      var b' := b[..|b| - 1];
      assert (a + b)[..|a + b| - 1] == a + b';
      SumEnergyAppend(a, b');
    }
  }

  /** Pricing every transaction and summing the prices is pricing the total size. */
  lemma {:induction false} MappedEnergy(txs: seq<RawTx>)
    ensures SumEnergy(MapTxs(txs)) == EnergyCost(SumSizes(txs))
    decreases |txs|
  {
    if txs != [] {
      var init := txs[..|txs| - 1];
      var m := MapTxs(init);
      var t := Tx(txs[|txs| - 1].hash, EnergyCost(txs[|txs| - 1].size));
      assert (m + [t])[..|m + [t]| - 1] == m;
      MappedEnergy(init);
      EnergyCostAdditive(SumSizes(init), txs[|txs| - 1].size);
    }
  }

  /** The end-to-end figure for a block with one 250-byte transaction. */
  lemma TransactionOf250Bytes()
    ensures MapTxs([RawTx("t", 250)]) == [Tx("t", 1140.0)]
  {
  }
}
