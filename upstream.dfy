/** The upstream blockchain data provider, as an oracle: each endpoint is a
    total function from its parameters to a payload or a failure. */
module Upstream {
  import opened Results
  import opened Energy

  /** An element of the by-date listing. */
  datatype BlockRef = BlockRef(hash: string)

  /** The `rawblock` payload, restricted to the fields the core reads;
      `size` may be absent. */
  datatype RawBlock = RawBlock(hash: string, height: int, time: int, size: Option<int>, tx: seq<RawTx>)

  /** The `rawaddr` payload: the address's total transaction count and one page. */
  datatype AddressPage = AddressPage(nTx: int, txs: seq<RawTx>)

  /** The by-date payload: an array of block references or something else. */
  datatype DatePayload = BlockArray(blocks: seq<BlockRef>) | NotAnArray

  /** One upstream GET, by endpoint and parameters. */
  datatype Request =
    | RawBlockRequest(hash: string)
    | RawAddrRequest(address: string, offset: int, limit: int)
    | BlocksForDateRequest(millis: int)

  datatype Provider = Provider(
    rawBlock: string -> Result<RawBlock>,
    rawAddr: (string, int, int) -> Result<AddressPage>,
    blocksForDate: int -> Result<DatePayload>)
}
