/** The result-selection helper of the integration tests. */
module TestUtils {
  import opened Wrappers
  import opened Bytes
  import opened Text

  /** One NFT entry of an indexing-API result. */
  datatype ResultVec = ResultVec(amount: string, tokenAddress: string, tokenHash: string, tokenId: string)

  datatype TransactionInfo = TransactionInfo(
    cursor: string,
    page: nat,
    pageSize: nat,
    result: seq<ResultVec>,
    status: string,
    total: nat)

  /** The entry returned when nothing is found: amount "0", every other field empty. */
  const DEFAULT_NFT: ResultVec := ResultVec("0", "", "", "")

  /** `iter().find`: the index of the first entry with the given token id. */
  function FindTokenId(entries: seq<ResultVec>, tokenId: string): (r: Option<nat>)
    ensures r.Some? ==> r.value < |entries| && entries[r.value].tokenId == tokenId
    ensures r.Some? ==> forall j :: 0 <= j < r.value ==> entries[j].tokenId != tokenId
    ensures r.None? ==> forall j :: 0 <= j < |entries| ==> entries[j].tokenId != tokenId
  {
    if entries == [] then None
    else if entries[0].tokenId == tokenId then Some(0)
    else
      match FindTokenId(entries[1..], tokenId)
      case None => None
      case Some(k) => Some(k + 1)
  }

  /**
   * `get_nft`: with an id, the first entry whose token id is the id's
   * decimal text, else the default; without one, the first entry, else
   * the default.
   */
  function GetNft(info: TransactionInfo, assetId: Option<u64>): (r: ResultVec)
    ensures r == DEFAULT_NFT || r in info.result
    ensures assetId.None? ==> r == (if |info.result| > 0 then info.result[0] else DEFAULT_NFT)
    ensures assetId.Some? && (forall j :: 0 <= j < |info.result| ==> info.result[j].tokenId != DecimalString(assetId.value))
      ==> r == DEFAULT_NFT
    ensures assetId.Some? && r != DEFAULT_NFT ==>
      exists k :: 0 <= k < |info.result| && r == info.result[k]
        && r.tokenId == DecimalString(assetId.value)
        && forall j :: 0 <= j < k ==> info.result[j].tokenId != DecimalString(assetId.value)
  {
    match assetId
    case Some(id) =>
      (match FindTokenId(info.result, DecimalString(id))
       case Some(k) => info.result[k]
       case None => DEFAULT_NFT)
    case None =>
      if |info.result| > 0 then info.result[0] else DEFAULT_NFT
  }

  /** A matching entry is never taken for the default, so with an id the result is found exactly when some entry matches. */
  lemma GetNftFindsMatch(info: TransactionInfo, id: u64)
    ensures (exists j :: 0 <= j < |info.result| && info.result[j].tokenId == DecimalString(id))
      <==> GetNft(info, Some(id)) != DEFAULT_NFT
    ensures GetNft(info, Some(id)) != DEFAULT_NFT ==> ParseDecimal(GetNft(info, Some(id)).tokenId) == Some(id)
  {
    var key := DecimalString(id);
    var found := FindTokenId(info.result, key);
    if found.Some? {
      assert info.result[found.value].tokenId == key != DEFAULT_NFT.tokenId;
    }
    ParseDecimalString(id);
  }
}
