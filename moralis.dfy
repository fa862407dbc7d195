/**
 * The read-only indexing-API proxy: defaulting of the query options, the
 * request URL each endpoint builds, and the classification of the reply.
 * The HTTP client and `snailquote::unescape` are collaborators: the latter
 * is a parameter here.
 */
module Moralis {
  import opened Wrappers
  import opened Bytes
  import opened Text
  import opened Errors
  import Chain

  datatype QueryParams = QueryParams(
    chain: Option<string>,
    format: Option<string>,
    offset: Option<u64>,
    limit: Option<u64>)

  predicate AllPresent(p: QueryParams)
  {
    p.chain.Some? && p.format.Some? && p.offset.Some? && p.limit.Some?
  }

  /** `check_query_params`: keeps every supplied option and fills in the defaults for the rest. */
  function CheckQueryParams(p: QueryParams): (r: QueryParams)
    ensures AllPresent(r)
    ensures r.chain == (if p.chain.Some? then p.chain else Some("rinkeby"))
    ensures r.format == (if p.format.Some? then p.format else Some("decimal"))
    ensures r.offset == (if p.offset.Some? then p.offset else Some(0))
    ensures r.limit == (if p.limit.Some? then p.limit else Some(10))
  {
    QueryParams(
      match p.chain { case Some(c) => Some(c) case None => Some("rinkeby") },
      match p.format { case Some(f) => Some(f) case None => Some("decimal") },
      match p.offset { case Some(o) => Some(o) case None => Some(0) },
      match p.limit { case Some(l) => Some(l) case None => Some(10) })
  }

  /** Parameters are left alone exactly when every option is already present. */
  lemma CheckQueryParamsFixedPoints(p: QueryParams)
    ensures CheckQueryParams(p) == p <==> AllPresent(p)
  {
  }

  lemma CheckQueryParamsIdempotent(p: QueryParams)
    ensures CheckQueryParams(CheckQueryParams(p)) == CheckQueryParams(p)
  {
    CheckQueryParamsFixedPoints(CheckQueryParams(p));
  }

  /** One request to the indexing API, by endpoint. */
  datatype Request =
    | GetNfts(address: string)
    | GetContractNfts(address: string, tokenAddress: string)
    | GetNftTransfers(address: string)
    | GetNftTransfersByBlock(block: u64)
    | GetAllTokenIds(tokenAddress: string)
    | GetContractNftTransfers(tokenAddress: string)
    | GetNftMetadata(tokenAddress: string)
    | GetNftOwners(tokenAddress: string)
    | GetTokenIdMetadata(tokenAddress: string, id: u64)
    | GetTokenIdOwners(tokenAddress: string, id: u64)
    | GetTransaction(tx: string)

  /** The handlers unwrap `unescape`, so every field it is applied to must unescape. */
  predicate Unescapes(unescape: string -> Option<string>, q: Request)
  {
    match q
    case GetNfts(a) => unescape(a).Some?
    case GetContractNfts(a, t) => unescape(a).Some? && unescape(t).Some?
    case GetNftTransfers(a) => unescape(a).Some?
    case GetNftTransfersByBlock(_) => true
    case GetAllTokenIds(t) => unescape(t).Some?
    case GetContractNftTransfers(t) => unescape(t).Some?
    case GetNftMetadata(t) => unescape(t).Some?
    case GetNftOwners(t) => unescape(t).Some?
    case GetTokenIdMetadata(t, _) => unescape(t).Some?
    case GetTokenIdOwners(t, _) => unescape(t).Some?
    case GetTransaction(tx) => unescape(tx).Some?
  }

  /**
   * The path each handler appends to the configured base URL. A block
   * number or token id is written in decimal and can be read back from
   * its place in the path.
   */
  function Path(unescape: string -> Option<string>, q: Request): (p: string)
    requires Unescapes(unescape, q)
    ensures q.GetNftTransfersByBlock? ==> |p| >= 20 && ParseDecimal(p[6..|p| - 14]) == Some(q.block as nat)
    ensures q.GetTokenIdMetadata? ==>
      var n := 5 + |unescape(q.tokenAddress).value|;
      |p| > n && ParseDecimal(p[n..]) == Some(q.id as nat)
    ensures q.GetTokenIdOwners? ==>
      var n := 5 + |unescape(q.tokenAddress).value|;
      |p| >= n + 7 && ParseDecimal(p[n..|p| - 7]) == Some(q.id as nat)
  {
    match q
    case GetNfts(a) => unescape(a).value + "/nft"
    case GetContractNfts(a, t) => unescape(a).value + "/nft/" + unescape(t).value
    case GetNftTransfers(a) => "nft/" + unescape(a).value + "/transfers"
    case GetNftTransfersByBlock(b) =>
      var p := "block/" + DecimalString(b) + "/nft/transfers";
      assert p[6..|p| - 14] == DecimalString(b);
      ParseDecimalString(b);
      p
    case GetAllTokenIds(t) => "nft/" + unescape(t).value
    case GetContractNftTransfers(t) => "nft/" + unescape(t).value + "/transfers"
    case GetNftMetadata(t) => "nft/" + unescape(t).value + "/metadata"
    case GetNftOwners(t) => "nft/" + unescape(t).value + "/owners"
    case GetTokenIdMetadata(t, id) =>
      var p := "nft/" + unescape(t).value + "/" + DecimalString(id);
      assert p[5 + |unescape(t).value|..] == DecimalString(id);
      ParseDecimalString(id);
      p
    case GetTokenIdOwners(t, id) =>
      var p := "nft/" + unescape(t).value + "/" + DecimalString(id) + "/owners";
      assert p[5 + |unescape(t).value|..|p| - 7] == DecimalString(id);
      ParseDecimalString(id);
      p
    case GetTransaction(tx) => "transaction/" + unescape(tx).value
  }

  /** The request URL: the base URL followed by the endpoint's path, by plain concatenation. */
  function Url(config: Chain.Config, unescape: string -> Option<string>, q: Request): (url: string)
    requires Unescapes(unescape, q)
    ensures var base := config.moralisBaseUrl;
      |base| <= |url| && url[..|base|] == base && url[|base|..] == Path(unescape, q)
  {
    config.moralisBaseUrl + Path(unescape, q)
  }

  /** The block URL names the block in decimal: distinct blocks give distinct URLs. */
  lemma BlockUrlIdentifiesBlock(config: Chain.Config, unescape: string -> Option<string>, b1: u64, b2: u64)
    ensures Url(config, unescape, GetNftTransfersByBlock(b1)) == Url(config, unescape, GetNftTransfersByBlock(b2))
      <==> b1 == b2
  {
    var u1, u2 := Url(config, unescape, GetNftTransfersByBlock(b1)), Url(config, unescape, GetNftTransfersByBlock(b2));
    if u1 == u2 {
      assert Path(unescape, GetNftTransfersByBlock(b1)) == Path(unescape, GetNftTransfersByBlock(b2));
    }
  }

  /** For one token, the token-id-owners URL names the id in decimal: distinct ids give distinct URLs. */
  lemma TokenIdOwnersUrlIdentifiesId(config: Chain.Config, unescape: string -> Option<string>, token: string, id1: u64, id2: u64)
    requires unescape(token).Some?
    ensures Url(config, unescape, GetTokenIdOwners(token, id1)) == Url(config, unescape, GetTokenIdOwners(token, id2))
      <==> id1 == id2
  {
    var u1, u2 := Url(config, unescape, GetTokenIdOwners(token, id1)), Url(config, unescape, GetTokenIdOwners(token, id2));
    if u1 == u2 {
      assert Path(unescape, GetTokenIdOwners(token, id1)) == Path(unescape, GetTokenIdOwners(token, id2));
    }
  }

  /** An HTTP reply: its status and its body. */
  datatype HttpReply = HttpReply(status: nat, body: string)

  /**
   * The outcome classification of `moralis_call`: the body is returned only
   * for status 200; any other status, or a failed send, is `MoralisError`.
   */
  function MoralisResult(response: Option<HttpReply>): (r: Result<string, ApiError>)
    ensures r.Success? <==> response.Some? && response.value.status == 200
    ensures r.Success? ==> r.value == response.value.body
    ensures r.Failure? ==> r.error == MoralisError
  {
    match response
    case None => Failure(MoralisError)
    case Some(reply) => if reply.status == 200 then Success(reply.body) else Failure(MoralisError)
  }
}
