/**
 * The asset contract side: the asset-metadata encoder and the mint,
 * transfer and batch-transfer flows, each up to the call descriptor it
 * hands to `.send()`, and the response built from what `.send()` returns.
 */
module Asset {
  import opened Wrappers
  import opened Bytes
  import Abi
  import opened Chain
  import opened Errors
  import Text

  /** The per-asset metadata; strings are held as their UTF-8 bytes. */
  datatype AssetData = AssetData(name: Abi.Str, symbol: Abi.Str, decimals: u64)

  datatype AssetMint = AssetMint(account: string, amount: u64, id: u64, data: AssetData)

  datatype AssetTransfer = AssetTransfer(from: string, to: string, amount: u64, id: u64, data: AssetData)

  datatype AssetBatchTransfer = AssetBatchTransfer(
    from: string,
    to: string,
    amounts: seq<u64>,
    ids: seq<u64>,
    data: seq<AssetData>)

  const INFURA_URL_PREFIX: string := "https://ropsten.infura.io/v3/"

  /** `get_web3`: an HTTP transport to the project's Infura endpoint. */
  function GetWeb3(config: Config, env: Env): (r: Result<Web3, ApiError>)
    ensures r.Success? <==> env.transportOk
    ensures r.Success? ==> r.value.url == INFURA_URL_PREFIX + config.projectId
    ensures r.Failure? ==> r.error == TransportError
  {
    var url := INFURA_URL_PREFIX + config.projectId;
    if env.transportOk then Success(Web3(url)) else Failure(TransportError)
  }

  // ---------------------------------------------------------------------
  // Metadata encoding

  /** The tuple token pushed for one asset (decimals widened to U256). */
  function TokenOf(d: AssetData): Abi.Token
  {
    Abi.Tuple(d.name, d.symbol, d.decimals)
  }

  function TokensOf(data: seq<AssetData>): seq<Abi.Token>
  {
    seq(|data|, i requires 0 <= i < |data| => TokenOf(data[i]))
  }

  /** `get_asset_data`: the ABI encoding of one (name, symbol, decimals) tuple as the single parameter. */
  function GetAssetData(name: Abi.Str, symbol: Abi.Str, decimals: u64): (r: seq<byte>)
    ensures r == Abi.Word(32) + Abi.EncodeTuple(Abi.Tuple(name, symbol, decimals))
  {
    Abi.EncodeSingle(Abi.Tuple(name, symbol, decimals));
    Abi.Encode([Abi.Tuple(name, symbol, decimals)])
  }

  /**
   * `get_batch_asset_data`: pushes one tuple token per asset, in order, and
   * encodes them as that many top-level parameters.
   */
  method GetBatchAssetData(data: seq<AssetData>) returns (r: seq<byte>)
    ensures r == Abi.Encode(TokensOf(data))
    ensures |r| == 32 * |data| + |Abi.Tails(TokensOf(data))|
    ensures |data| < Abi.LEN_BOUND ==> Abi.Decode(r, |data|) == Some(TokensOf(data))
  {
    var tokens: seq<Abi.Token> := [];
    for i := 0 to |data|
      invariant tokens == TokensOf(data[..i])
    {
      tokens := tokens + [TokenOf(data[i])];
    }
    assert data[..|data|] == data;
    r := Abi.Encode(tokens);
    if |data| < Abi.LEN_BOUND {
      Abi.DecodeEncode(tokens);
    }
  }

  /**
   * The byte layout of `get_asset_data`: the offset 0x20 of the tuple; the
   * tuple's heads (offset of the name 0x60, offset of the symbol, decimals);
   * then each string as its length word and its bytes padded to 32.
   */
  lemma GetAssetDataLayout(name: Abi.Str, symbol: Abi.Str, decimals: u64)
    ensures GetAssetData(name, symbol, decimals) ==
      Abi.Word(32) + Abi.Word(96) + Abi.Word(128 + Abi.Ceil32(|name|)) + Abi.Word(decimals)
      + Abi.Word(|name|) + Abi.PadRight(name) + Abi.Word(|symbol|) + Abi.PadRight(symbol)
    ensures |GetAssetData(name, symbol, decimals)|
      == 32 + 96 + (32 + Abi.Ceil32(|name|)) + (32 + Abi.Ceil32(|symbol|))
    ensures |GetAssetData(name, symbol, decimals)| % 32 == 0
  {
    var nameOffset := Abi.Word(128 + Abi.Ceil32(|name|));
    assert Abi.Word(96 + |Abi.EncodeString(name)|) == nameOffset;
    Regroup(Abi.Word(32), Abi.Word(96), nameOffset, Abi.Word(decimals),
      Abi.Word(|name|), Abi.PadRight(name), Abi.Word(|symbol|), Abi.PadRight(symbol));
    Abi.EncodeWords([Abi.Tuple(name, symbol, decimals)]);
  }

  /** The offset word followed by a tuple whose strings are grouped, written flat. */
  lemma Regroup(a: seq<byte>, b: seq<byte>, c: seq<byte>, d: seq<byte>,
                e: seq<byte>, f: seq<byte>, g: seq<byte>, h: seq<byte>)
    ensures a + (b + c + d + (e + f) + (g + h)) == a + b + c + d + e + f + g + h
  {
  }

  /** The decimals word is the big-endian value of a u64: its first 24 bytes are zero. */
  lemma DecimalsWord(name: Abi.Str, symbol: Abi.Str, decimals: u64)
    ensures GetAssetData(name, symbol, decimals)[96..128] == Abi.Word(decimals)
    ensures forall i :: 96 <= i < 120 ==> GetAssetData(name, symbol, decimals)[i] == 0
    ensures ValueOf(GetAssetData(name, symbol, decimals)[96..128]) == decimals
  {
    GetAssetDataLayout(name, symbol, decimals);
    var r := GetAssetData(name, symbol, decimals);
    assert r[96..128] == Abi.Word(decimals);
    assert Pow256(8) == 0x1_0000_0000_0000_0000;
    LeadingZeros(decimals, 32, 8);
    WordBoundIsPow256();
    ValueOfBigEndian(decimals, 32);
  }

  /** Empty strings are legal: each encodes as a zero length word and no data. */
  lemma EmptyStrings(decimals: u64)
    ensures GetAssetData([], [], decimals)
      == Abi.Word(32) + Abi.Word(96) + Abi.Word(128) + Abi.Word(decimals) + Abi.Word(0) + Abi.Word(0)
  {
    GetAssetDataLayout([], [], decimals);
  }

  /** The encoding is lossless: decoding one tuple parameter gives back the three fields. */
  lemma GetAssetDataRoundTrip(name: Abi.Str, symbol: Abi.Str, decimals: u64)
    ensures Abi.Decode(GetAssetData(name, symbol, decimals), 1) == Some([Abi.Tuple(name, symbol, decimals)])
  {
    Abi.DecodeEncode([Abi.Tuple(name, symbol, decimals)]);
  }

  /** Distinct metadata gives distinct payloads. */
  lemma GetAssetDataInjective(a: AssetData, b: AssetData)
    ensures GetAssetData(a.name, a.symbol, a.decimals) == GetAssetData(b.name, b.symbol, b.decimals) <==> a == b
  {
    Abi.EncodeInjective([TokenOf(a)], [TokenOf(b)]);
  }

  /** No assets encode to nothing, and one asset encodes exactly as `get_asset_data`. */
  lemma BatchOfNoneOrOne(d: AssetData)
    ensures Abi.Encode(TokensOf([])) == []
    ensures Abi.Encode(TokensOf([d])) == GetAssetData(d.name, d.symbol, d.decimals)
  {
    assert TokensOf([d]) == [TokenOf(d)];
  }

  /** Distinct numbers below 2^256 have distinct words. */
  lemma WordsDiffer(m: nat, n: nat)
    requires m < WORD_BOUND && n < WORD_BOUND && m != n
    ensures Abi.Word(m) != Abi.Word(n)
  {
    WordBoundIsPow256();
    ValueOfBigEndian(m, 32);
    ValueOfBigEndian(n, 32);
  }

  /** The single-asset encodings laid end to end. */
  function Concatenated(data: seq<AssetData>): seq<byte>
  {
    if data == [] then [] else GetAssetData(data[0].name, data[0].symbol, data[0].decimals) + Concatenated(data[1..])
  }

  lemma ConcatenatedFirstWord(data: seq<AssetData>)
    requires |data| > 0
    ensures |Concatenated(data)| >= 32 && Concatenated(data)[..32] == Abi.Word(32)
  {
    var d := data[0];
    var single := GetAssetData(d.name, d.symbol, d.decimals);
    assert Concatenated(data) == single + Concatenated(data[1..]);
    Abi.FirstWord([TokenOf(d)]);
  }

  /**
   * With two or more assets the batch encoding is not the concatenation of
   * the single encodings: its first word is the offset 32 * n, not 0x20.
   */
  lemma BatchIsNotConcatenation(data: seq<AssetData>)
    requires 2 <= |data| < Abi.LEN_BOUND
    ensures Abi.Encode(TokensOf(data)) != Concatenated(data)
  {
    var tokens := TokensOf(data);
    assert |tokens| == |data|;
    Abi.FirstWord(tokens);
    ConcatenatedFirstWord(data);
    WordsDiffer(32 * |data|, 32);
  }

  // ---------------------------------------------------------------------
  // Flows

  /**
   * `asset_mint_nft` up to `.send()`: transport, then the asset contract,
   * then the signer as sender, then `mint(account, id, amount, data)`.
   */
  method AssetMintNft(config: Config, env: Env, mint: AssetMint) returns (r: Result<MethodCall, ApiError>)
    requires ParseH160(mint.account).Some?
    ensures !env.transportOk ==> r == Failure(TransportError)
    ensures env.transportOk && env.asset.Failure? ==> r == Failure(ContractError(env.asset.error))
    ensures env.transportOk && env.asset.Success? ==> r == Success(MethodCall(
      SugarFungeAsset, env.asset.value, "mint",
      [ AddressArg(ParseH160(mint.account).value), UintArg(mint.id), UintArg(mint.amount),
        BytesArg(GetAssetData(mint.data.name, mint.data.symbol, mint.data.decimals)) ],
      Some(SignerAccount(config)), Transaction))
  {
    var account := SignerAccount(config);
    var web3 :- GetWeb3(config, env);
    var deployed := Deployed(web3, env, SugarFungeAsset);
    if deployed.Failure? {
      return Failure(FromDeployError(deployed.error));
    }
    var contract := deployed.value;
    contract.defaultFrom := Some(account);
    var data := GetAssetData(mint.data.name, mint.data.symbol, mint.data.decimals);
    var args := [AddressArg(ParseH160(mint.account).value), UintArg(mint.id), UintArg(mint.amount), BytesArg(data)];
    r := Success(contract.Method("mint", args, Transaction));
  }

  /** `asset_transfer_nft` up to `.send()`: `safeTransferFrom(from, to, id, amount, data)`. */
  method AssetTransferNft(config: Config, env: Env, transfer: AssetTransfer) returns (r: Result<MethodCall, ApiError>)
    requires ParseH160(transfer.from).Some? && ParseH160(transfer.to).Some?
    ensures !env.transportOk ==> r == Failure(TransportError)
    ensures env.transportOk && env.asset.Failure? ==> r == Failure(ContractError(env.asset.error))
    ensures env.transportOk && env.asset.Success? ==> r == Success(MethodCall(
      SugarFungeAsset, env.asset.value, "safeTransferFrom",
      [ AddressArg(ParseH160(transfer.from).value), AddressArg(ParseH160(transfer.to).value),
        UintArg(transfer.id), UintArg(transfer.amount),
        BytesArg(GetAssetData(transfer.data.name, transfer.data.symbol, transfer.data.decimals)) ],
      Some(SignerAccount(config)), Transaction))
  {
    var account := SignerAccount(config);
    var web3 :- GetWeb3(config, env);
    var deployed := Deployed(web3, env, SugarFungeAsset);
    if deployed.Failure? {
      return Failure(FromDeployError(deployed.error));
    }
    var contract := deployed.value;
    contract.defaultFrom := Some(account);
    var data := GetAssetData(transfer.data.name, transfer.data.symbol, transfer.data.decimals);
    var args := [
      AddressArg(ParseH160(transfer.from).value), AddressArg(ParseH160(transfer.to).value),
      UintArg(transfer.id), UintArg(transfer.amount), BytesArg(data)];
    r := Success(contract.Method("safeTransferFrom", args, Transaction));
  }

  /**
   * `asset_batch_transfer_nft` up to `.send()`:
   * `safeBatchTransferFrom(from, to, ids, amounts, batch data)`, with the
   * id and amount lists passed element by element in order. The lengths of
   * ids, amounts and data are not compared.
   */
  method AssetBatchTransferNft(config: Config, env: Env, transfer: AssetBatchTransfer)
    returns (r: Result<MethodCall, ApiError>)
    requires ParseH160(transfer.from).Some? && ParseH160(transfer.to).Some?
    ensures !env.transportOk ==> r == Failure(TransportError)
    ensures env.transportOk && env.asset.Failure? ==> r == Failure(ContractError(env.asset.error))
    ensures env.transportOk && env.asset.Success? ==> r == Success(MethodCall(
      SugarFungeAsset, env.asset.value, "safeBatchTransferFrom",
      [ AddressArg(ParseH160(transfer.from).value), AddressArg(ParseH160(transfer.to).value),
        UintsArg(transfer.ids), UintsArg(transfer.amounts),
        BytesArg(Abi.Encode(TokensOf(transfer.data))) ],
      Some(SignerAccount(config)), Transaction))
  {
    var account := SignerAccount(config);
    var web3 :- GetWeb3(config, env);
    var deployed := Deployed(web3, env, SugarFungeAsset);
    if deployed.Failure? {
      return Failure(FromDeployError(deployed.error));
    }
    var contract := deployed.value;
    contract.defaultFrom := Some(account);
    var ids: seq<nat> := seq(|transfer.ids|, i requires 0 <= i < |transfer.ids| => transfer.ids[i]);
    var amounts: seq<nat> := seq(|transfer.amounts|, i requires 0 <= i < |transfer.amounts| => transfer.amounts[i]);
    assert ids == transfer.ids && amounts == transfer.amounts;
    var data := GetBatchAssetData(transfer.data);
    var args := [
      AddressArg(ParseH160(transfer.from).value), AddressArg(ParseH160(transfer.to).value),
      UintsArg(ids), UintsArg(amounts), BytesArg(data)];
    r := Success(contract.Method("safeBatchTransferFrom", args, Transaction));
  }

  /** The success body `{"tx": "0x" + lowercase hex of the hash}`. */
  datatype TxBody = TxBody(tx: string)

  /**
   * What a transaction flow answers once `.send()` returns: a rejected call
   * is a `MethodError`; otherwise the body holds the transaction hash.
   */
  function SendResponse(sent: Result<TransactionResult, Chain.MethodError>): (r: Result<TxBody, ApiError>)
    ensures sent.Failure? ==> r == Failure(FromMethodError(sent.error))
    ensures sent.Success? ==> r.Success? && |r.value.tx| == 66 && r.value.tx[..2] == "0x"
    ensures sent.Success? ==> Text.IsLowerHex(r.value.tx[2..])
    ensures sent.Success? ==> ParseH256(r.value.tx) == Some(sent.value.TxHash())
  {
    match sent
    case Failure(e) => Failure(FromMethodError(e))
    case Success(result) =>
      var tx := Text.FormatFixedHash(result.TxHash());
      HashRoundTrip(result.TxHash());
      assert tx[..2] == "0x";
      Success(TxBody(tx))
  }
}
