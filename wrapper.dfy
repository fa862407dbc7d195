/**
 * The wrapper-factory side: wrap and batch wrap (asset transfers whose
 * recipient is the factory), unwrap and the read-only getWrapped1155.
 */
module Wrapper {
  import opened Wrappers
  import opened Bytes
  import opened Chain
  import opened Errors
  import opened Asset
  import Text

  datatype Wrap1155 = Wrap1155(from: string, amount: u64, id: u64, data: AssetData)

  datatype BatchWrap1155 = BatchWrap1155(from: string, amounts: seq<u64>, ids: seq<u64>, data: seq<AssetData>)

  datatype GetWrapped1155 = GetWrapped1155(id: u64, data: AssetData)

  datatype Unwrap1155 = Unwrap1155(id: u64, amount: u64, recipientAddress: string, data: AssetData)

  /** The transfer a wrap performs: the same fields, sent to the factory. */
  function WrapTransfer(token: Wrap1155, factory: Address): (t: AssetTransfer)
    ensures t.from == token.from && t.amount == token.amount && t.id == token.id && t.data == token.data
    ensures t.to == FormatAddress(factory) && ParseH160(t.to) == Some(factory)
  {
    AddressRoundTrip(factory);
    AssetTransfer(token.from, FormatAddress(factory), token.amount, token.id, token.data)
  }

  /** The batch transfer a batch wrap performs: the same lists, in order, sent to the factory. */
  function BatchWrapTransfer(token: BatchWrap1155, factory: Address): (t: AssetBatchTransfer)
    ensures t.from == token.from && t.amounts == token.amounts && t.ids == token.ids && t.data == token.data
    ensures t.to == FormatAddress(factory) && ParseH160(t.to) == Some(factory)
  {
    AddressRoundTrip(factory);
    AssetBatchTransfer(token.from, FormatAddress(factory), token.amounts, token.ids, token.data)
  }

  /**
   * `wrapper_wrap`: resolves the factory first, then performs the asset
   * transfer flow with the factory's address as the recipient.
   */
  method WrapperWrap(config: Config, env: Env, token: Wrap1155) returns (r: Result<MethodCall, ApiError>)
    requires ParseH160(token.from).Some?
    ensures !env.transportOk ==> r == Failure(TransportError)
    ensures env.transportOk && env.factory.Failure? ==> r == Failure(ContractError(env.factory.error))
    ensures env.transportOk && env.factory.Success? && env.asset.Failure? ==>
      r == Failure(ContractError(env.asset.error))
    ensures env.transportOk && env.factory.Success? && env.asset.Success? ==> r == Success(MethodCall(
      SugarFungeAsset, env.asset.value, "safeTransferFrom",
      [ AddressArg(ParseH160(token.from).value), AddressArg(env.factory.value),
        UintArg(token.id), UintArg(token.amount),
        BytesArg(GetAssetData(token.data.name, token.data.symbol, token.data.decimals)) ],
      Some(SignerAccount(config)), Transaction))
  {
    var web3 :- GetWeb3(config, env);
    var deployed := Deployed(web3, env, Wrapped1155Factory);
    if deployed.Failure? {
      return Failure(FromDeployError(deployed.error));
    }
    var factoryContract := deployed.value;
    var transfer := WrapTransfer(token, factoryContract.address);
    r := AssetTransferNft(config, env, transfer);
  }

  /**
   * `wrapper_batch_wrap`: resolves the factory first, then performs the
   * batch transfer flow with the factory's address as the recipient.
   */
  method WrapperBatchWrap(config: Config, env: Env, token: BatchWrap1155) returns (r: Result<MethodCall, ApiError>)
    requires ParseH160(token.from).Some?
    ensures !env.transportOk ==> r == Failure(TransportError)
    ensures env.transportOk && env.factory.Failure? ==> r == Failure(ContractError(env.factory.error))
    ensures env.transportOk && env.factory.Success? && env.asset.Failure? ==>
      r == Failure(ContractError(env.asset.error))
    ensures env.transportOk && env.factory.Success? && env.asset.Success? ==> r == Success(MethodCall(
      SugarFungeAsset, env.asset.value, "safeBatchTransferFrom",
      [ AddressArg(ParseH160(token.from).value), AddressArg(env.factory.value),
        UintsArg(token.ids), UintsArg(token.amounts),
        BytesArg(Abi.Encode(TokensOf(token.data))) ],
      Some(SignerAccount(config)), Transaction))
  {
    var web3 :- GetWeb3(config, env);
    var deployed := Deployed(web3, env, Wrapped1155Factory);
    if deployed.Failure? {
      return Failure(FromDeployError(deployed.error));
    }
    var factoryContract := deployed.value;
    var transfer := BatchWrapTransfer(token, factoryContract.address);
    r := AssetBatchTransferNft(config, env, transfer);
  }

  /**
   * `wrapper_unwrap` up to `.send()`: transport, the factory, the signer as
   * sender, then the asset contract, whose address is formatted, parsed
   * back and passed as the first argument of `unwrap` on the factory.
   */
  method WrapperUnwrap(config: Config, env: Env, unwrap: Unwrap1155) returns (r: Result<MethodCall, ApiError>)
    requires ParseH160(unwrap.recipientAddress).Some?
    ensures !env.transportOk ==> r == Failure(TransportError)
    ensures env.transportOk && env.factory.Failure? ==> r == Failure(ContractError(env.factory.error))
    ensures env.transportOk && env.factory.Success? && env.asset.Failure? ==>
      r == Failure(ContractError(env.asset.error))
    ensures env.transportOk && env.factory.Success? && env.asset.Success? ==> r == Success(MethodCall(
      Wrapped1155Factory, env.factory.value, "unwrap",
      [ AddressArg(env.asset.value), UintArg(unwrap.id), UintArg(unwrap.amount),
        AddressArg(ParseH160(unwrap.recipientAddress).value),
        BytesArg(GetAssetData(unwrap.data.name, unwrap.data.symbol, unwrap.data.decimals)) ],
      Some(SignerAccount(config)), Transaction))
  {
    var account := SignerAccount(config);
    var web3 :- GetWeb3(config, env);
    var deployed := Deployed(web3, env, Wrapped1155Factory);
    if deployed.Failure? {
      return Failure(FromDeployError(deployed.error));
    }
    var contract := deployed.value;
    contract.defaultFrom := Some(account);
    var assetDeployed := Deployed(web3, env, SugarFungeAsset);
    if assetDeployed.Failure? {
      return Failure(FromDeployError(assetDeployed.error));
    }
    var sugarfunge := assetDeployed.value;
    AddressRoundTrip(sugarfunge.address);
    var assetAddress := ParseH160(FormatAddress(sugarfunge.address)).value;
    var args := [
      AddressArg(assetAddress), UintArg(unwrap.id), UintArg(unwrap.amount),
      AddressArg(ParseH160(unwrap.recipientAddress).value),
      BytesArg(GetAssetData(unwrap.data.name, unwrap.data.symbol, unwrap.data.decimals))];
    r := Success(contract.Method("unwrap", args, Transaction));
  }

  /**
   * `wrapper_get_wrapped` up to `.call()`: the same resolution steps as
   * unwrap (the signer is set as sender here too), then a read-only
   * `getWrapped1155(assetAddress, id, data)` on the factory.
   */
  method WrapperGetWrapped(config: Config, env: Env, wrapped: GetWrapped1155) returns (r: Result<MethodCall, ApiError>)
    ensures !env.transportOk ==> r == Failure(TransportError)
    ensures env.transportOk && env.factory.Failure? ==> r == Failure(ContractError(env.factory.error))
    ensures env.transportOk && env.factory.Success? && env.asset.Failure? ==>
      r == Failure(ContractError(env.asset.error))
    ensures env.transportOk && env.factory.Success? && env.asset.Success? ==> r == Success(MethodCall(
      Wrapped1155Factory, env.factory.value, "getWrapped1155",
      [ AddressArg(env.asset.value), UintArg(wrapped.id),
        BytesArg(GetAssetData(wrapped.data.name, wrapped.data.symbol, wrapped.data.decimals)) ],
      Some(SignerAccount(config)), ReadOnly))
  {
    var account := SignerAccount(config);
    var web3 :- GetWeb3(config, env);
    var deployed := Deployed(web3, env, Wrapped1155Factory);
    if deployed.Failure? {
      return Failure(FromDeployError(deployed.error));
    }
    var contract := deployed.value;
    contract.defaultFrom := Some(account);
    var assetDeployed := Deployed(web3, env, SugarFungeAsset);
    if assetDeployed.Failure? {
      return Failure(FromDeployError(assetDeployed.error));
    }
    var sugarfunge := assetDeployed.value;
    AddressRoundTrip(sugarfunge.address);
    var assetAddress := ParseH160(FormatAddress(sugarfunge.address)).value;
    var args := [
      AddressArg(assetAddress), UintArg(wrapped.id),
      BytesArg(GetAssetData(wrapped.data.name, wrapped.data.symbol, wrapped.data.decimals))];
    r := Success(contract.Method("getWrapped1155", args, ReadOnly));
  }

  /** The unwrap success body: the hash as text, the receipt's `to` and `from`, the hash. */
  datatype UnwrapBody = UnwrapBody(tx: string, to: Option<Address>, from: Address, hash: H256)

  /**
   * What unwrap answers once `.send()` returns. The source unwraps the
   * receipt, so a successful send must carry one.
   */
  function UnwrapResponse(sent: Result<TransactionResult, Chain.MethodError>): (r: Result<UnwrapBody, ApiError>)
    requires sent.Success? ==> sent.value.Receipt?
    ensures sent.Failure? ==> r == Failure(FromMethodError(sent.error))
    ensures sent.Success? ==> r.Success? && r.value.hash == sent.value.receipt.transactionHash
    ensures sent.Success? ==> |r.value.tx| == 66 && r.value.tx[..2] == "0x" && Text.IsLowerHex(r.value.tx[2..])
    ensures sent.Success? ==> ParseH256(r.value.tx) == Some(r.value.hash)
    ensures sent.Success? ==> r.value.to == sent.value.receipt.to && r.value.from == sent.value.receipt.from
  {
    match sent
    case Failure(e) => Failure(FromMethodError(e))
    case Success(result) =>
      var receipt := result.receipt;
      HashRoundTrip(result.TxHash());
      Success(UnwrapBody(Text.FormatFixedHash(result.TxHash()), receipt.to, receipt.from, result.TxHash()))
  }

  /** What get-wrapped answers once `.call()` returns: `{"tx": "0x" + hex of the returned address}`. */
  function GetWrappedResponse(called: Result<Address, Chain.MethodError>): (r: Result<TxBody, ApiError>)
    ensures called.Failure? ==> r == Failure(FromMethodError(called.error))
    ensures called.Success? ==> r.Success? && |r.value.tx| == 42 && r.value.tx[..2] == "0x"
    ensures called.Success? ==> Text.IsLowerHex(r.value.tx[2..])
    ensures called.Success? ==> ParseH160(r.value.tx) == Some(called.value)
  {
    match called
    case Failure(e) => Failure(FromMethodError(e))
    case Success(address) =>
      AddressRoundTrip(address);
      Success(TxBody(FormatAddress(address)))
  }
}
