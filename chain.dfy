/**
 * The chain-facing collaborators of the service, as abstract values: the
 * configured signer, the transport, the deployment directory of the two
 * contracts, contract handles and the call descriptors they build.
 * Network round trips are not modelled; what they return is an input.
 */
module Chain {
  import opened Wrappers
  import opened Bytes
  import Text

  /** An `H160` account or contract address. */
  type Address = a: seq<byte> | |a| == 20 witness Zeros(20)

  /** An `H256` transaction hash. */
  type H256 = h: seq<byte> | |h| == 32 witness Zeros(32)

  type PrivateKey = seq<byte>

  /**
   * `H160::from_str`: an optional "0x", then exactly 40 hex digits of either
   * case, with spaces, tabs and line breaks among them skipped.
   */
  function ParseH160(s: string): (r: Option<Address>)
    ensures var digits := Text.HexDigitsOf(Text.StripHexPrefix(s));
      r.Some? <==> |digits| == 40 && Text.AllHexDigits(digits)
  {
    var bytes :- Text.ParseFixedHash(s, 20);
    Some(bytes)
  }

  /** `H256::from_str`: as `H160::from_str`, with 64 hex digits. */
  function ParseH256(s: string): (r: Option<H256>)
    ensures var digits := Text.HexDigitsOf(Text.StripHexPrefix(s));
      r.Some? <==> |digits| == 64 && Text.AllHexDigits(digits)
  {
    var bytes :- Text.ParseFixedHash(s, 32);
    Some(bytes)
  }

  /** `format!("0x{:x}", address)`. */
  function FormatAddress(a: Address): (s: string)
    ensures |s| == 42 && s[..2] == "0x" && Text.IsLowerHex(s[2..])
  {
    Text.FormatFixedHash(a)
  }

  /** An address formatted with `"0x{:x}"` and read back with `H160::from_str` is unchanged. */
  lemma AddressRoundTrip(a: Address)
    ensures |FormatAddress(a)| == 42 && FormatAddress(a)[..2] == "0x"
    ensures ParseH160(FormatAddress(a)) == Some(a)
  {
    Text.FormatThenParse(a);
  }

  /** A hash formatted with `"0x{:x}"` and read back with `H256::from_str` is unchanged. */
  lemma HashRoundTrip(h: H256)
    ensures |Text.FormatFixedHash(h)| == 66
    ensures ParseH256(Text.FormatFixedHash(h)) == Some(h)
  {
    Text.FormatThenParse(h);
  }

  /** `Account::Offline(key, chain id)`: signs locally with the key, tagging the chain id. */
  datatype Account = Offline(key: PrivateKey, chainId: Option<u64>)

  /** The read-only process configuration (only the fields the core reads). */
  datatype Config = Config(
    projectId: string,
    signerPrivateKey: PrivateKey,
    chainId: u64,
    moralisBaseUrl: string)

  /** The account every flow signs with: the configured key and chain id. */
  function SignerAccount(config: Config): Account
  {
    Offline(config.signerPrivateKey, Some(config.chainId))
  }

  datatype ContractName = SugarFungeAsset | Wrapped1155Factory

  /** `ethcontract::errors::DeployError`, known only by its text. */
  datatype DeployError = DeployError(text: string)

  /** `ethcontract::errors::MethodError`, known only by its text. */
  datatype MethodError = MethodError(text: string)

  /** A `Web3<Http>` transport to the given endpoint. */
  datatype Web3 = Web3(url: string)

  /**
   * What the world answers: whether the HTTP transport can be built, and
   * the deployment record (or the lookup failure) of each contract.
   */
  datatype Env = Env(
    transportOk: bool,
    asset: Result<Address, DeployError>,
    factory: Result<Address, DeployError>)

  function Lookup(env: Env, contract: ContractName): Result<Address, DeployError>
  {
    match contract
    case SugarFungeAsset => env.asset
    case Wrapped1155Factory => env.factory
  }

  /** An argument of a contract method, after conversion to its ABI type. */
  datatype Arg =
    | AddressArg(address: Address)
    | UintArg(value: nat)
    | UintsArg(values: seq<nat>)
    | BytesArg(bytes: seq<byte>)

  /** `.send()` submits a signed transaction; `.call()` evaluates without one. */
  datatype Mode = Transaction | ReadOnly

  /** A built, unsent contract invocation. */
  datatype MethodCall = MethodCall(
    contract: ContractName,
    target: Address,
    name: string,
    args: seq<Arg>,
    from: Option<Account>,
    mode: Mode)

  /** A deployed contract handle; its transaction defaults are mutable. */
  class Instance {
    const contract: ContractName
    const address: Address
    var defaultFrom: Option<Account>

    constructor (contract: ContractName, address: Address)
      ensures this.contract == contract && this.address == address
      ensures defaultFrom == None
    {
      this.contract := contract;
      this.address := address;
      defaultFrom := None;
    }

    /** The builder a generated binding method returns: this contract, the defaults, the arguments. */
    function Method(name: string, args: seq<Arg>, mode: Mode): MethodCall
      reads this
    {
      MethodCall(contract, address, name, args, defaultFrom, mode)
    }
  }

  /** `Contract::deployed(&web3)`: looks the contract up in the deployment directory. */
  method Deployed(web3: Web3, env: Env, contract: ContractName) returns (r: Result<Instance, DeployError>)
    ensures Lookup(env, contract).Failure? ==> r == Failure(Lookup(env, contract).error)
    ensures Lookup(env, contract).Success? ==>
      && r.Success? && fresh(r.value)
      && r.value.contract == contract && r.value.address == Lookup(env, contract).value
      && r.value.defaultFrom == None
  {
    match Lookup(env, contract)
    case Failure(e) =>
      r := Failure(e);
    case Success(address) =>
      var instance := new Instance(contract, address);
      r := Success(instance);
  }

  /** A web3 `TransactionReceipt`, reduced to the fields the service reads. */
  datatype TransactionReceipt = TransactionReceipt(transactionHash: H256, from: Address, to: Option<Address>)

  /** What `.send()` returns: the hash alone, or the receipt when one was awaited. */
  datatype TransactionResult = Hash(hash: H256) | Receipt(receipt: TransactionReceipt)
  {
    /** `TransactionResult::hash()`. */
    function TxHash(): H256
    {
      match this
      case Hash(h) => h
      case Receipt(r) => r.transactionHash
    }
  }
}
