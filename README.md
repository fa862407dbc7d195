# SugarFunge integration service — a Dafny model of its core

The service is an HTTP facade over two smart contracts: an ERC-1155 style
asset contract (`SugarFungeAsset`) and a wrapping factory
(`Wrapped1155Factory`). It also proxies read-only queries to the Moralis
indexing API. This project models the logic of that service that is
deterministic and checkable:

- **Asset-metadata encoding** (`asset.dfy`, `abi.dfy`). `get_asset_data`
  encodes a `(string name, string symbol, uint256 decimals)` tuple with the
  Solidity contract ABI encoding. `get_batch_asset_data` pushes one such
  tuple per asset, in a loop, and encodes them as separate top-level
  parameters. The model gives the exact byte layout and the total length,
  and shows the result is always whole 32-byte words. It shows that the
  decimals word of a u64 starts with 24 zero bytes. A reference decoder
  gives the encoding back, so the encoding is lossless and injective. A
  batch of one asset equals the single encoding, and a batch of two or more
  is not the concatenation of single encodings.
- **Transaction orchestration** (`asset.dfy`, `wrapper.dfy`, `chain.dfy`).
  Mint, transfer, batch transfer, wrap, batch wrap, unwrap and get-wrapped
  are each modelled up to the call descriptor handed to `.send()` or
  `.call()`: target contract and address, method name, ordered arguments,
  sender and mode. The flows run the source's own steps on a contract
  handle (the `Instance` class) whose `defaultFrom` they assign. Each flow's
  contract fixes the order of the steps, the error each failing step yields,
  and the exact call built when every step succeeds. This takes in the
  factory address as the wrap recipient, and the asset-contract address
  passed to `unwrap` and `getWrapped1155` after a round trip through
  `"0x{:x}"` and `H160::from_str`. Separate functions turn what `.send()` or
  `.call()` returns into the JSON body.
- **Error classification** (`errors.dfy`): the five-variant `ApiError`, its
  status codes, labels, messages, error response and `From` conversions.
- **Indexing-API proxy** (`moralis.rs` → `moralis.dfy`): query-option
  defaulting, the URL of each endpoint, and the status classification of
  `moralis_call`.
- **Test helper** (`test_utils.dfy`): `get_nft` selection of a result entry.

The world outside the process is an input. `Chain.Env` says whether the
HTTP transport can be built and gives each contract's deployment record or
lookup error. The configured signer key, chain id and indexing-API base
URL are in `Chain.Config`. What the node returns from `.send()` or `.call()` is passed
to the response functions as an argument.

Facts about the code a reader might not expect:

- Batch metadata is one ABI encoding with n head offsets, not a
  concatenation of per-item encodings. `Asset.BatchIsNotConcatenation`
  proves the two differ.
- Batch transfer and batch wrap do not compare the lengths of `ids`,
  `amounts` and `data`, and they do not reject mismatched lists.
- `wrapper_get_wrapped` sets the signer as the default sender before its
  read-only call, as `unwrap` does.
- Wrap and batch wrap resolve only the factory themselves. The asset
  contract is then resolved inside the delegated transfer flow, after the
  transport is built a second time.
- `get_web3` runs before every contract lookup in every flow, so a
  transport failure always comes first.

## Model

| member | source | states |
|---|---|---|
| `Asset.GetWeb3` | src/asset.rs:43-53 | the transport is built exactly when the endpoint is usable, for the URL `https://ropsten.infura.io/v3/` + project id; otherwise the error is `TransportError` |
| `Asset.GetAssetData` | src/asset.rs:55-68 | the payload is the offset word 0x20 followed by the tuple's own encoding (exact bytes in `Asset.GetAssetDataLayout`) |
| `Asset.GetAssetDataLayout` | src/asset.rs:55-68 | the single encoding is the offset word 0x20, the heads 0x60, the symbol's offset and the decimals word, then the name and symbol as length word plus zero-padded bytes; length 32 + 96 + (32 + ceil32(name)) + (32 + ceil32(symbol)), a multiple of 32 |
| `Asset.DecimalsWord` | src/asset.rs:63 | bytes 96..128 are the 32-byte big-endian decimals; its first 24 bytes are zero, and reading the word back gives decimals |
| `Asset.EmptyStrings` | src/asset.rs:57-67 | empty name and symbol are accepted and each encodes as a zero length word with no data bytes |
| `Asset.GetAssetDataRoundTrip` | src/asset.rs:55-68 | decoding the payload as one tuple parameter gives back the name bytes, symbol bytes and decimals |
| `Asset.GetAssetDataInjective` | src/asset.rs:55-68 | two metadata values have the same payload if and only if they are equal |
| `Asset.GetBatchAssetData` | src/asset.rs:70-87 | the loop pushes one tuple per asset in input order; the result is the ABI encoding of those n parameters, of length 32n + the tuples' lengths, and it decodes back to the same tuples |
| `Asset.BatchOfNoneOrOne` | src/asset.rs:70-87 | no assets encode to the empty byte sequence; one asset encodes exactly as `get_asset_data` |
| `Asset.BatchIsNotConcatenation` | src/asset.rs:72-86 | for two or more assets the batch encoding differs from the concatenation of the single encodings (its first word is 32n, not 0x20) |
| `Asset.AssetMintNft` | src/asset.rs:89-108 | transport failure gives `TransportError`; a failed asset lookup gives `ContractError` with its error; otherwise the call is `mint(account, id, amount, get_asset_data(data))` on the asset contract, sent by the configured signer |
| `Asset.AssetTransferNft` | src/asset.rs:115-135 | same step order; the call is `safeTransferFrom(from, to, id, amount, get_asset_data(data))` on the asset contract, sent by the signer |
| `Asset.AssetBatchTransferNft` | src/asset.rs:142-162 | same step order; the call is `safeBatchTransferFrom(from, to, ids, amounts, batch data)` with the lists unchanged in length and order, and no length check between them |
| `Asset.SendResponse` | src/asset.rs:107-112 | a rejected send is `MethodError` carrying the node's error; otherwise `tx` is "0x" and 64 lowercase hex digits that parse back to the transaction hash |
| `Wrapper.WrapTransfer` | src/wrapper.rs:57-63 | the transfer built by wrap copies from, amount, id and data, and its `to` is `"0x{:x}"` of the factory's address: "0x" and 40 lowercase hex digits that parse back to it |
| `Wrapper.BatchWrapTransfer` | src/wrapper.rs:76-82 | the batch transfer built by batch wrap keeps the lists unchanged and in order, and its `to` is `"0x{:x}"` of the factory's address, which parses back to it |
| `Wrapper.WrapperWrap` | src/wrapper.rs:52-66 | transport first, then the factory (its failure is `ContractError` and no transfer is built), then the transfer flow; the call is `safeTransferFrom(from, factory, id, amount, data)` on the asset contract |
| `Wrapper.WrapperBatchWrap` | src/wrapper.rs:68-85 | same order; the call is `safeBatchTransferFrom(from, factory, ids, amounts, batch data)` on the asset contract |
| `Wrapper.WrapperUnwrap` | src/wrapper.rs:87-121 | transport, then the factory, then the asset contract, each failure giving its error before any call exists; the call is `unwrap(asset address, id, amount, recipient, data)` on the factory, sent by the signer, with the asset address unchanged by its format/parse round trip |
| `Wrapper.WrapperGetWrapped` | src/wrapper.rs:131-163 | the same resolution order as unwrap; the call is a read-only `getWrapped1155(asset address, id, data)` on the factory, with the signer as default sender |
| `Wrapper.UnwrapResponse` | src/wrapper.rs:120-128 | given a receipt, the body holds the hash; its `tx` is "0x" and 64 lowercase hex digits that parse back to the hash; it holds the receipt's `to` and `from`; a rejected send is `MethodError` |
| `Wrapper.GetWrappedResponse` | src/wrapper.rs:162-165 | the body's `tx` is "0x" and 40 lowercase hex digits that parse back to the returned address; a rejected call is `MethodError` |
| `Chain.ParseH160` | src/asset.rs:103 | `H160::from_str` succeeds exactly when, after an optional "0x" and with spaces, tabs and line breaks skipped, there are 40 hex digits of either case |
| `Text.TrailingSpacesParse` | src/asset.rs:129-130 | a formatted address or hash followed by separators still parses to the same bytes |
| `Chain.FormatAddress` | src/wrapper.rs:59 | `"0x{:x}"` of an address is "0x" followed by 40 lowercase hex digits (the parse-back is `Chain.AddressRoundTrip`) |
| `Chain.AddressRoundTrip` | src/wrapper.rs:106-110 | `"0x{:x}"` of an address is 42 characters starting with "0x", and `H160::from_str` of it gives back the address |
| `Chain.HashRoundTrip` | src/asset.rs:111 | `"0x{:x}"` of a transaction hash is 66 characters and `H256::from_str` of it gives back the hash |
| `Chain.Deployed` | src/asset.rs:98 | a missing deployment gives the lookup error; otherwise a fresh handle for that contract at the recorded address, with no default sender |
| `Abi.Encode` | src/asset.rs:86 | the encoding of n parameters is n head words followed by the tuples' tails (its inverse is `Abi.DecodeEncode`) |
| `Abi.DecodeEncode` | src/asset.rs:86 | decoding an encoding of n tuple parameters, told n, gives back the tuples |
| `Abi.EncodeInjective` | src/asset.rs:86 | two tuple lists of the same length have the same encoding exactly when they are equal |
| `Abi.EncodeSingle` | src/asset.rs:57-67 | one tuple parameter encodes as the offset 0x20 followed by the tuple's own encoding |
| `Abi.FirstWord` | src/asset.rs:86 | the first word of an encoding of n parameters is the offset 32n of the first tuple |
| `Abi.EncodeWords` | src/asset.rs:86 | every encoding is a whole number of 32-byte words |
| `Errors.StatusCode` | src/error.rs:39-47 | the status is 400 exactly for `InvalidRequest` and 500 for every other variant |
| `Errors.ToErrorResponse` | src/error.rs:49-57 | the error body's code is the status code, `error` the label and `message` the display text |
| `Errors.Display` | src/error.rs:15-25 | a message starts with "Locating deployed contract failed: " exactly for a failed lookup, and with "Contract method failed: " exactly for a failed call |
| `Errors.Name` | src/error.rs:27-37 | every label is non-empty, and "Unknown" is the label of the indexing-API failure alone |
| `Errors.NameIdentifiesVariant` | src/error.rs:27-37 | two errors have the same label exactly when they are the same variant ("Unknown" is the label of `MoralisError`) |
| `Errors.DisplayIdentifiesError` | src/error.rs:15-25 | two errors have the same message exactly when they are equal: the fixed texts differ and the contract and method messages carry the wrapped error's text after their fixed prefix |
| `Errors.ErrorResponseIdentifiesError` | src/error.rs:49-57 | distinct errors give distinct error bodies, whose code is 400 or 500 |
| `Errors.FromDeployError` | src/error.rs:60-64 | a deployment error becomes `ContractError` carrying it |
| `Errors.FromMethodError` | src/error.rs:66-70 | a method error becomes `MethodError` carrying it |
| `Moralis.CheckQueryParams` | src/moralis.rs:53-73 | every supplied option is kept; absent ones become chain "rinkeby", format "decimal", offset 0, limit 10; all four are present afterwards |
| `Moralis.CheckQueryParamsFixedPoints` | src/moralis.rs:53-73 | the parameters are unchanged exactly when all four options are present |
| `Moralis.CheckQueryParamsIdempotent` | src/moralis.rs:53-73 | applying the defaulting twice equals applying it once |
| `Moralis.Path` | src/moralis.rs:107-197 | the block number and token ids are written in decimal and read back from their place in the path |
| `Moralis.Url` | src/moralis.rs:103-199 | each endpoint's URL is the configured `moralis_base_url` followed by its path, by plain concatenation |
| `Moralis.BlockUrlIdentifiesBlock` | src/moralis.rs:134 | the transfers-by-block URL writes the block in decimal, so two blocks give the same URL only if they are equal |
| `Moralis.TokenIdOwnersUrlIdentifiesId` | src/moralis.rs:188 | for one token, two ids give the same token-id-owners URL only if they are equal |
| `Moralis.MoralisResult` | src/moralis.rs:86-100 | the body is returned exactly when the reply status is 200; any other status or a failed send is `MoralisError` |
| `TestUtils.FindTokenId` | tests/utils/mod.rs:117-123 | the index found is that of the first entry with the token id; none is found only when no entry has it |
| `TestUtils.GetNft` | tests/utils/mod.rs:107-131 | the result is the default or an entry; with an id, the first entry whose token id is the id's decimal text, else the default; without one, the first entry or the default |
| `TestUtils.GetNftFindsMatch` | tests/utils/mod.rs:110-123 | with an id, the result is not the default exactly when some entry matches, and then its token id parses back to the id |
| `Text.DecimalStringInjective` | tests/utils/mod.rs:121 | the decimal `to_string` of distinct numbers are distinct strings |

## Left out

- HTTP plumbing: actix routing, the `#[post]` handlers, request-body JSON parsing, CORS and Prometheus metrics (`src/main.rs` and the handler functions).
- Configuration loading from the environment (`src/config.rs`). Only the fields the core reads are in `Chain.Config`; the API key, which only the left-out HTTP client sends, is not among them. The asset flows read `config.private_key` while `Config` declares `signer_private_key`; both are the one configured signer key here.
- Contract binding generation (`build.rs`); the generated bindings are represented only by the method names and argument lists they are called with.
- The ethcontract/web3 runtime: `deployed`, `send`, `call`, signing, receipts and the RPC transport are not modelled. Lookup results and the transport's success are fields of `Chain.Env`; send and call outcomes are arguments of the response functions.
- `Http::new` URL validation: whether the transport can be built is the boolean `Env.transportOk`, not a function of the URL.
- `snailquote::unescape` is a function parameter; its failure, which the handlers unwrap, is excluded by a precondition.
- The awc HTTP client, the API-key header, query serialisation, the body's UTF-8 and JSON parsing in `moralis_call`, which all unwrap, and the `error!` log of the body on a non-200 reply (src/moralis.rs:94). `Moralis.MoralisResult` receives the reply, or its absence, and returns the body text.
- Chain.ParseH160: the fixed-hash and rustc-hex crates are not part of this model. The parser follows fixed-hash's `from_str`: strip one "0x", then read digits with rustc-hex's `FromHexIter`, which skips spaces, tabs and line breaks. Its two error kinds (bad character, bad length) are both `None`.
- Panics: `H160::from_str(...).unwrap()` on request addresses and the receipt unwrap in unwrap become preconditions (the address parses; a receipt is present).
- UTF-8 validity of strings: the metadata strings are their UTF-8 bytes. The encoder never inspects them.
- `ethabi::encode` in general: only lists of `(string, string, uint256)` tuples, the one shape the service encodes, are modelled. `Abi.Word` keeps the low 32 bytes of a number. The decimals word, a u64, always fits in 32 bytes; string lengths, like every Rust length, are below `Abi.LEN_BOUND` (2^63).
- Abi.Encode: the library writes every string length and every offset as a 32-bit value (`pad_u32`), so for an encoding of 2^32 bytes or more its length and offset words wrap. The model writes them in full, and so agrees with the library only on encodings shorter than 2^32 bytes. The round-trip and injectivity lemmas (`Abi.DecodeEncode`, `Abi.EncodeInjective`, `Asset.GetAssetDataRoundTrip`, `Asset.GetAssetDataInjective`, `Asset.GetBatchAssetData`) are about the model under that assumption. Request bodies are far below that size.
- The reference decoder `Abi.Decode` only reads the layout back. It does not reject non-zero padding or non-canonical offsets.
- `ethcontract::errors::DeployError` and `MethodError` are known only by their `to_string` text.
- The `hash` field of the unwrap body is kept as the hash value; its JSON serialisation is not modelled.
- `tests/integration_test.rs` is not part of this model. It needs a live chain and the indexing API.
- Asset.GetBatchAssetData: the decode round trip is stated for fewer than 2^63 assets, the length bound of a Rust `Vec`.
- Abi.DecodeEncode: stated for fewer than 2^63 parameters, for the same reason.
