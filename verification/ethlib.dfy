/** The libraries the keyring calls but whose code is not part of this model:
    `@ethereumjs/util` (address derivation), `@ethereumjs/common` and
    `@ethereumjs/tx` (hardfork rules, transaction building and signing),
    `@metamask/eth-sig-util` (personal and typed-data signatures) and Node's
    `Buffer.from(value, 'hex')`. They are uninterpreted: an `EthLib` value
    carries one total function per call, and every operation that signs takes
    it as a parameter. `Buffer#toString('hex')` is spelled out (`HexEncode`),
    because the format of a generated private key depends on it. */
module EthLib {
  import opened Wrappers
  import opened Js

  /** A signed transaction: `signedTx.toJSON()` and `signedTx.type`. */
  datatype SignedTx = SignedTx(json: map<string, Json>, txType: int)

  /** `SignTypedDataVersion` of eth-sig-util; its keys equal its values. */
  datatype TypedDataVersion = V1 | V3 | V4

  function VersionName(v: TypedDataVersion): string {
    match v
    case V1 => "V1"
    case V3 => "V3"
    case V4 => "V4"
  }

  /** `Hardfork` of @ethereumjs/common, the two members the keyring uses. */
  datatype Hardfork = London | Istanbul

  function HardforkName(h: Hardfork): string {
    match h
    case London => "london"
    case Istanbul => "istanbul"
  }

  datatype EthLib = EthLib(
    /** `Address.fromPrivateKey(key).toString()` */
    addressFromPrivateKey: seq<uint8> -> string,
    /** `Buffer.from(value, 'hex')` */
    bufferFromHex: Json -> seq<uint8>,
    /** `personalSign({ privateKey, data })` */
    personalSign: (seq<uint8>, seq<uint8>) -> string,
    /** `recoverPersonalSignature({ data, signature })` */
    recoverPersonalSignature: (seq<uint8>, string) -> string,
    /** `signTypedData({ privateKey, data, version })` */
    signTypedData: (seq<uint8>, Json, TypedDataVersion) -> string,
    /** `TransactionFactory.fromTxData(txData, { common: Common.custom({ chainId }, { hardfork }) }).sign(privateKey)` */
    signTransaction: (Json, Json, Json, seq<uint8>) -> SignedTx
  )

  const HexDigits := "0123456789abcdef"

  /** `Buffer.from(bytes).toString('hex')`: two lower-case hex digits per byte. */
  function HexEncode(bytes: seq<uint8>): (s: string)
    ensures |s| == 2 * |bytes|
    ensures forall i :: 0 <= i < |s| ==> s[i] in HexDigits
  {
    if bytes == [] then ""
    else [HexDigits[bytes[0] as int / 16], HexDigits[bytes[0] as int % 16]] + HexEncode(bytes[1..])
  }

  /** True when `v` is one of `Object.keys(SignTypedDataVersion)`. */
  predicate IsVersionKey(v: Json) {
    v.Str? && v.s in {"V1", "V3", "V4"}
  }

  /** `opts.version`, as read from the options object. */
  function RequestedVersion(opts: Json): Json {
    if opts.Obj? && "version" in opts.fields then opts.fields["version"] else Undefined
  }

  /** The version choice shared by both signTypedData implementations:
      `opts.version` when it is a truthy key of `SignTypedDataVersion`, V1 in
      every other case, including an absent or unknown version. Reading the
      version of an undefined or null `opts` throws. */
  function SelectTypedDataVersion(opts: Json): (r: Result<TypedDataVersion>)
    ensures r.Err? <==> Nullish(opts)
    ensures r.Ok? && IsVersionKey(RequestedVersion(opts)) ==> Str(VersionName(r.value)) == RequestedVersion(opts)
    ensures r.Ok? && !IsVersionKey(RequestedVersion(opts)) ==> r.value == V1
  {
    var version :- Get(opts, "version");
    if Truthy(version) && version.Str? && version.s in {"V1", "V3", "V4"} then
      Ok(if version.s == "V1" then V1 else if version.s == "V3" then V3 else V4)
    else
      Ok(V1)
  }
}
