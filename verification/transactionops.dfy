/** packages/snap/src/transactionManagementOperation.ts: the signers of the
    accountManagement.ts iteration. Each one looks the signing key up with
    `getPrivateKeyByAddress` over the state `getState` returned (passed in as
    `state`), turns the value found into a buffer with `Buffer.from(value,
    'hex')` and hands it to the signing library. Since that lookup returns
    the address it was given, the buffer is built from the address. */
module TransactionOps {
  import opened Wrappers
  import opened Js
  import opened EthLib
  import Util
  import AccountManagement

  /** `v[key]` on a value that is neither undefined nor null. */
  function Prop(v: Json, key: string): Json
    requires !Nullish(v)
  {
    Get(v, key).value
  }

  /** `s.slice(2)`. */
  function DropTwo(s: string): string {
    if |s| >= 2 then s[2..] else ""
  }

  /** The bytes signPersonalMessage signs: the request without its first two
      characters, read as hex. */
  function MessageBytes(request: string, lib: EthLib): seq<uint8> {
    lib.bufferFromHex(Str(DropTwo(request)))
  }

  /** A `0x`-prefixed request is signed as the hex text after the prefix. */
  lemma MessageDropsPrefix(hex: string, lib: EthLib)
    ensures MessageBytes("0x" + hex, lib) == lib.bufferFromHex(Str(hex))
  {
    assert ("0x" + hex)[2..] == hex;
  }

  /** The buffer made from the value the key lookup returned. */
  function KeyBuffer(value: string, lib: EthLib): seq<uint8> {
    lib.bufferFromHex(Str(value))
  }

  function VerificationFailed(from: string, recovered: string): string {
    "Signature verification failed for account \"" + from + "\" (got \"" + recovered + "\")"
  }

  /** The signature signPersonalMessage computes for `from` over `request`. */
  function PersonalSignature(from: string, request: string, lib: EthLib): string {
    lib.personalSign(KeyBuffer(from, lib), MessageBytes(request, lib))
  }

  /** `signPersonalMessage(from, request)`: a failed key lookup fails the call;
      otherwise the signature is returned exactly when it recovers to `from`,
      and the call fails with the verification message naming both addresses
      when it does not. */
  function SignPersonalMessage(from: string, request: string, state: map<string, Json>, lib: EthLib): (r: Result<string>)
    ensures AccountManagement.GetPrivateKeyByAddress(from, state).Err? ==>
      r == Err(AccountManagement.GetPrivateKeyByAddress(from, state).error)
    ensures r.Ok? ==> r.value == PersonalSignature(from, request, lib)
    ensures r.Ok? ==> lib.recoverPersonalSignature(MessageBytes(request, lib), r.value) == from
    ensures AccountManagement.GetPrivateKeyByAddress(from, state).Ok? ==>
      var recovered := lib.recoverPersonalSignature(MessageBytes(request, lib), PersonalSignature(from, request, lib));
      (r.Ok? <==> recovered == from) && (r.Err? ==> r.error == Error(VerificationFailed(from, recovered)))
  {
    var privateKey :- AccountManagement.GetPrivateKeyByAddress(from, state);
    var message := MessageBytes(request, lib);
    var signed := lib.personalSign(KeyBuffer(privateKey, lib), message);
    var recovered := lib.recoverPersonalSignature(message, signed);
    if recovered != from then Err(Error(VerificationFailed(from, recovered))) else Ok(signed)
  }

  /** `signTypedData(from, typedData, opts)`: reading `opts.version` comes
      first and throws for an undefined or null `opts`; then the key lookup;
      the data is signed with the version the options select. */
  function SignTypedData(from: string, typedData: Json, opts: Json, state: map<string, Json>, lib: EthLib): (r: Result<string>)
    ensures Nullish(opts) ==> r.Err? && r.error.RuntimeTypeError?
    ensures !Nullish(opts) && AccountManagement.GetPrivateKeyByAddress(from, state).Err? ==>
      r == Err(AccountManagement.GetPrivateKeyByAddress(from, state).error)
    ensures r.Ok? <==> !Nullish(opts) && AccountManagement.GetPrivateKeyByAddress(from, state).Ok?
    ensures r.Ok? ==> r.value == lib.signTypedData(KeyBuffer(from, lib), typedData, SelectTypedDataVersion(opts).value)
  {
    var version :- SelectTypedDataVersion(opts);
    var privateKey :- AccountManagement.GetPrivateKeyByAddress(from, state);
    Ok(lib.signTypedData(KeyBuffer(privateKey, lib), typedData, version))
  }

  /** The version choice on the options signTypedData is given: the three
      version names select themselves, and every other value of `version`,
      a missing one included, selects V1. */
  lemma TypedDataVersionChoice(opts: map<string, Json>)
    ensures var v := if "version" in opts then opts["version"] else Undefined;
      && (v == Str("V3") ==> SelectTypedDataVersion(Obj(opts)) == Ok(V3))
      && (v == Str("V4") ==> SelectTypedDataVersion(Obj(opts)) == Ok(V4))
      && (v != Str("V3") && v != Str("V4") ==> SelectTypedDataVersion(Obj(opts)) == Ok(V1))
  {
  }

  /** `{ ...ethTx, type: chainOpts.type }`: the transaction data signed. */
  function TxData(ethTx: Json, chainOpts: Json): (d: map<string, Json>)
    requires !Nullish(chainOpts)
    ensures "type" in d && d["type"] == Prop(chainOpts, "type")
    ensures forall k :: k in d && k != "type" <==> k in Spread(ethTx) && k != "type"
    ensures forall k :: k in d && k != "type" ==> d[k] == Spread(ethTx)[k]
  {
    Spread(ethTx)["type" := Prop(chainOpts, "type")]
  }

  /** The transaction the library signs for `address` with the chain id,
      hardfork and type of `chainOpts`. */
  function Signed(address: string, ethTx: Json, chainOpts: Json, lib: EthLib): SignedTx
    requires !Nullish(chainOpts)
  {
    lib.signTransaction(Obj(TxData(ethTx, chainOpts)), Prop(chainOpts, "chainId"),
                        Prop(chainOpts, "hardfork"), KeyBuffer(address, lib))
  }

  /** `serializeTransaction(tx, chainOpts)`: the fields of `tx` with `type`
      set to `chainOpts.type` and every undefined-valued key removed. */
  method SerializeTransaction(tx: map<string, Json>, chainOpts: Json) returns (r: map<string, Json>)
    requires !Nullish(chainOpts)
    ensures r == Util.Serialized(tx, Prop(chainOpts, "type"))
    ensures forall k :: k in r ==> r[k] != Undefined
    ensures "type" in r <==> Prop(chainOpts, "type") != Undefined
    ensures "type" in r ==> r["type"] == Prop(chainOpts, "type")
    ensures forall k :: k in tx && k != "type" && tx[k] != Undefined ==> k in r && r[k] == tx[k]
    ensures forall k :: k in r && k != "type" ==> k in tx && r[k] == tx[k]
  {
    r := Util.DeleteUndefined(tx["type" := Prop(chainOpts, "type")]);
  }

  /** `signTransaction(from, ethTx, chainOpts)`: the key is looked up under
      the lower-cased `from`; the transaction is signed with its type forced
      to `chainOpts.type`, and the signed JSON is serialised with that type. */
  function SignTransaction(from: string, ethTx: Json, chainOpts: Json, state: map<string, Json>, lib: EthLib): (r: Result<map<string, Json>>)
    ensures AccountManagement.GetPrivateKeyByAddress(ToLower(from), state).Err? ==>
      r == Err(AccountManagement.GetPrivateKeyByAddress(ToLower(from), state).error)
    ensures r.Ok? <==> AccountManagement.GetPrivateKeyByAddress(ToLower(from), state).Ok? && !Nullish(chainOpts)
    ensures AccountManagement.GetPrivateKeyByAddress(ToLower(from), state).Ok? && Nullish(chainOpts) ==>
      r.Err? && r.error.RuntimeTypeError?
    ensures r.Ok? ==> forall k :: k in r.value ==> r.value[k] != Undefined
    ensures r.Ok? ==> ("type" in r.value <==> Prop(chainOpts, "type") != Undefined)
    ensures r.Ok? && "type" in r.value ==> r.value["type"] == Prop(chainOpts, "type")
    ensures r.Ok? ==> var json := Signed(ToLower(from), ethTx, chainOpts, lib).json;
      forall k :: k != "type" ==> (k in r.value <==> k in json && json[k] != Undefined)
    ensures r.Ok? ==> var json := Signed(ToLower(from), ethTx, chainOpts, lib).json;
      forall k :: k in r.value && k != "type" ==> r.value[k] == json[k]
    ensures r.Ok? ==> r.value == Util.Serialized(Signed(ToLower(from), ethTx, chainOpts, lib).json, Prop(chainOpts, "type"))
  {
    var privateKey :- AccountManagement.GetPrivateKeyByAddress(ToLower(from), state);
    var privateKeyBuffer := KeyBuffer(privateKey, lib);
    var chainId :- Get(chainOpts, "chainId");
    var hardfork := Prop(chainOpts, "hardfork");
    var signedTx := lib.signTransaction(Obj(TxData(ethTx, chainOpts)), chainId, hardfork, privateKeyBuffer);
    Ok(Util.Serialized(signedTx.json, Prop(chainOpts, "type")))
  }

  /** The lookup is case-insensitive in `from`: any capitalisation of an
      address signs the same way. */
  lemma SignTransactionIgnoresCase(from: string, ethTx: Json, chainOpts: Json, state: map<string, Json>, lib: EthLib)
    ensures SignTransaction(from, ethTx, chainOpts, state, lib) == SignTransaction(ToLower(from), ethTx, chainOpts, state, lib)
  {
    ToLowerIdempotent(from);
  }
}
