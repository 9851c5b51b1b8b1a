/** packages/snap/src/keyring.ts: `SimpleKeyringSnap`, the first keyring
    iteration. It keeps `#accounts` (address -> hex private key) and
    `#pendingRequests` (request id -> request) in two records that its
    methods change in place, and persists both to the host after every
    change. Approval reads the host state again and dispatches on the
    request's method name to one of three signers. */
module Keyring {
  import opened Wrappers
  import opened Js
  import opened EthLib
  import opened StateManagement
  import Util
  import AccountManagement

  /** `KeyringState`: what the constructor and handleSetState take. */
  datatype KeyringState = KeyringState(accounts: map<string, string>, pendingRequests: map<string, Json>)

  /** `SerializedKeyringState`: the account keys as a list. */
  datatype SerializedKeyringState = SerializedKeyringState(accounts: seq<string>, pendingRequests: map<string, Json>)

  /** `Account`, what #createAccount returns. */
  datatype Account = Account(caip10Account: string, address: string, privateKey: string)

  /** What an approval returns: a signature or a serialised signed transaction. */
  datatype Approval = Signature(signature: string) | SignedTransaction(tx: map<string, Json>)

  /** The four values handleApproveRequest destructures before dispatching. */
  datatype ApprovalArgs = ApprovalArgs(name: Json, address: Json, data: Json, chainOpts: Json)

  const AccountExists := "Account already exists"
  const InvalidMethod := "Invalid method."
  const InvalidApprovalMethod := "Invalid Approval Method."

  /** The object persistKeyring saves. */
  function PersistedState(accounts: map<string, string>, pendingRequests: map<string, Json>): (s: map<string, Json>)
    ensures s.Keys == {"accounts", "pendingRequests"}
    ensures s["accounts"].Obj? && s["accounts"].fields.Keys == accounts.Keys
    ensures forall k :: k in accounts ==> s["accounts"].fields[k] == Str(accounts[k])
    ensures s["pendingRequests"] == Obj(pendingRequests)
  {
    map["accounts" := Obj(map k | k in accounts :: Str(accounts[k])), "pendingRequests" := Obj(pendingRequests)]
  }

  /** The record deserialize builds from a list of ids: each id maps to itself. */
  function IdentityRecord(ids: seq<string>): (m: map<string, string>)
    ensures forall c :: c in m <==> c in ids
    ensures forall c :: c in m ==> m[c] == c
  {
    map c | c in ids :: c
  }

  /** `#getPrivateKeyByAddress(address)` over the state `getState` returned:
      the entry under the lookup key (the address group of a CAIP-10 id, the
      value itself otherwise), failing with 'Unknown address' when that entry
      is missing or empty; reading `accounts` of a state that has none throws. */
  function KeyringLookup(address: Json, state: map<string, Json>): (r: Result<Json>)
    ensures Nullish(AccountManagement.AccountsField(state)) <==> r.Err? && r.error.RuntimeTypeError?
    ensures r.Ok? ==> Truthy(r.value)
    ensures var fields := AccountManagement.AccountsField(state);
      var key := AccountManagement.AccountKey(address);
      fields.Obj? ==>
        if key in fields.fields && Truthy(fields.fields[key]) then r == Ok(fields.fields[key])
        else r == Err(Error(AccountManagement.UnknownAddress))
  {
    var privateKey :- AccountManagement.StoredAccountEntry(state, AccountManagement.AccountKey(address));
    if !Truthy(privateKey) then Err(Error(AccountManagement.UnknownAddress)) else Ok(privateKey)
  }

  /** Before the keyring has persisted anything, the state holds no accounts
      object and every lookup throws. */
  lemma LookupBeforePersistThrows(address: Json)
    ensures KeyringLookup(address, MergedState(None)).Err?
    ensures KeyringLookup(address, MergedState(None)).error.RuntimeTypeError?
  {
    assert "accounts" !in MergedState(None);
  }

  /** Once the keyring has persisted, a lookup finds exactly the non-empty
      keys it persisted, under the lookup key of the address. */
  lemma LookupAfterPersist(address: Json, accounts: map<string, string>, pendingRequests: map<string, Json>)
    ensures var r := KeyringLookup(address, MergedState(Some(PersistedState(accounts, pendingRequests))));
      var key := AccountManagement.AccountKey(address);
      if key in accounts && accounts[key] != "" then r == Ok(Str(accounts[key]))
      else r == Err(Error(AccountManagement.UnknownAddress))
  {
    var state := MergedState(Some(PersistedState(accounts, pendingRequests)));
    assert AccountManagement.AccountsField(state) == PersistedState(accounts, pendingRequests)["accounts"];
  }

  /** The hardfork #signTransaction chooses: London exactly when the
      transaction has a truthy `maxPriorityFeePerGas` or `maxFeePerGas`
      (EIP-1559 fee fields), Istanbul otherwise; reading them from an
      undefined or null transaction throws. */
  function ChooseHardfork(ethTx: Json): (r: Result<Hardfork>)
    ensures r.Err? <==> Nullish(ethTx)
    ensures r.Ok? ==>
      (r.value == London <==> Truthy(Get(ethTx, "maxPriorityFeePerGas").value) || Truthy(Get(ethTx, "maxFeePerGas").value))
  {
    var priority :- Get(ethTx, "maxPriorityFeePerGas");
    var maxFee := Get(ethTx, "maxFeePerGas").value;
    Ok(if Truthy(priority) || Truthy(maxFee) then London else Istanbul)
  }

  /** `request.slice(2)`: strings and arrays drop their first two elements;
      any other value has no `slice` to call. */
  function SliceTwo(request: Json): (r: Result<Json>)
    ensures r.Ok? <==> request.Str? || request.Arr?
    ensures request.Str? && |request.s| >= 2 ==> r == Ok(Str(request.s[2..]))
    ensures request.Str? && |request.s| < 2 ==> r == Ok(Str(""))
    ensures request.Arr? && |request.items| >= 2 ==> r == Ok(Arr(request.items[2..]))
    ensures request.Arr? && |request.items| < 2 ==> r == Ok(Arr([]))
  {
    match request
    case Str(s) => Ok(Str(if |s| >= 2 then s[2..] else ""))
    case Arr(items) => Ok(Arr(if |items| >= 2 then items[2..] else []))
    case _ => Err(RuntimeTypeError("request.slice is not a function"))
  }

  /** The failure message of the personal-sign self-check. */
  function VerificationFailed(from: Json, recovered: string): string {
    "Signature verification failed for account \"" + ToJsString(from) + "\" (got \"" + recovered + "\")"
  }

  /** `#signPersonalMessage(from, request)`: signs the message with the key
      found for `from` and returns the signature only when it recovers to
      `from` itself. */
  function SignPersonalMessage(from: Json, request: Json, state: map<string, Json>, lib: EthLib): (r: Result<string>)
    ensures KeyringLookup(from, state).Err? ==> r == Err(KeyringLookup(from, state).error)
    ensures r.Ok? ==> KeyringLookup(from, state).Ok? && SliceTwo(request).Ok?
    ensures r.Ok? ==>
      var message := lib.bufferFromHex(SliceTwo(request).value);
      && r.value == lib.personalSign(lib.bufferFromHex(KeyringLookup(from, state).value), message)
      && Str(lib.recoverPersonalSignature(message, r.value)) == from
    ensures KeyringLookup(from, state).Ok? && SliceTwo(request).Ok? ==>
      var message := lib.bufferFromHex(SliceTwo(request).value);
      var recovered := lib.recoverPersonalSignature(message, lib.personalSign(lib.bufferFromHex(KeyringLookup(from, state).value), message));
      (r.Ok? <==> Str(recovered) == from) && (r.Err? ==> r.error == Error(VerificationFailed(from, recovered)))
  {
    var privateKey :- KeyringLookup(from, state);
    var privateKeyBuffer := lib.bufferFromHex(privateKey);
    var sliced :- SliceTwo(request);
    var message := lib.bufferFromHex(sliced);
    var signed := lib.personalSign(privateKeyBuffer, message);
    var recovered := lib.recoverPersonalSignature(message, signed);
    if Str(recovered) != from then Err(Error(VerificationFailed(from, recovered))) else Ok(signed)
  }

  /** `#signTransaction(from, ethTx, chainOpts)`: the key is looked up under
      the lower-cased `from`; the transaction is signed for its own chain id
      with the hardfork its fee fields select, and serialised with the signed
      transaction's own type. `chainOpts` is not used. */
  function SignTransaction(from: Json, ethTx: Json, chainOpts: Json, state: map<string, Json>, lib: EthLib): (r: Result<map<string, Json>>)
    ensures !from.Str? ==> r.Err? && r.error.RuntimeTypeError?
    ensures from.Str? && KeyringLookup(Str(ToLower(from.s)), state).Err? ==>
      r == Err(KeyringLookup(Str(ToLower(from.s)), state).error)
    ensures r.Ok? <==> from.Str? && KeyringLookup(Str(ToLower(from.s)), state).Ok? && !Nullish(ethTx)
    ensures r.Ok? ==>
      var signed := lib.signTransaction(ethTx, Get(ethTx, "chainId").value,
                                        Str(HardforkName(ChooseHardfork(ethTx).value)),
                                        lib.bufferFromHex(KeyringLookup(Str(ToLower(from.s)), state).value));
      && r.value == Util.Serialized(signed.json, Num(signed.txType))
      && "type" in r.value && r.value["type"] == Num(signed.txType)
      && (forall k :: k in r.value ==> r.value[k] != Undefined)
      && (forall k :: k != "type" ==> (k in r.value <==> k in signed.json && signed.json[k] != Undefined))
      && (forall k :: k in r.value && k != "type" ==> r.value[k] == signed.json[k])
  {
    if !from.Str? then Err(RuntimeTypeError("from.toLowerCase is not a function"))
    else
      var privateKey :- KeyringLookup(Str(ToLower(from.s)), state);
      var privateKeyBuffer := lib.bufferFromHex(privateKey);
      var chainId :- Get(ethTx, "chainId");
      var hardfork := ChooseHardfork(ethTx).value;
      var signedTx := lib.signTransaction(ethTx, chainId, Str(HardforkName(hardfork)), privateKeyBuffer);
      // `#serializeTransaction` is the same code as `serializeTransaction` of util.ts
      Ok(Util.Serialized(signedTx.json, Num(signedTx.txType)))
  }

  /** `#signTypedData(from, typedData, opts)`: `opts.version` is read first,
      then the key; the data is signed with the selected version. */
  function SignTypedData(from: Json, typedData: Json, opts: Json, state: map<string, Json>, lib: EthLib): (r: Result<string>)
    ensures Nullish(opts) ==> r.Err? && r.error.RuntimeTypeError?
    ensures r.Ok? <==> !Nullish(opts) && KeyringLookup(from, state).Ok?
    ensures r.Ok? ==>
      r.value == lib.signTypedData(lib.bufferFromHex(KeyringLookup(from, state).value), typedData,
                                   SelectTypedDataVersion(opts).value)
  {
    var version :- SelectTypedDataVersion(opts);
    var privateKey :- KeyringLookup(from, state);
    Ok(lib.signTypedData(lib.bufferFromHex(privateKey), typedData, version))
  }

  /** `state.pendingRequests`. */
  function PendingField(state: map<string, Json>): Json {
    if "pendingRequests" in state then state["pendingRequests"] else Undefined
  }

  /** The method and arguments handleApproveRequest acts on. A truthy stored
      request under the payload's id supplies them in the order
      [data, address, chainOpts]; otherwise the payload supplies them in the
      order [address, data, chainOpts]. */
  function ReadApprovalArgs(payload: Json, state: map<string, Json>): (r: Result<ApprovalArgs>)
    ensures Nullish(payload) ==> r.Err? && r.error.RuntimeTypeError?
    ensures r.Ok? ==> !Nullish(payload) && !Nullish(PendingField(state))
    ensures r.Ok? ==>
      var pending := Get(PendingField(state), ToJsString(Get(payload, "id").value)).value;
      if Truthy(pending) then
        var ps := Get(pending, "params").value;
        Destructure(ps, 3).Ok? && r.value == ApprovalArgs(Get(pending, "method").value,
          Destructure(ps, 3).value[1], Destructure(ps, 3).value[0], Destructure(ps, 3).value[2])
      else
        var ps := Get(payload, "params").value;
        Destructure(ps, 3).Ok? && r.value == ApprovalArgs(Get(payload, "method").value,
          Destructure(ps, 3).value[0], Destructure(ps, 3).value[1], Destructure(ps, 3).value[2])
  {
    var requestId :- Get(payload, "id");
    var pendingRequest :- Get(PendingField(state), ToJsString(requestId));
    if Truthy(pendingRequest) then
      var params := Get(pendingRequest, "params").value;
      var parts :- Destructure(params, 3);
      var name := Get(pendingRequest, "method").value;
      Ok(ApprovalArgs(name, parts[1], parts[0], parts[2]))
    else
      var params := Get(payload, "params").value;
      var parts :- Destructure(params, 3);
      var name := Get(payload, "method").value;
      Ok(ApprovalArgs(name, parts[0], parts[1], parts[2]))
  }

  predicate IsApprovalMethod(name: Json) {
    name in {Str("personal_sign"), Str("eth_sendTransaction"), Str("eth_signTransaction"), Str("eth_signTypedData")}
  }

  /** The `switch (method)` of handleApproveRequest: each of the four method
      names goes to its signer, any other value fails with
      'Invalid Approval Method.'. */
  function Route(args: ApprovalArgs, state: map<string, Json>, lib: EthLib): (r: Result<Approval>)
    ensures !IsApprovalMethod(args.name) <==> r == Err(Error(InvalidApprovalMethod))
    ensures args.name == Str("personal_sign") ==>
      r == (var s :- SignPersonalMessage(args.address, args.data, state, lib); Ok(Signature(s)))
    ensures args.name in {Str("eth_sendTransaction"), Str("eth_signTransaction")} ==>
      r == (var tx :- SignTransaction(args.address, args.data, args.chainOpts, state, lib); Ok(SignedTransaction(tx)))
    ensures args.name == Str("eth_signTypedData") ==>
      r == (var s :- SignTypedData(args.address, args.data, args.chainOpts, state, lib); Ok(Signature(s)))
  {
    match args.name
    case Str("personal_sign") =>
      var s :- SignPersonalMessage(args.address, args.data, state, lib);
      Ok(Signature(s))
    case Str("eth_sendTransaction") =>
      var tx :- SignTransaction(args.address, args.data, args.chainOpts, state, lib);
      Ok(SignedTransaction(tx))
    case Str("eth_signTransaction") =>
      var tx :- SignTransaction(args.address, args.data, args.chainOpts, state, lib);
      Ok(SignedTransaction(tx))
    case Str("eth_signTypedData") =>
      var s :- SignTypedData(args.address, args.data, args.chainOpts, state, lib);
      Ok(Signature(s))
    case _ => Err(Error(InvalidApprovalMethod))
  }

  /** handleApproveRequest over the state `getState` returned. */
  function Approve(payload: Json, state: map<string, Json>, lib: EthLib): (r: Result<Approval>)
    ensures ReadApprovalArgs(payload, state).Err? ==> r == Err(ReadApprovalArgs(payload, state).error)
    ensures ReadApprovalArgs(payload, state).Ok? ==> r == Route(ReadApprovalArgs(payload, state).value, state, lib)
  {
    var args :- ReadApprovalArgs(payload, state);
    Route(args, state, lib)
  }

  /** A personal_sign approval of a stored request signs its params[0] as
      data for the address params[1]. */
  lemma ApprovalStoredParamOrder(id: Json, data: Json, address: Json, chainOpts: Json,
                                 state: map<string, Json>, lib: EthLib)
    requires "pendingRequests" in state && state["pendingRequests"].Obj?
    requires var stored := state["pendingRequests"].fields;
      ToJsString(id) in stored
      && stored[ToJsString(id)] == Obj(map["method" := Str("personal_sign"), "params" := Arr([data, address, chainOpts])])
    ensures Approve(Obj(map["id" := id]), state, lib)
         == (var s :- SignPersonalMessage(address, data, state, lib); Ok(Signature(s)))
  {
    var pending := Obj(map["method" := Str("personal_sign"), "params" := Arr([data, address, chainOpts])]);
    assert Get(PendingField(state), ToJsString(id)) == Ok(pending);
    assert Destructure(Arr([data, address, chainOpts]), 3).value == [data, address, chainOpts];
    assert ReadApprovalArgs(Obj(map["id" := id]), state) == Ok(ApprovalArgs(Str("personal_sign"), address, data, chainOpts));
  }

  /** A personal_sign approval given in the payload, with no stored request
      under its id, signs params[1] as data for the address params[0]. */
  lemma ApprovalPayloadParamOrder(id: Json, data: Json, address: Json, chainOpts: Json,
                                  state: map<string, Json>, lib: EthLib)
    requires "pendingRequests" in state && state["pendingRequests"].Obj?
    requires ToJsString(id) !in state["pendingRequests"].fields
    ensures var payload := Obj(map["id" := id, "method" := Str("personal_sign"), "params" := Arr([address, data, chainOpts])]);
      Approve(payload, state, lib) == (var s :- SignPersonalMessage(address, data, state, lib); Ok(Signature(s)))
  {
    var payload := Obj(map["id" := id, "method" := Str("personal_sign"), "params" := Arr([address, data, chainOpts])]);
    assert Get(PendingField(state), ToJsString(id)) == Ok(Undefined);
    assert Destructure(Arr([address, data, chainOpts]), 3).value == [address, data, chainOpts];
    assert ReadApprovalArgs(payload, state) == Ok(ApprovalArgs(Str("personal_sign"), address, data, chainOpts));
  }

  class SimpleKeyringSnap {
    var accounts: map<string, string>
    var pendingRequests: map<string, Json>

    constructor(state: KeyringState)
      ensures accounts == state.accounts && pendingRequests == state.pendingRequests
    {
      accounts := state.accounts;
      pendingRequests := state.pendingRequests;
    }

    /** `persistKeyring()`: the host receives both records. */
    method PersistKeyring(host: SnapStore)
      modifies host
      ensures host.stored == Some(PersistedState(accounts, pendingRequests))
    {
      SaveState(host, PersistedState(accounts, pendingRequests));
    }

    /** `serialize()`: every account key exactly once, and the pending
        requests as they are. */
    method Serialize() returns (s: SerializedKeyringState)
      ensures forall i, j :: 0 <= i < j < |s.accounts| ==> s.accounts[i] != s.accounts[j]
      ensures forall k :: k in accounts <==> k in s.accounts
      ensures s.pendingRequests == pendingRequests
    {
      var a := accounts;
      var keys := ObjectKeys(a);
      s := SerializedKeyringState(keys, pendingRequests);
    }

    /** `deserialize(serialized)`: the account record becomes the ids, each
        mapped to itself (duplicates collapse), and the pending requests are
        replaced. Nothing is persisted. */
    method Deserialize(serialized: SerializedKeyringState)
      modifies this
      ensures accounts == IdentityRecord(serialized.accounts)
      ensures pendingRequests == serialized.pendingRequests
    {
      var ids := serialized.accounts;
      var acc: map<string, string> := map[];
      var i := 0;
      while i < |ids|
        invariant 0 <= i <= |ids|
        invariant forall c :: c in acc <==> c in ids[..i]
        invariant forall c :: c in acc ==> acc[c] == c
      {
        acc := acc[ids[i] := ids[i]];
        i := i + 1;
      }
      assert ids[..i] == ids;
      accounts := acc;
      pendingRequests := serialized.pendingRequests;
    }

    /** deserialize followed by serialize gives back the same ids, each once. */
    method DeserializeThenSerialize(serialized: SerializedKeyringState) returns (s: SerializedKeyringState)
      modifies this
      ensures forall c :: c in s.accounts <==> c in serialized.accounts
      ensures forall i, j :: 0 <= i < j < |s.accounts| ==> s.accounts[i] != s.accounts[j]
      ensures s.pendingRequests == serialized.pendingRequests
    {
      Deserialize(serialized);
      s := Serialize();
    }

    /** `handleSubmitRequest(request)`: stores `request.params` under its `id`
        (as a property key), replacing any request with that id, and persists.
        A request without params, or params without an object value, throws
        before anything changes. */
    method HandleSubmitRequest(request: Json, host: SnapStore) returns (r: Outcome)
      modifies this, host
      ensures accounts == old(accounts)
      ensures r.Fail? <==> Nullish(request) || Nullish(Get(request, "params").value)
      ensures r.Fail? ==> pendingRequests == old(pendingRequests) && host.stored == old(host.stored)
      ensures r.Pass? ==>
        var params := Get(request, "params").value;
        && pendingRequests == old(pendingRequests)[ToJsString(Get(params, "id").value) := params]
        && host.stored == Some(PersistedState(accounts, pendingRequests))
    {
      var signatureRequest := Get(request, "params");
      if signatureRequest.Err? {
        return Fail(signatureRequest.error);
      }
      var id := Get(signatureRequest.value, "id");
      if id.Err? {
        return Fail(id.error);
      }
      pendingRequests := pendingRequests[ToJsString(id.value) := signatureRequest.value];
      PersistKeyring(host);
      r := Pass;
    }

    /** `handleSetState(request)`: both records are replaced by the given
        state and persisted. */
    method HandleSetState(state: KeyringState, host: SnapStore)
      modifies this, host
      ensures accounts == state.accounts && pendingRequests == state.pendingRequests
      ensures host.stored == Some(PersistedState(state.accounts, state.pendingRequests))
    {
      accounts := state.accounts;
      pendingRequests := state.pendingRequests;
      PersistKeyring(host);
    }

    /** `handleGetState()`: the host state merged over the defaults. */
    method HandleGetState(host: SnapStore) returns (s: map<string, Json>)
      ensures s == MergedState(host.stored)
    {
      s := GetState(host);
    }

    /** `#createAccount(privateKeyHex?)`: a truthy `privateKeyHex` is the key
        as hex; otherwise the 32 random bytes are. An address whose entry is
        already truthy fails with 'Account already exists' and changes
        nothing; otherwise the address is mapped to the key's hex text, the
        keyring is persisted, and the account carries the id
        `eip155:1:<address>` and the lower-cased address. */
    method CreateAccount(privateKeyHex: Option<string>, random: seq<uint8>, lib: EthLib, host: SnapStore)
      returns (r: Result<Account>)
      requires |random| == 32
      modifies this, host
      ensures pendingRequests == old(pendingRequests)
      ensures var buffer := if privateKeyHex.Some? && privateKeyHex.value != ""
                            then lib.bufferFromHex(Str(privateKeyHex.value)) else random;
        var address := lib.addressFromPrivateKey(buffer);
        && (r.Err? <==> address in old(accounts) && old(accounts)[address] != "")
        && (r.Err? ==> r.error == Error(AccountExists) && accounts == old(accounts) && host.stored == old(host.stored))
        && (r.Ok? ==>
             && r.value == Account("eip155:1:" + address, ToLower(address), HexEncode(buffer))
             && accounts == old(accounts)[address := HexEncode(buffer)]
             && host.stored == Some(PersistedState(accounts, pendingRequests)))
      ensures r.Ok? && r.value.privateKey != "" && AccountManagement.IsAccountAddress(r.value.caip10Account[9..]) ==>
        KeyringLookup(Str(r.value.caip10Account), MergedState(host.stored)) == Ok(Str(r.value.privateKey))
    {
      var privateKeyBuffer: seq<uint8>;
      if privateKeyHex.Some? && privateKeyHex.value != "" {
        privateKeyBuffer := lib.bufferFromHex(Str(privateKeyHex.value));
      } else {
        privateKeyBuffer := random;
      }
      var address := lib.addressFromPrivateKey(privateKeyBuffer);
      var caip10Account := "eip155:1:" + address;
      var account := Account(caip10Account, ToLower(address), HexEncode(privateKeyBuffer));
      if address in accounts && accounts[address] != "" {
        return Err(Error(AccountExists));
      }
      accounts := accounts[address := account.privateKey];
      PersistKeyring(host);
      r := Ok(account);
      if account.privateKey != "" && AccountManagement.IsAccountAddress(caip10Account[9..]) {
        assert caip10Account[9..] == address;
        AccountManagement.Eip155KeyIsAddress(address);
        LookupAfterPersist(Str(caip10Account), accounts, pendingRequests);
      }
    }

    /** `handleManageAccounts(params)`: `[method] = params`; 'create' creates
        an account and relays `['create', address]` to the host, any other
        method fails with 'Invalid method.' and changes nothing. The result
        is the parameter list of the relayed request. */
    method HandleManageAccounts(params: Json, random: seq<uint8>, lib: EthLib, host: SnapStore)
      returns (r: Result<seq<Json>>)
      requires |random| == 32
      modifies this, host
      ensures !(params.Arr? || params.Str?) ==> r.Err? && r.error.RuntimeTypeError?
      ensures (params.Arr? || params.Str?) ==>
        (r == Err(Error(InvalidMethod)) <==> Destructure(params, 1).value[0] != Str("create"))
      ensures var address := lib.addressFromPrivateKey(random);
        r == Err(Error(AccountExists)) <==>
          (params.Arr? || params.Str?) && Destructure(params, 1).value[0] == Str("create")
          && address in old(accounts) && old(accounts)[address] != ""
      ensures r.Err? ==>
        accounts == old(accounts) && pendingRequests == old(pendingRequests) && host.stored == old(host.stored)
      ensures r.Ok? ==>
        var address := lib.addressFromPrivateKey(random);
        && r.value == [Str("create"), Str(ToLower(address))]
        && accounts == old(accounts)[address := HexEncode(random)]
        && pendingRequests == old(pendingRequests)
        && host.stored == Some(PersistedState(accounts, pendingRequests))
    {
      var parts := Destructure(params, 1);
      if parts.Err? {
        return Err(parts.error);
      }
      if parts.value[0] != Str("create") {
        return Err(Error(InvalidMethod));
      }
      var account := CreateAccount(None, random, lib, host);
      if account.Err? {
        return Err(account.error);
      }
      r := Ok([Str("create"), Str(account.value.address)]);
    }

    /** `handleApproveRequest(payload)`: reads the host state and approves
        against it; neither the keyring nor the host changes, so the pending
        request stays stored. */
    method HandleApproveRequest(payload: Json, lib: EthLib, host: SnapStore) returns (r: Result<Approval>)
      ensures r == Approve(payload, MergedState(host.stored), lib)
    {
      var state := GetState(host);
      r := Approve(payload, state, lib);
    }
  }
}
