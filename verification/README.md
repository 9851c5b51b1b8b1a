# Simple keyring snap — Dafny model

This project models the core of MetaMask's simple keyring snap
(`packages/snap/src`). The snap is a keyring for Ethereum accounts that runs
inside MetaMask. It keeps private keys in the snap's persisted state, signs
transactions, personal messages and typed data, and answers JSON-RPC
requests after checking the caller's origin against a permission table.

The files come from several iterations of the snap and are modelled each on
its own terms:

- `keyring.dfy`: the first keyring, `SimpleKeyringSnap` (keyring.ts). It has two
  records updated in place, a duplicate-rejecting account creation, key lookup
  by address or CAIP-10 account id, an approval dispatcher and three signers.
- `keyring2.dfy`: the second keyring, `SimpleKeyringSnap2` (keyring2.ts). Its
  wallets and requests records are updated in place, and several of its
  methods are stubs that always fail.
- `accountmanagement.dfy` (accountManagement.ts) and `transactionops.dfy`
  (transactionManagementOperation.ts): the function-style iteration.
  - It covers account creation, the state update that stores an account, and
    private-key lookup.
  - It covers the CAIP-10 grammar (section "Syntax" of CAIP-10), proved equal
    to the regular expression the source uses.
  - It covers the signers, including the personal-sign self-check
    (EIP-191) and the typed-data version fallback (EIP-712 versions).
- `util.dfy` (util.ts): `serializeTransaction` and the small helpers.
- `utils.dfy` (utils.ts): the hex decoder, with `parseInt(…, 16)` spelled
  out, and the proof that it inverts `Buffer#toString('hex')`.
- `statemanagement.dfy` (stateManagement.ts): the default merge of the
  persisted state, and the host store it reads and writes.
- `logger.dfy` (logger.ts): the `Logger` threshold filter.
- `permissions.dfy` (permissions.ts): the method-name enums and the
  origin → methods table.
- `index.dfy` (index.ts): the RPC handlers and the lazily built keyring.
- `wrappers.dfy`, `js.dfy` and `ethlib.dfy`: the error values the code throws,
  the JavaScript semantics it relies on, and the libraries it calls.
  - JavaScript semantics covered: truthiness, property reads on
    undefined/null, `String(v)`, destructuring, spread, `Object.keys` and
    `toLowerCase`.
  - Library calls are uninterpreted functions: address derivation, signing,
    recovery, transaction building and `Buffer.from(hex)`.

The model follows the code as written. Three places differ from what a
reader might expect:

- `getPrivateKeyByAddress` in accountManagement.ts returns the address it was
  given, not the stored key. The signers of transactionManagementOperation.ts
  therefore build the signing key from the address.
- Both `serializeTransaction`s delete undefined-valued keys. The comment at
  util.ts:7 says they become null instead.
- The keyring.ts lookups read `state.accounts`, but the default state
  (stateManagement.ts:6-10) has no `accounts` field. Until the keyring has
  persisted, every lookup throws a TypeError (`Keyring.LookupBeforePersistThrows`).

Caller-side effects and nondeterminism are parameters:
- the host's state store is a `SnapStore` object;
- random bytes and new ids are arguments;
- the library calls are the fields of an `EthLib` value;
- `NODE_ENV` is an argument;
- the console is a `Console` object whose `lines` collect emissions.

## Model

| member | source | states |
|---|---|---|
| StateManagement.MergedState | packages/snap/src/stateManagement.ts:25-28 | every stored field overrides the default; every default field the host lacks keeps its default; no other keys |
| StateManagement.NothingStoredGivesDefaults | packages/snap/src/stateManagement.ts:25-28 | with nothing stored the merged state is exactly the default state |
| StateManagement.DefaultsFillAbsentFields | packages/snap/src/stateManagement.ts:6-10 | wallets, pendingRequests and useSyncApprovals are always present, and read {}, {} and true unless stored |
| StateManagement.SnapStore.Get | packages/snap/src/stateManagement.ts:18-21 | the 'get' operation returns the stored object (or null) |
| StateManagement.SnapStore.Update | packages/snap/src/stateManagement.ts:37-40 | the 'update' operation makes the host hold exactly the new state |
| StateManagement.GetState | packages/snap/src/stateManagement.ts:17-29 | returns the merged state of what the host holds and changes nothing |
| StateManagement.SaveState | packages/snap/src/stateManagement.ts:36-41 | the host afterwards holds exactly the given state |
| Utils.HexToArrayBuffer | packages/snap/src/utils.ts:4-20 | a non-string is a TypeError; an odd length is a RangeError; otherwise the buffer has half the input's length and byte k is pair k read by `parseInt(…, 16)` as a byte (empty input gives an empty buffer) |
| Utils.HexPairValue | packages/snap/src/utils.ts:16 | `parseInt` reads two hex digits as the two-digit hex number they spell |
| Utils.HexDigitsDecode | packages/snap/src/utils.ts:15-17 | when every character is a hex digit, byte k is 16 × digit(2k) + digit(2k+1) |
| Utils.DecodeInvertsHexEncode | packages/snap/src/utils.ts:13-19 | decoding the lower-case hex text of any byte sequence gives back the same bytes |
| EthLib.HexEncode | packages/snap/src/keyring2.ts:144 | `toString('hex')` gives two lower-case hex digits per byte |
| EthLib.SelectTypedDataVersion | packages/snap/src/transactionManagementOperation.ts:82-91 | `opts.version` when it is one of V1, V3, V4; V1 otherwise; undefined or null `opts` throws |
| Keyring2.GeneratePrivateKey | packages/snap/src/keyring2.ts:138-145 | the private key is 64 lower-case hex digits that decode to the 32 random bytes; the address is derived from those bytes |
| Keyring2.SimpleKeyringSnap2.constructor | packages/snap/src/keyring2.ts:70-73 | both records start empty |
| Keyring2.SimpleKeyringSnap2.ListAccounts | packages/snap/src/keyring2.ts:75-77 | as many accounts as wallets; the account at each position is the one stored in a distinct wallet, and every wallet is listed |
| Keyring2.SimpleKeyringSnap2.GetAccount | packages/snap/src/keyring2.ts:79-81 | the stored account for a known id, undefined (None) for an unknown one |
| Keyring2.SimpleKeyringSnap2.CreateAccount | packages/snap/src/keyring2.ts:83-103 | exactly one wallet is stored under the new id and all other wallets and the requests are unchanged; the account has the caller's name, chains and options, capabilities [sign], type eip155:eoa, and the generated address |
| Keyring2.SimpleKeyringSnap2.UpdateAccount | packages/snap/src/keyring2.ts:105-107 | always fails with 'Method not implemented.' and changes nothing |
| Keyring2.SimpleKeyringSnap2.DeleteAccount | packages/snap/src/keyring2.ts:109-112 | removes only that id (a missing id is a no-op) and leaves the requests alone |
| Keyring2.SimpleKeyringSnap2.ExportAccount | packages/snap/src/keyring2.ts:114-116 | always fails with 'Method not implemented.' and changes nothing |
| Keyring2.SimpleKeyringSnap2.ListRequests | packages/snap/src/keyring2.ts:118-120 | always fails with 'Method not implemented.' and changes nothing |
| Keyring2.SimpleKeyringSnap2.GetRequest | packages/snap/src/keyring2.ts:122-124 | always fails with 'Method not implemented.' and changes nothing |
| Keyring2.SimpleKeyringSnap2.SubmitRequest | packages/snap/src/keyring2.ts:126-128 | always fails with 'Method not implemented.' and changes nothing |
| Keyring2.SimpleKeyringSnap2.ApproveRequest | packages/snap/src/keyring2.ts:130-132 | always fails with 'Method not implemented.' and changes nothing |
| Keyring2.SimpleKeyringSnap2.RejectRequest | packages/snap/src/keyring2.ts:134-136 | removes only that request id (a missing id is a no-op) and leaves the wallets alone |
| Util.Defined | packages/snap/src/util.ts:20-24 | keeps exactly the keys whose value is not undefined, with their values |
| Util.DeleteUndefined | packages/snap/src/util.ts:20-24 | the loop over the entries leaves exactly the defined entries |
| Util.Serialized | packages/snap/src/util.ts:13-27 | the specification of serializing a transaction: no undefined value; `type` present iff the given type is defined, and then equal to it; every other defined field of the tx kept with its value; no other keys |
| Util.SerializeTransaction | packages/snap/src/util.ts:13-27 | the loop's result is `Serialized(tx, type)`: no undefined value; `type` equals the argument, overriding the tx's own; every other defined field of the tx kept unchanged; no other keys |
| Util.FindByAddress | packages/snap/src/util.ts:37 | the first wallet whose account address equals the address exactly, or none |
| Util.IsUniqueAddress | packages/snap/src/util.ts:36-38 | true iff no wallet's account address equals the address (case-sensitive) |
| Util.IsEvmChain | packages/snap/src/util.ts:46-48 | true iff the chain id starts with 'eip155:' |
| Util.EvmChainNamespace | packages/snap/src/util.ts:40-48 | a CAIP-2 chain id `namespace:reference` is an EVM chain iff its namespace is eip155 |
| Util.ThrowError | packages/snap/src/util.ts:55-57 | always fails with exactly the given message |
| Util.RunSensitive | packages/snap/src/util.ts:70-79 | the callback's result on success; on failure the given message, or 'An unexpected error occurred', never the original error |
| AccountManagement.IsCaipAccount | packages/snap/src/accountManagement.ts:73-80 | splitting at ':' gives exactly three parts of the namespace, reference and address shapes |
| AccountManagement.CaipAccountMatches | packages/snap/src/accountManagement.ts:73-80 | a string the `split` check accepts is split by its first two colons into parts the regular expression's three groups match |
| AccountManagement.CaipAccountIffRegex | packages/snap/src/accountManagement.ts:73-80 | the check accepts exactly the strings `[-a-z0-9]{3,8}:[-a-zA-Z0-9]{1,32}:[-.%a-zA-Z0-9]{1,128}` matches, in both directions |
| AccountManagement.AccountKey | packages/snap/src/accountManagement.ts:56-62 | a CAIP-10 id is looked up under its address group; any other string under itself |
| AccountManagement.Eip155KeyIsAddress | packages/snap/src/accountManagement.ts:57-59 | the id `eip155:1:<address>` is looked up under `<address>` |
| AccountManagement.StoredAccountEntry | packages/snap/src/accountManagement.ts:59-61 | reading `accounts[key]` throws iff the state's accounts are undefined or null, and otherwise yields the stored entry |
| AccountManagement.GetPrivateKeyByAddress | packages/snap/src/accountManagement.ts:53-69 | a TypeError exactly when the state has no accounts object (as in the default state); otherwise fails with 'Unknown address' iff the entry under the lookup key is missing or empty; on success returns its address argument, not the stored key |
| AccountManagement.CreateAccount | packages/snap/src/accountManagement.ts:19-31 | the account is 'eip155:1:' + derived address; the private key is 64 lower-case hex digits that decode to the random bytes |
| AccountManagement.UpsertedState | packages/snap/src/accountManagement.ts:36-48 | the old state with `accounts[account.account]` set to the private key; every other account and every other field unchanged |
| AccountManagement.UpsertAccount | packages/snap/src/accountManagement.ts:36-48 | the host afterwards holds the upserted state of what it held |
| AccountManagement.UpsertThenLookupFails | packages/snap/src/accountManagement.ts:43 | after upsertAccount stores `eip155:1:<address>`, looking that id up fails with 'Unknown address' from every host state that does not already hold a truthy entry under the bare address (the entry the upsert did not write), and succeeds only when it does |
| AccountManagement.UpsertedStateByLookupKey | packages/snap/src/accountManagement.ts:39-45 | the corrected update: the private key is stored under the lookup key of the id; every other account entry and every other state field is kept |
| AccountManagement.UpsertByLookupKeyThenLookupSucceeds | packages/snap/src/accountManagement.ts:53-69 | after the corrected update, looking the id up succeeds |
| TransactionOps.MessageDropsPrefix | packages/snap/src/transactionManagementOperation.ts:57 | a '0x'-prefixed request is decoded from the text after the prefix |
| TransactionOps.SignPersonalMessage | packages/snap/src/transactionManagementOperation.ts:48-75 | a failed lookup fails the call; otherwise the signature is returned iff it recovers to `from`, else the call fails with 'Signature verification failed for account "…" (got "…")' |
| TransactionOps.SignTypedData | packages/snap/src/transactionManagementOperation.ts:77-102 | succeeds iff `opts` is defined and the lookup succeeds; signs with the selected version |
| TransactionOps.TypedDataVersionChoice | packages/snap/src/transactionManagementOperation.ts:82-91 | V3 and V4 select themselves; every other or missing version selects V1 |
| TransactionOps.TxData | packages/snap/src/transactionManagementOperation.ts:34 | the signed data has `type` = `chainOpts.type` and every other field of the tx |
| TransactionOps.SerializeTransaction | packages/snap/src/transactionManagementOperation.ts:104-121 | the loop's result is `Util.Serialized(tx, chainOpts.type)`: `type` = `chainOpts.type` (removed when undefined); no undefined value; every other defined field kept; no other keys |
| TransactionOps.SignTransaction | packages/snap/src/transactionManagementOperation.ts:16-46 | the key is looked up by `from.toLowerCase()`; undefined chainOpts throws; the result is what `serializeTransaction` returns for the signed JSON (`Util.Serialized` with `chainOpts.type`): the type forced to `chainOpts.type`, no undefined value, and exactly the defined fields of the signed JSON with their values |
| TransactionOps.SignTransactionIgnoresCase | packages/snap/src/transactionManagementOperation.ts:21 | signing for `from` and for its lower-cased form gives the same result |
| Keyring.PersistedState | packages/snap/src/keyring.ts:34-39 | the saved state has exactly the accounts and pendingRequests records |
| Keyring.IdentityRecord | packages/snap/src/keyring.ts:52-58 | the reduce maps exactly the listed ids, each to itself |
| Keyring.KeyringLookup | packages/snap/src/keyring.ts:207-223 | throws iff the state has no accounts object; otherwise the truthy entry under the lookup key, or 'Unknown address' |
| Keyring.LookupBeforePersistThrows | packages/snap/src/keyring.ts:208-215 | with nothing persisted every lookup throws a TypeError |
| Keyring.LookupAfterPersist | packages/snap/src/keyring.ts:207-223 | after persisting, a lookup finds exactly the non-empty keys persisted |
| Keyring.ChooseHardfork | packages/snap/src/keyring.ts:246-254 | London iff maxPriorityFeePerGas or maxFeePerGas is truthy, Istanbul otherwise; an undefined tx throws |
| Keyring.SliceTwo | packages/snap/src/keyring.ts:274 | strings and arrays lose their first two elements, and one shorter than two becomes empty; other values throw |
| Keyring.SignPersonalMessage | packages/snap/src/keyring.ts:268-292 | signs with the key found; the signature is returned iff it recovers to `from`, else the verification message |
| Keyring.SignTransaction | packages/snap/src/keyring.ts:236-266 | the key is looked up by lower-cased `from`; signed with the hardfork choice; the result is `Util.Serialized` of the signed JSON with the signed tx's own type: that type, no undefined values, and every other defined field of the signed JSON with its value |
| Keyring.SignTypedData | packages/snap/src/keyring.ts:294-319 | succeeds iff `opts` is defined and the lookup succeeds; signs with the selected version |
| Keyring.ReadApprovalArgs | packages/snap/src/keyring.ts:140-153 | a truthy stored request supplies [data, address, chainOpts]; otherwise the payload supplies [address, data, chainOpts] |
| Keyring.Route | packages/snap/src/keyring.ts:157-172 | each of the four method names reaches its signer; anything else fails with 'Invalid Approval Method.' |
| Keyring.Approve | packages/snap/src/keyring.ts:140-173 | reading the arguments, then routing them |
| Keyring.ApprovalStoredParamOrder | packages/snap/src/keyring.ts:145-159 | a stored personal_sign request signs params[0] for the address params[1] |
| Keyring.ApprovalPayloadParamOrder | packages/snap/src/keyring.ts:150-159 | a personal_sign payload with no stored request signs params[1] for the address params[0] |
| Keyring.SimpleKeyringSnap.constructor | packages/snap/src/keyring.ts:29-32 | both records come from the given state |
| Keyring.SimpleKeyringSnap.PersistKeyring | packages/snap/src/keyring.ts:34-39 | the host holds both records |
| Keyring.SimpleKeyringSnap.Serialize | packages/snap/src/keyring.ts:41-46 | every account key exactly once, and the pending requests unchanged |
| Keyring.SimpleKeyringSnap.Deserialize | packages/snap/src/keyring.ts:48-60 | accounts become the ids mapped to themselves, duplicates collapsed; pending requests replaced |
| Keyring.SimpleKeyringSnap.DeserializeThenSerialize | packages/snap/src/keyring.ts:41-60 | serialize after deserialize(xs) lists the elements of xs, each once |
| Keyring.SimpleKeyringSnap.HandleSubmitRequest | packages/snap/src/keyring.ts:71-76 | stores `request.params` under its id, overwriting that id only, and persists; missing params throw and change nothing |
| Keyring.SimpleKeyringSnap.HandleSetState | packages/snap/src/keyring.ts:85-97 | both records replaced by the given state and persisted |
| Keyring.SimpleKeyringSnap.HandleGetState | packages/snap/src/keyring.ts:104-108 | the merged host state |
| Keyring.SimpleKeyringSnap.CreateAccount | packages/snap/src/keyring.ts:175-205 | fails with 'Account already exists' iff the address's entry is truthy, changing nothing; otherwise adds exactly address → hex key, persists, and returns 'eip155:1:' + address with the lower-cased address; that id finds the key again |
| Keyring.SimpleKeyringSnap.HandleManageAccounts | packages/snap/src/keyring.ts:118-133 | 'create' maps the address derived from the random key to its hex text, persists both records and relays ['create', lower-cased address]; it fails with 'Account already exists' iff that address already holds a key; any other method fails with 'Invalid method.'; every failure changes nothing |
| Keyring.SimpleKeyringSnap.HandleApproveRequest | packages/snap/src/keyring.ts:140-173 | approves against the merged host state and changes nothing, so the pending request stays |
| Logging.DefaultLevel | packages/snap/src/logger.ts:29-33 | DEBUG iff NODE_ENV is 'development', WARN otherwise |
| Logging.EmitsUpward | packages/snap/src/logger.ts:80 | a level that passes the threshold passes at every higher level |
| Logging.ThresholdFacts | packages/snap/src/logger.ts:29-46 | ERROR always passes a set threshold; by default outside development DEBUG and INFO are dropped and WARN passes; in development everything passes |
| Logging.Logger.constructor | packages/snap/src/logger.ts:51-56 | a fresh context holding each supplied field and the default for each missing one |
| Logging.Logger.SetLevel | packages/snap/src/logger.ts:63-65 | the threshold becomes the level; the handlers stay |
| Logging.Logger.Log | packages/snap/src/logger.ts:74-83 | the handler of the level is called iff level ≥ threshold; otherwise nothing is emitted |
| Logging.Logger.Debug | packages/snap/src/logger.ts:91-93 | logs at level 0 |
| Logging.Logger.Info | packages/snap/src/logger.ts:101-103 | logs at level 1 |
| Logging.Logger.Warn | packages/snap/src/logger.ts:111-113 | logs at level 2 |
| Logging.Logger.Error | packages/snap/src/logger.ts:121-123 | logs at level 3 |
| Logging.SetLevelIsPerLogger | packages/snap/src/logger.ts:51-65 | setLevel on one logger leaves another at its own threshold |
| Logging.DefaultLoggerFilters | packages/snap/src/logger.ts:38-46 | a default logger outside development drops DEBUG and prints ERROR through console.error |
| Permissions.ParseMethod | packages/snap/src/permissions.ts:1-32 | the enum member with a given string value |
| Permissions.ParseValue | packages/snap/src/permissions.ts:1-32 | parsing a member's value gives back that member |
| Permissions.ValuesDistinct | packages/snap/src/permissions.ts:1-32 | all enum string values are distinct |
| Permissions.ThreeOrigins | packages/snap/src/permissions.ts:34-88 | the table has exactly the origins metamask, http://localhost:8000 and https://metamask.github.io |
| Permissions.NoRepeatedMethod | packages/snap/src/permissions.ts:34-88 | no origin's list repeats a method |
| Permissions.MetamaskRights | packages/snap/src/permissions.ts:35-47 | metamask may call keyring_submitRequest but not keyring_getAccount, keyring_exportAccount or any internal method |
| Permissions.DappOriginsAgree | packages/snap/src/permissions.ts:48-87 | the localhost and github.io lists are identical and contain neither keyring_submitRequest nor keyring_getRequest |
| SnapIndex.HasPermission | packages/snap/src/index.ts:23-25 | true iff the origin is in the table and its list contains the method |
| SnapIndex.UnknownOriginHasNoPermission | packages/snap/src/index.ts:23-25 | an origin missing from the table may call nothing |
| SnapIndex.GetStatePermissions | packages/snap/src/index.ts:23-25 | the two dapp origins may call getState; metamask may not |
| SnapIndex.LoggerHandler | packages/snap/src/index.ts:35-41 | always fails with MethodNotSupportedError for the request's method |
| SnapIndex.PermissionsHandler | packages/snap/src/index.ts:52-60 | never returns; 'origin <origin> cannot call method <method>' iff not permitted, MethodNotSupportedError iff permitted |
| SnapIndex.CustomHandler | packages/snap/src/index.ts:86-113 | Hello shows the dialog, GetState returns the merged state, any other method fails with MethodNotSupportedError |
| SnapIndex.Snap.KeyringHandler | packages/snap/src/index.ts:69-77 | builds a new empty keyring only when none exists, and reuses the existing one otherwise |
| SnapIndex.KeyringIsShared | packages/snap/src/index.ts:69-77 | two requests in a row are served by the same keyring |

## Left out

- Cryptography and the Ethereum libraries are uninterpreted functions in `EthLib`. This covers address derivation, personal and typed-data signing, signature recovery, `Common.custom` plus `TransactionFactory` signing, and `Buffer.from(value, 'hex')`. Their internals and any exceptions they throw are not modelled.
- Random bytes (`crypto.getRandomValues`) and ids (`uuid()`) are arguments. `Keyring2.SimpleKeyringSnap2.CreateAccount` therefore takes the new id as given and does not require it to be fresh.
- Host I/O (`snap_manageState`) is the `SnapStore` object. The `snap_manageAccounts` relay is modelled as the parameter list it sends. The `snap_dialog` alert is modelled as the reply `DialogShown`. The host's answers to both are not modelled.
- `buildHandlersChain` and `keyringRpcDispatcher` are library code and are not part of this model. So the chain order of the handlers and the dispatch of keyring methods to `SimpleKeyringSnap2` are not modelled. `SnapIndex.Snap.KeyringHandler` covers only the lazy construction.
- `console.log` calls and `logRequest` are not modelled. Logger handlers are named output channels that append to `Console.lines`. A caller-supplied handler is modelled the same way.
- async/await is modelled as sequential steps.
- JavaScript numbers are integers. Floating point, NaN in a stored field and `type` values that are not integers are not modelled.
- `toLowerCase` is modelled on ASCII letters only.
- Utils.HexToArrayBuffer: string length counts characters, while JavaScript's `length` counts UTF-16 code units. For input holding characters outside the Basic Multilingual Plane, the parity test and the buffer length differ from the source.
- Keyring.SliceTwo: `slice(2)` drops two characters, not two UTF-16 code units, so it differs from the source on strings that start with a character outside the Basic Multilingual Plane.
- TransactionOps.DropTwo: `slice(2)` is modelled on characters, not UTF-16 code units, with the same difference as `Keyring.SliceTwo`.
- The order of object keys is not modelled. `Keyring2.SimpleKeyringSnap2.ListAccounts` and `Keyring.SimpleKeyringSnap.Serialize` return each key once, in an unspecified order.
- Property reads are modelled on own data properties only. Reading `length`, an index of a string or array, or a prototype property gives undefined in this model.
- Spreading a string or array is modelled as spreading `{}`. Only the account lookup uses a non-string as a property key, through `String(v)`.
- The keyring constructor and `handleSetState` take a typed `KeyringState`: account keys are strings. Aliasing between the caller's state object and the keyring's records is not modelled.
- The keyring.ts `#createAccount` path with a given `privateKeyHex` passes it to `Buffer.from` unchecked, as in the source. A non-string there is not modelled.
- `Keyring2.SimpleKeyringSnap2.CreateAccount` treats `options` as any JSON value. That includes undefined, which the source allows.
- The commented-out block at packages/snap/src/keyring2.ts:147-407 is dead code and is not modelled.
- The `packages/site` package and the build and configuration scripts are not part of this model.

## Findings

| source | as written | input that shows it | evidently intended | confidence | as-written member | corrected member |
|---|---|---|---|---|---|---|
| packages/snap/src/accountManagement.ts:43 | `upsertAccount` stores the key under the full CAIP-10 id. `getPrivateKeyByAddress` looks a CAIP-10 id up under its address group (lines 57-59). | Start from any host with no truthy entry under `0xab`, for example an empty one. Upsert `{account: 'eip155:1:0xab', privateKey: 'k'}`, then call `getPrivateKeyByAddress('eip155:1:0xab')`. It fails with 'Unknown address'. | An account that was stored can be found again under its id. | medium, not executed | AccountManagement.UpsertThenLookupFails | AccountManagement.UpsertByLookupKeyThenLookupSucceeds |
