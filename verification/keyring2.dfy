/** packages/snap/src/keyring2.ts: `SimpleKeyringSnap2`, the keyring iteration
    that follows the keyring API. It keeps wallets (account id -> account and
    hex private key) and requests (request id -> request) in two records that
    its methods change in place. Account ids come from `uuid()` and key
    material from `crypto.getRandomValues`; both are parameters here. */
module Keyring2 {
  import opened Wrappers
  import opened Js
  import opened EthLib
  import Utils

  datatype AccountCapability = Sign

  datatype AccountType = Eoa | Erc4337

  function AccountTypeName(t: AccountType): string {
    match t
    case Eoa => "eip155:eoa"
    case Erc4337 => "eip155:sca:erc4337"
  }

  datatype KeyringAccount = KeyringAccount(
    id: string,
    name: string,
    address: string,
    chains: seq<string>,
    options: Json,
    capabilities: seq<AccountCapability>,
    accountType: AccountType)

  datatype KeyringRequest = KeyringRequest(account: string, scope: string, request: Json)

  datatype Wallet = Wallet(account: KeyringAccount, privateKey: string)

  datatype GeneratedKey = GeneratedKey(privateKey: string, address: string)

  const NotImplemented := "Method not implemented."

  /** `#generatePrivateKey()` over the 32 random bytes it draws: the private
      key is their hex text, 64 lower-case hex digits that decode back to
      the same bytes, and the address is derived from those bytes. */
  function GeneratePrivateKey(random: seq<uint8>, lib: EthLib): (k: GeneratedKey)
    requires |random| == 32
    ensures |k.privateKey| == 64
    ensures forall i :: 0 <= i < |k.privateKey| ==> k.privateKey[i] in HexDigits
    ensures Utils.DecodedBytes(k.privateKey) == random
    ensures k.address == lib.addressFromPrivateKey(random)
  {
    Utils.DecodeInvertsHexEncode(random);
    GeneratedKey(HexEncode(random), lib.addressFromPrivateKey(random))
  }

  class SimpleKeyringSnap2 {
    var wallets: map<string, Wallet>
    var requests: map<string, KeyringRequest>

    constructor()
      ensures wallets == map[] && requests == map[]
    {
      wallets := map[];
      requests := map[];
    }

    /** `listAccounts()`: one account per wallet, the one stored in it, in the
        order `ids` of the wallets' keys. */
    method ListAccounts() returns (accounts: seq<KeyringAccount>, ghost ids: seq<string>)
      ensures |accounts| == |ids|
      ensures |accounts| == |wallets.Keys|
      ensures forall i, j :: 0 <= i < j < |ids| ==> ids[i] != ids[j]
      ensures forall id :: id in wallets <==> id in ids
      ensures forall i :: 0 <= i < |ids| ==> ids[i] in wallets && accounts[i] == wallets[ids[i]].account
    {
      var w := wallets;
      var keys := ObjectKeys(w);
      accounts := seq(|keys|, i requires 0 <= i < |keys| => w[keys[i]].account);
      ids := keys;
    }

    /** `getAccount(id)`: the stored account, or undefined for an unknown id. */
    method GetAccount(id: string) returns (r: Option<KeyringAccount>)
      ensures r.Some? <==> id in wallets
      ensures r.Some? ==> r.value == wallets[id].account
    {
      r := if id in wallets then Some(wallets[id].account) else None;
    }

    /** `createAccount(name, chains, options)`: stores one wallet under the new
        account's id and leaves every other wallet and the requests alone.
        The id is not checked against existing ones. */
    method CreateAccount(name: string, chains: seq<string>, options: Json,
                         newId: string, random: seq<uint8>, lib: EthLib)
      returns (account: KeyringAccount)
      requires |random| == 32
      modifies this
      ensures var k := GeneratePrivateKey(random, lib);
        && account == KeyringAccount(newId, name, k.address, chains, options, [Sign], Eoa)
        && wallets == old(wallets)[newId := Wallet(account, k.privateKey)]
      ensures requests == old(requests)
      ensures newId !in old(wallets) ==> |wallets| == |old(wallets)| + 1
    {
      var k := GeneratePrivateKey(random, lib);
      account := KeyringAccount(newId, name, k.address, chains, options, [Sign], Eoa);
      wallets := wallets[account.id := Wallet(account, k.privateKey)];
    }

    method UpdateAccount(account: KeyringAccount) returns (r: Outcome)
      ensures r == Fail(Error(NotImplemented))
    {
      r := Fail(Error(NotImplemented));
    }

    /** `deleteAccount(id)`: removes that wallet only; a missing id is a no-op. */
    method DeleteAccount(id: string) returns (r: Outcome)
      modifies this
      ensures r == Pass
      ensures wallets == old(wallets) - {id}
      ensures requests == old(requests)
    {
      wallets := wallets - {id};
      r := Pass;
    }

    method ExportAccount(id: string) returns (r: Result<map<string, Json>>)
      ensures r == Err(Error(NotImplemented))
    {
      r := Err(Error(NotImplemented));
    }

    method ListRequests() returns (r: Result<seq<KeyringRequest>>)
      ensures r == Err(Error(NotImplemented))
    {
      r := Err(Error(NotImplemented));
    }

    method GetRequest(id: string) returns (r: Result<KeyringRequest>)
      ensures r == Err(Error(NotImplemented))
    {
      r := Err(Error(NotImplemented));
    }

    method SubmitRequest(request: KeyringRequest) returns (r: Outcome)
      ensures r == Fail(Error(NotImplemented))
    {
      r := Fail(Error(NotImplemented));
    }

    method ApproveRequest(id: string) returns (r: Outcome)
      ensures r == Fail(Error(NotImplemented))
    {
      r := Fail(Error(NotImplemented));
    }

    /** `rejectRequest(id)`: removes that request only and leaves the wallets
        alone; a missing id is a no-op. */
    method RejectRequest(id: string) returns (r: Outcome)
      modifies this
      ensures r == Pass
      ensures requests == old(requests) - {id}
      ensures wallets == old(wallets)
    {
      requests := requests - {id};
      r := Pass;
    }
  }
}
