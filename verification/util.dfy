/** packages/snap/src/util.ts: transaction serialisation and small checks used
    by the keyring. The loop that deletes undefined-valued keys is written
    once here (`DeleteUndefined`); keyring.ts and
    transactionManagementOperation.ts repeat the same loop. */
module Util {
  import opened Wrappers
  import opened Js
  import Keyring2

  /** The record with every undefined-valued key removed. */
  function Defined(m: map<string, Json>): (r: map<string, Json>)
    ensures forall k :: k in r ==> r[k] != Undefined
    ensures forall k :: k in r <==> k in m && m[k] != Undefined
    ensures forall k :: k in r ==> r[k] == m[k]
  {
    map k | k in m && m[k] != Undefined :: m[k]
  }

  /** What `serializeTransaction` returns for a transaction and a type: the
      record with `type` set to the given value and every undefined-valued key
      removed, so `type` is present exactly when the value is defined, every
      other defined field keeps its value, and no other key appears. */
  function Serialized(tx: map<string, Json>, txType: Json): (r: map<string, Json>)
    ensures forall k :: k in r ==> r[k] != Undefined
    ensures "type" in r <==> txType != Undefined
    ensures "type" in r ==> r["type"] == txType
    ensures forall k :: k != "type" ==> (k in r <==> k in tx && tx[k] != Undefined)
    ensures forall k :: k in r && k != "type" ==> r[k] == tx[k]
  {
    Defined(tx["type" := txType])
  }

  /** `Object.entries(record).forEach(([key]) => { if (record[key] === undefined) delete record[key]; })` */
  method DeleteUndefined(record: map<string, Json>) returns (r: map<string, Json>)
    ensures r == Defined(record)
  {
    r := record;
    var entries := record.Keys;
    while entries != {}
      invariant entries <= record.Keys
      invariant forall k :: k in r <==> k in record && (k in entries || record[k] != Undefined)
      invariant forall k :: k in r ==> r[k] == record[k]
      decreases entries
    {
      var key :| key in entries;
      if r[key] == Undefined {
        r := r - {key};
      }
      entries := entries - {key};
    }
  }

  /** `serializeTransaction(tx, type)`: the fields of `tx` that are defined,
      with `type` set to the argument (overriding any `type` in `tx`), and no
      key whose value is undefined. Undefined keys are deleted, not set to null. */
  method SerializeTransaction(tx: map<string, Json>, txType: int) returns (r: map<string, Json>)
    ensures r == Serialized(tx, Num(txType))
    ensures forall k :: k in r ==> r[k] != Undefined
    ensures "type" in r && r["type"] == Num(txType)
    ensures forall k :: k in tx && k != "type" && tx[k] != Undefined ==> k in r && r[k] == tx[k]
    ensures forall k :: k in r && k != "type" ==> k in tx && r[k] == tx[k]
  {
    r := DeleteUndefined(tx["type" := Num(txType)]);
  }

  /** `wallets.find((wallet) => wallet.account.address === address)`. */
  function FindByAddress(address: string, wallets: seq<Keyring2.Wallet>): (r: Option<nat>)
    ensures r.Some? ==> r.value < |wallets| && wallets[r.value].account.address == address
    ensures r.Some? ==> forall j :: 0 <= j < r.value ==> wallets[j].account.address != address
    ensures r.None? ==> forall j :: 0 <= j < |wallets| ==> wallets[j].account.address != address
  {
    if wallets == [] then None
    else if wallets[0].account.address == address then Some(0)
    else
      match FindByAddress(address, wallets[1..])
      case None => None
      case Some(i) => Some(i + 1)
  }

  /** `isUniqueAddress(address, wallets)`: true iff no wallet's account has
      exactly this address (the comparison is case-sensitive). */
  function IsUniqueAddress(address: string, wallets: seq<Keyring2.Wallet>): (r: bool)
    ensures r <==> forall w :: w in wallets ==> w.account.address != address
  {
    FindByAddress(address, wallets).None?
  }

  const EvmPrefix := "eip155:"

  /** `isEvmChain(chain)`: `chain.startsWith('eip155:')`. */
  function IsEvmChain(chain: string): (r: bool)
    ensures r <==> |chain| >= 7 && chain[..7] == "eip155:"
  {
    EvmPrefix <= chain
  }

  /** For a CAIP-2 chain id `namespace:reference`, the chain is an EVM chain
      exactly when the namespace is eip155. */
  lemma EvmChainNamespace(namespace: string, reference: string)
    requires ':' !in namespace
    ensures IsEvmChain(namespace + ":" + reference) <==> namespace == "eip155"
  {
    var chain := namespace + ":" + reference;
    if IsEvmChain(chain) {
      assert chain[|namespace|] == ':';
      assert chain[6] == ':';
      assert forall i :: 0 <= i < 6 ==> chain[i] == EvmPrefix[i] != ':';
      assert forall i :: 0 <= i < |namespace| ==> chain[i] == namespace[i] != ':';
      assert namespace == chain[..6];
    }
  }

  /** `throwError(message)`: always fails with exactly that message. */
  function ThrowError<T>(message: string): (r: Result<T>)
    ensures r.Err? && r.error == Error(message)
  {
    Err(Error(message))
  }

  const UnexpectedError := "An unexpected error occurred"

  /** `runSensitive(callback, message)`: the callback's value on success; on
      failure a new error with `message`, or the generic text when no message
      is given, never the callback's own error. */
  function RunSensitive<T>(callback: () -> Result<T>, message: Option<string>): (r: Result<T>)
    ensures callback().Ok? ==> r == callback()
    ensures callback().Err? ==> r == Err(Error(message.GetOr(UnexpectedError)))
  {
    match callback()
    case Ok(v) => Ok(v)
    case Err(_) => Err(Error(message.GetOr(UnexpectedError)))
  }
}
