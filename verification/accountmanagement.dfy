/** packages/snap/src/accountManagement.ts: account creation, the state update
    that stores an account, private-key lookup by address and the CAIP-10
    account id check. The CAIP-10 check (also a method of the keyring class
    in keyring.ts) and the address lookup are defined here once.

    CAIP-10 account ids are `namespace:reference:address`; the check accepts
    exactly `^[-a-z0-9]{3,8}:[-a-zA-Z0-9]{1,32}:[-.%a-zA-Z0-9]{1,128}$`. */
module AccountManagement {
  import opened Wrappers
  import opened Js
  import opened EthLib
  import opened StateManagement
  import Utils

  predicate IsDigit(c: char) { '0' <= c <= '9' }
  predicate IsLower(c: char) { 'a' <= c <= 'z' }
  predicate IsUpper(c: char) { 'A' <= c <= 'Z' }

  predicate NamespaceChar(c: char) { c == '-' || IsLower(c) || IsDigit(c) }
  predicate ReferenceChar(c: char) { c == '-' || IsLower(c) || IsUpper(c) || IsDigit(c) }
  predicate AddressChar(c: char) { c == '-' || c == '.' || c == '%' || IsLower(c) || IsUpper(c) || IsDigit(c) }

  /** `[-a-z0-9]{3,8}` */
  predicate IsNamespace(t: string) {
    3 <= |t| <= 8 && forall i :: 0 <= i < |t| ==> NamespaceChar(t[i])
  }

  /** `[-a-zA-Z0-9]{1,32}` */
  predicate IsReference(t: string) {
    1 <= |t| <= 32 && forall i :: 0 <= i < |t| ==> ReferenceChar(t[i])
  }

  /** `[-.%a-zA-Z0-9]{1,128}` */
  predicate IsAccountAddress(t: string) {
    1 <= |t| <= 128 && forall i :: 0 <= i < |t| ==> AddressChar(t[i])
  }

  /** The regular expression matches `s` with its two separators at i and j. */
  predicate CaipSplitAt(s: string, i: int, j: int) {
    && 0 <= i < j < |s|
    && s[i] == ':' && s[j] == ':'
    && IsNamespace(s[..i]) && IsReference(s[i + 1..j]) && IsAccountAddress(s[j + 1..])
  }

  /** The CAIP-10 regular expression matches `s`. */
  ghost predicate MatchesCaip10(s: string) {
    exists i, j :: CaipSplitAt(s, i, j)
  }

  /** The index of the first `c` in `s`, or |s| when there is none. */
  function IndexOf(s: string, c: char): (i: nat)
    ensures i <= |s|
    ensures i < |s| ==> s[i] == c
    ensures forall k :: 0 <= k < i ==> s[k] != c
  {
    if |s| == 0 || s[0] == c then 0 else 1 + IndexOf(s[1..], c)
  }

  /** `s.split(c)` for a one-character separator. */
  function Split(s: string, c: char): (parts: seq<string>)
    ensures |parts| >= 1
    decreases |s|
  {
    var i := IndexOf(s, c);
    if i == |s| then [s] else [s[..i]] + Split(s[i + 1..], c)
  }

  /** `isCaipAccount(caip10Account)` on a string: three colon-separated parts
      of the CAIP-10 shapes. */
  function IsCaipAccount(s: string): bool {
    var parts := Split(s, ':');
    |parts| == 3 && IsNamespace(parts[0]) && IsReference(parts[1]) && IsAccountAddress(parts[2])
  }

  /** `isCaipAccount(value)`: also checks `typeof value === 'string'`. */
  predicate IsCaipAccountValue(v: Json) {
    v.Str? && IsCaipAccount(v.s)
  }

  lemma {:induction false} IndexOfFirst(s: string, c: char, i: nat)
    requires i <= |s|
    requires i < |s| ==> s[i] == c
    requires forall k :: 0 <= k < i ==> s[k] != c
    ensures IndexOf(s, c) == i
  {
    if |s| > 0 && s[0] != c {
      IndexOfFirst(s[1..], c, i - 1);
    }
  }

  /** When the regular expression matches at i and j, the split has exactly
      the three groups as its parts. */
  lemma SplitAtSeparators(s: string, i: int, j: int)
    requires CaipSplitAt(s, i, j)
    ensures Split(s, ':') == [s[..i], s[i + 1..j], s[j + 1..]]
  {
    assert forall k :: 0 <= k < i ==> s[k] == s[..i][k];
    IndexOfFirst(s, ':', i);
    var rest := s[i + 1..];
    assert Split(s, ':') == [s[..i]] + Split(rest, ':');
    assert rest[..j - i - 1] == s[i + 1..j];
    assert forall k :: 0 <= k < j - i - 1 ==> rest[k] == s[i + 1..j][k];
    IndexOfFirst(rest, ':', j - i - 1);
    var last := rest[j - i..];
    assert Split(rest, ':') == [rest[..j - i - 1]] + Split(last, ':');
    assert last == s[j + 1..];
    assert forall k :: 0 <= k < |last| ==> last[k] == s[j + 1..][k];
    IndexOfFirst(last, ':', |last|);
    assert Split(last, ':') == [last];
  }

  /** A string the `split` check accepts is split at its first two colons
      into the parts the regular expression's groups match. */
  lemma {:induction false} CaipAccountMatches(s: string)
    requires IsCaipAccount(s)
    ensures MatchesCaip10(s)
  {
    var parts := Split(s, ':');
    var i := IndexOf(s, ':');
    assert i < |s|;
    var rest := s[i + 1..];
    assert parts == [s[..i]] + Split(rest, ':');
    var i2 := IndexOf(rest, ':');
    assert i2 < |rest|;
    var last := rest[i2 + 1..];
    assert Split(rest, ':') == [rest[..i2]] + Split(last, ':');
    assert |Split(last, ':')| == 1;
    assert IndexOf(last, ':') == |last|;
    assert parts[1] == rest[..i2] && parts[2] == last;
    var j := i + 1 + i2;
    assert s[i + 1..j] == rest[..i2];
    assert s[j + 1..] == last;
    assert CaipSplitAt(s, i, j);
  }

  /** The implementation via `split` accepts exactly the strings the CAIP-10
      regular expression matches. */
  lemma {:induction false} CaipAccountIffRegex(s: string)
    ensures IsCaipAccount(s) <==> MatchesCaip10(s)
  {
    if MatchesCaip10(s) {
      var i, j :| CaipSplitAt(s, i, j);
      SplitAtSeparators(s, i, j);
    }
    if IsCaipAccount(s) {
      CaipAccountMatches(s);
    }
  }

  /** A string the check accepts has the regular expression's address group
      as its third part. */
  lemma CaipAddressGroup(s: string)
    ensures IsCaipAccount(s) <==> MatchesCaip10(s)
    ensures forall i, j :: CaipSplitAt(s, i, j) ==> |Split(s, ':')| == 3 && Split(s, ':')[2] == s[j + 1..]
  {
    CaipAccountIffRegex(s);
    forall i, j | CaipSplitAt(s, i, j)
      ensures |Split(s, ':')| == 3 && Split(s, ':')[2] == s[j + 1..]
    {
      SplitAtSeparators(s, i, j);
    }
  }

  /** The key an address is looked up under: the address group of a CAIP-10
      id, and the value itself (as a property key) for anything else. */
  function AccountKey(address: Json): (key: string)
    ensures address.Str? && !MatchesCaip10(address.s) ==> key == address.s
    ensures forall i, j :: address.Str? && CaipSplitAt(address.s, i, j) ==> key == address.s[j + 1..]
  {
    CaipAddressGroup(if address.Str? then address.s else "");
    if IsCaipAccountValue(address) then Split(address.s, ':')[2] else ToJsString(address)
  }

  /** The id createAccount builds, `eip155:1:<address>`, is looked up under the
      address itself whenever the address fits the CAIP-10 address group. */
  lemma Eip155KeyIsAddress(address: string)
    requires IsAccountAddress(address)
    ensures AccountKey(Str("eip155:1:" + address)) == address
  {
    var s := "eip155:1:" + address;
    assert s[..6] == "eip155" && s[7..8] == "1" && s[9..] == address;
    assert CaipSplitAt(s, 6, 8);
  }

  /** `currentState.accounts`. */
  function AccountsField(state: map<string, Json>): Json {
    if "accounts" in state then state["accounts"] else Undefined
  }

  /** `currentState.accounts[key]`: throws when the state has no accounts object. */
  function StoredAccountEntry(state: map<string, Json>, key: string): (r: Result<Json>)
    ensures r.Err? <==> Nullish(AccountsField(state))
    ensures AccountsField(state).Obj? && key in AccountsField(state).fields ==> r == Ok(AccountsField(state).fields[key])
  {
    Get(AccountsField(state), key)
  }

  const UnknownAddress := "Unknown address"

  /** `getPrivateKeyByAddress(address)` over the state `getState` returned:
      fails with 'Unknown address' when the entry under the lookup key is
      missing or empty, and otherwise returns the ADDRESS it was given, not
      the stored key. */
  function GetPrivateKeyByAddress(address: string, state: map<string, Json>): (r: Result<string>)
    ensures r.Ok? ==> r.value == address
    ensures Nullish(AccountsField(state)) <==> r.Err? && r.error.RuntimeTypeError?
    ensures !Nullish(AccountsField(state)) ==>
      (r == Err(Error(UnknownAddress)) <==> !Truthy(StoredAccountEntry(state, AccountKey(Str(address))).value))
    ensures !Nullish(AccountsField(state)) ==> r.Ok? || r == Err(Error(UnknownAddress))
  {
    var privateKey :- StoredAccountEntry(state, AccountKey(Str(address)));
    if !Truthy(privateKey) then Err(Error(UnknownAddress)) else Ok(address)
  }

  /** The account record accountManagement.ts creates and stores. */
  datatype AccountRecord = AccountRecord(account: string, privateKey: string)

  /** `createAccount()` over the 32 random bytes it draws: the account is
      `eip155:1:` followed by the derived address, the private key the 64
      lower-case hex digits of the bytes. */
  function CreateAccount(random: seq<uint8>, lib: EthLib): (a: AccountRecord)
    requires |random| == 32
    ensures a.account == "eip155:1:" + lib.addressFromPrivateKey(random)
    ensures |a.privateKey| == 64 && forall i :: 0 <= i < 64 ==> a.privateKey[i] in HexDigits
    ensures Utils.DecodedBytes(a.privateKey) == random
  {
    Utils.DecodeInvertsHexEncode(random);
    AccountRecord("eip155:1:" + lib.addressFromPrivateKey(random), HexEncode(random))
  }

  /** The state `upsertAccount(account)` saves: the state `getState` returned,
      with `accounts[account.account]` set to the private key. */
  function UpsertedState(stored: Option<map<string, Json>>, account: AccountRecord): (s: map<string, Json>)
    ensures "accounts" in s && s["accounts"].Obj?
    ensures var accounts := s["accounts"].fields;
      && account.account in accounts && accounts[account.account] == Str(account.privateKey)
      && forall k :: k in accounts && k != account.account ==>
           AccountsField(MergedState(stored)).Obj? && k in AccountsField(MergedState(stored)).fields
           && accounts[k] == AccountsField(MergedState(stored)).fields[k]
    ensures AccountsField(MergedState(stored)).Obj? ==>
      forall k :: k in AccountsField(MergedState(stored)).fields ==> k in s["accounts"].fields
    ensures forall k :: k != "accounts" ==> (k in s <==> k in MergedState(stored))
    ensures forall k :: k != "accounts" && k in s ==> s[k] == MergedState(stored)[k]
  {
    var current := MergedState(stored);
    current["accounts" := Obj(Spread(AccountsField(current))[account.account := Str(account.privateKey)])]
  }

  /** `upsertAccount(account)`: reads the state and saves it with the account added. */
  method UpsertAccount(host: SnapStore, account: AccountRecord)
    modifies host
    ensures host.stored == Some(UpsertedState(old(host.stored), account))
  {
    var current := GetState(host);
    var updated := current["accounts" := Obj(Spread(AccountsField(current))[account.account := Str(account.privateKey)])];
    SaveState(host, updated);
  }

  /** Whether the accounts object of the state `getState` returns already
      holds a truthy entry under `key`. */
  predicate HoldsEntry(stored: Option<map<string, Json>>, key: string) {
    var accounts := AccountsField(MergedState(stored));
    accounts.Obj? && key in accounts.fields && Truthy(accounts.fields[key])
  }

  /** An account stored by upsertAccount cannot be found again by
      getPrivateKeyByAddress: it is stored under its full CAIP-10 id, while a
      CAIP-10 id is looked up under its address group. After storing
      `eip155:1:<address>`, looking that id up succeeds exactly when the host
      already held a truthy entry under the bare address, which the upsert
      did not write; from any other host state it fails. */
  lemma {:induction false} UpsertThenLookupFails(stored: Option<map<string, Json>>, address: string, privateKey: string)
    requires IsAccountAddress(address)
    ensures var a := AccountRecord("eip155:1:" + address, privateKey);
      GetPrivateKeyByAddress(a.account, UpsertedState(stored, a))
        == if HoldsEntry(stored, address) then Ok(a.account) else Err(Error(UnknownAddress))
  {
    var a := AccountRecord("eip155:1:" + address, privateKey);
    var s := UpsertedState(stored, a);
    Eip155KeyIsAddress(address);
    assert |address| < |a.account|;
    assert address != a.account;
    var accounts := s["accounts"].fields;
    assert AccountsField(s) == Obj(accounts);
    if address in accounts {
      assert accounts[address] == AccountsField(MergedState(stored)).fields[address];
    } else if AccountsField(MergedState(stored)).Obj? {
      assert address !in AccountsField(MergedState(stored)).fields;
    }
  }

  /** The state upsertAccount would save if it stored the private key under
      the same key getPrivateKeyByAddress reads. */
  function UpsertedStateByLookupKey(stored: Option<map<string, Json>>, account: AccountRecord): (s: map<string, Json>)
    ensures "accounts" in s && s["accounts"].Obj?
    ensures var accounts := s["accounts"].fields;
      var key := AccountKey(Str(account.account));
      && key in accounts && accounts[key] == Str(account.privateKey)
      && forall k :: k in accounts && k != key ==>
           AccountsField(MergedState(stored)).Obj? && k in AccountsField(MergedState(stored)).fields
           && accounts[k] == AccountsField(MergedState(stored)).fields[k]
    ensures AccountsField(MergedState(stored)).Obj? ==>
      forall k :: k in AccountsField(MergedState(stored)).fields ==> k in s["accounts"].fields
    ensures forall k :: k != "accounts" ==> (k in s <==> k in MergedState(stored))
    ensures forall k :: k != "accounts" && k in s ==> s[k] == MergedState(stored)[k]
  {
    var current := MergedState(stored);
    current["accounts" := Obj(Spread(AccountsField(current))[AccountKey(Str(account.account)) := Str(account.privateKey)])]
  }

  /** With the corrected update, every account with a non-empty private key
      is found again under the id it was stored with. */
  lemma UpsertByLookupKeyThenLookupSucceeds(stored: Option<map<string, Json>>, account: AccountRecord)
    requires account.privateKey != ""
    ensures GetPrivateKeyByAddress(account.account, UpsertedStateByLookupKey(stored, account)) == Ok(account.account)
  {
    var s := UpsertedStateByLookupKey(stored, account);
    var key := AccountKey(Str(account.account));
    assert AccountsField(s).Obj? && key in AccountsField(s).fields;
    assert StoredAccountEntry(s, key) == Ok(Str(account.privateKey));
  }
}
