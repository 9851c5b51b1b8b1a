/** packages/snap/src/permissions.ts: the method-name enums and `PERMISSIONS`,
    the table from caller origin to the methods that origin may call. */
module Permissions {
  import opened Wrappers

  /** `SnapKeyringMethod`. */
  datatype SnapKeyringMethod = ListAccounts | CreateAccount | GetAccount | UpdateAccount | DeleteAccount | ExportAccount

  /** `RequestMethods`. */
  datatype RequestMethod = GetRequest | SubmitRequest | ListRequests | DeleteRequest | ApproveRequest | RejectRequest

  /** `InternalMethod`. */
  datatype InternalMethod = Hello | AwaitEvent | GetState | SetState | ManageAccounts

  /** `SigningMethods`. */
  datatype SigningMethod = SignTransaction | SignTypedData | SignPersonalMessage | EthSign

  /** A member of any of the four enums. */
  datatype Method =
    | Keyring(k: SnapKeyringMethod)
    | Request(r: RequestMethod)
    | Internal(i: InternalMethod)
    | Signing(s: SigningMethod)
  {
    /** The enum member's string value. */
    function Value(): string {
      match this
      case Keyring(ListAccounts) => "keyring_listAccounts"
      case Keyring(CreateAccount) => "keyring_createAccount"
      case Keyring(GetAccount) => "keyring_getAccount"
      case Keyring(UpdateAccount) => "keyring_updateAccount"
      case Keyring(DeleteAccount) => "keyring_deleteAccount"
      case Keyring(ExportAccount) => "keyring_exportAccount"
      case Request(GetRequest) => "keyring_getRequest"
      case Request(SubmitRequest) => "keyring_submitRequest"
      case Request(ListRequests) => "keyring_listRequests"
      case Request(DeleteRequest) => "keyring_deleteRequest"
      case Request(ApproveRequest) => "keyring_approveRequest"
      case Request(RejectRequest) => "keyring_rejectRequest"
      case Internal(Hello) => "snap.internal.hello"
      case Internal(AwaitEvent) => "snap.internal.awaitEvent"
      case Internal(GetState) => "snap.internal.getState"
      case Internal(SetState) => "snap.internal.setState"
      case Internal(ManageAccounts) => "snap.internal.manageAccounts"
      case Signing(SignTransaction) => "sign_transaction"
      case Signing(SignTypedData) => "eth_signTypedData"
      case Signing(SignPersonalMessage) => "personal_sign"
      case Signing(EthSign) => "eth_sign"
    }
  }

  /** The members whose values have 21 characters. */
  function ParseLength21(s: string): (m: Option<Method>)
    ensures m.Some? ==> m.value.Value() == s
  {
    if s == "keyring_createAccount" then Some(Keyring(CreateAccount))
    else if s == "keyring_updateAccount" then Some(Keyring(UpdateAccount))
    else if s == "keyring_deleteAccount" then Some(Keyring(DeleteAccount))
    else if s == "keyring_exportAccount" then Some(Keyring(ExportAccount))
    else if s == "keyring_submitRequest" then Some(Request(SubmitRequest))
    else if s == "keyring_deleteRequest" then Some(Request(DeleteRequest))
    else if s == "keyring_rejectRequest" then Some(Request(RejectRequest))
    else None
  }

  /** The members whose values have 22 characters. */
  function ParseLength22(s: string): (m: Option<Method>)
    ensures m.Some? ==> m.value.Value() == s
  {
    if s == "keyring_approveRequest" then Some(Request(ApproveRequest))
    else if s == "snap.internal.getState" then Some(Internal(GetState))
    else if s == "snap.internal.setState" then Some(Internal(SetState))
    else None
  }

  /** The enum member with string value `s`, if any; the length of `s`
      narrows the candidates first. */
  function ParseMethod(s: string): (m: Option<Method>)
    ensures m.Some? ==> m.value.Value() == s
  {
    if |s| == 8 then
      if s == "eth_sign" then Some(Signing(EthSign)) else None
    else if |s| == 13 then
      if s == "personal_sign" then Some(Signing(SignPersonalMessage)) else None
    else if |s| == 16 then
      if s == "sign_transaction" then Some(Signing(SignTransaction)) else None
    else if |s| == 17 then
      if s == "eth_signTypedData" then Some(Signing(SignTypedData)) else None
    else if |s| == 18 then
      if s == "keyring_getAccount" then Some(Keyring(GetAccount)) else if s == "keyring_getRequest" then Some(Request(GetRequest)) else None
    else if |s| == 19 then
      if s == "snap.internal.hello" then Some(Internal(Hello)) else None
    else if |s| == 20 then
      if s == "keyring_listAccounts" then Some(Keyring(ListAccounts)) else if s == "keyring_listRequests" then Some(Request(ListRequests)) else None
    else if |s| == 21 then
      ParseLength21(s)
    else if |s| == 22 then
      ParseLength22(s)
    else if |s| == 24 then
      if s == "snap.internal.awaitEvent" then Some(Internal(AwaitEvent)) else None
    else if |s| == 28 then
      if s == "snap.internal.manageAccounts" then Some(Internal(ManageAccounts)) else None
    else None
  }

  /** Parsing an enum member's value gives back that member. */
  lemma ParseValue(m: Method)
    ensures ParseMethod(m.Value()) == Some(m)
  {
    match m
    case Keyring(k) => ParseKeyringValue(k);
    case Request(r) => ParseRequestValue(r);
    case Internal(i) => ParseInternalValue(i);
    case Signing(g) => ParseSigningValue(g);
  }

  lemma ParseKeyringValue(k: SnapKeyringMethod)
    ensures ParseMethod(Keyring(k).Value()) == Some(Keyring(k))
  {
  }

  lemma ParseRequestValue(r: RequestMethod)
    ensures ParseMethod(Request(r).Value()) == Some(Request(r))
  {
  }

  lemma ParseInternalValue(i: InternalMethod)
    ensures ParseMethod(Internal(i).Value()) == Some(Internal(i))
  {
  }

  lemma ParseSigningValue(g: SigningMethod)
    ensures ParseMethod(Signing(g).Value()) == Some(Signing(g))
  {
  }

  /** All enum string values are distinct. */
  lemma ValuesDistinct(m1: Method, m2: Method)
    requires m1.Value() == m2.Value()
    ensures m1 == m2
  {
    ParseValue(m1);
    ParseValue(m2);
  }

  const MetamaskOrigin := "metamask"
  const LocalhostOrigin := "http://localhost:8000"
  const GithubOrigin := "https://metamask.github.io"

  /** The methods the two dapp origins may call, in the table's order. */
  const DappMethods: seq<Method> := [
    Keyring(ListAccounts), Keyring(CreateAccount), Keyring(GetAccount), Keyring(UpdateAccount),
    Keyring(DeleteAccount), Keyring(ExportAccount),
    Request(ListRequests), Request(ApproveRequest), Request(DeleteRequest), Request(RejectRequest),
    Internal(AwaitEvent), Internal(Hello), Internal(GetState), Internal(SetState), Internal(ManageAccounts)]

  const MetamaskMethods: seq<Method> := [
    Keyring(ListAccounts), Keyring(CreateAccount), Keyring(DeleteAccount), Keyring(UpdateAccount),
    Request(ListRequests), Request(SubmitRequest), Request(ApproveRequest), Request(RejectRequest)]

  function Values(ms: seq<Method>): (vs: seq<string>)
    ensures |vs| == |ms|
    ensures forall i :: 0 <= i < |ms| ==> vs[i] == ms[i].Value()
  {
    seq(|ms|, i requires 0 <= i < |ms| => ms[i].Value())
  }

  /** `PERMISSIONS`. */
  const Permissions: map<string, seq<string>> := map[
    MetamaskOrigin := Values(MetamaskMethods),
    LocalhostOrigin := Values(DappMethods),
    GithubOrigin := Values(DappMethods)]

  /** The table has exactly the three origins. */
  lemma ThreeOrigins()
    ensures Permissions.Keys == {MetamaskOrigin, LocalhostOrigin, GithubOrigin}
  {
  }

  /** A list of enum members with no repetition has values with no repetition. */
  lemma {:induction false} DistinctValues(ms: seq<Method>)
    requires forall i, j :: 0 <= i < j < |ms| ==> ms[i] != ms[j]
    ensures forall i, j :: 0 <= i < j < |ms| ==> Values(ms)[i] != Values(ms)[j]
  {
    forall i, j | 0 <= i < j < |ms|
      ensures Values(ms)[i] != Values(ms)[j]
    {
      if Values(ms)[i] == Values(ms)[j] {
        ValuesDistinct(ms[i], ms[j]);
      }
    }
  }

  /** No origin's list repeats a method. */
  lemma NoRepeatedMethod(origin: string)
    requires origin in Permissions
    ensures forall i, j :: 0 <= i < j < |Permissions[origin]| ==> Permissions[origin][i] != Permissions[origin][j]
  {
    DistinctValues(MetamaskMethods);
    DistinctValues(DappMethods);
  }

  /** A value is in a list of values exactly when its member is in the list. */
  lemma {:induction false} ValueIn(m: Method, ms: seq<Method>)
    ensures m.Value() in Values(ms) <==> m in ms
  {
    if m.Value() in Values(ms) {
      var i :| 0 <= i < |ms| && Values(ms)[i] == m.Value();
      ValuesDistinct(ms[i], m);
    }
    if m in ms {
      var i :| 0 <= i < |ms| && ms[i] == m;
      assert Values(ms)[i] == m.Value();
    }
  }

  /** 'metamask' may submit requests but not read or export an account, nor
      call any internal method. */
  lemma MetamaskRights()
    ensures Request(SubmitRequest).Value() in Permissions[MetamaskOrigin]
    ensures Keyring(GetAccount).Value() !in Permissions[MetamaskOrigin]
    ensures Keyring(ExportAccount).Value() !in Permissions[MetamaskOrigin]
    ensures forall i: InternalMethod :: Internal(i).Value() !in Permissions[MetamaskOrigin]
  {
    ValueIn(Request(SubmitRequest), MetamaskMethods);
    ValueIn(Keyring(GetAccount), MetamaskMethods);
    ValueIn(Keyring(ExportAccount), MetamaskMethods);
    forall i: InternalMethod
      ensures Internal(i).Value() !in Permissions[MetamaskOrigin]
    {
      ValueIn(Internal(i), MetamaskMethods);
    }
  }

  /** The two dapp origins have the same list, and neither may submit a
      request or read one. */
  lemma DappOriginsAgree()
    ensures Permissions[LocalhostOrigin] == Permissions[GithubOrigin]
    ensures Request(SubmitRequest).Value() !in Permissions[LocalhostOrigin]
    ensures Request(GetRequest).Value() !in Permissions[LocalhostOrigin]
  {
    ValueIn(Request(SubmitRequest), DappMethods);
    ValueIn(Request(GetRequest), DappMethods);
  }
}
