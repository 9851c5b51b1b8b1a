/** packages/snap/src/index.ts: the handlers the snap's RPC entry point
    chains together, and the lazily built keyring. The chain itself and the
    keyring-api dispatcher are library code; the handlers are modelled one by
    one. The keyring the file builds is `SimpleKeyringSnap2` of keyring2.ts,
    built with no arguments. */
module SnapIndex {
  import opened Wrappers
  import opened Js
  import opened StateManagement
  import Permissions
  import Keyring2

  /** A JSON-RPC request as the handlers read it. */
  datatype RpcRequest = RpcRequest(id: Json, name: string, params: Json)

  /** `hasPermission(origin, method)`: the origin is in the table and its list
      contains the method. */
  function HasPermission(origin: string, methodName: string): (r: bool)
    ensures r <==> origin in Permissions.Permissions && methodName in Permissions.Permissions[origin]
  {
    var allowed := if origin in Permissions.Permissions then Some(Permissions.Permissions[origin]) else None;
    match allowed
    case None => false
    case Some(methods) => methodName in methods
  }

  /** An origin missing from the table may call nothing. */
  lemma UnknownOriginHasNoPermission(origin: string, methodName: string)
    requires origin !in {Permissions.MetamaskOrigin, Permissions.LocalhostOrigin, Permissions.GithubOrigin}
    ensures !HasPermission(origin, methodName)
  {
    Permissions.ThreeOrigins();
  }

  /** The dapp origins may call getState, 'metamask' may not. */
  lemma GetStatePermissions()
    ensures HasPermission(Permissions.LocalhostOrigin, Permissions.Internal(Permissions.GetState).Value())
    ensures HasPermission(Permissions.GithubOrigin, Permissions.Internal(Permissions.GetState).Value())
    ensures !HasPermission(Permissions.MetamaskOrigin, Permissions.Internal(Permissions.GetState).Value())
  {
    Permissions.ValueIn(Permissions.Internal(Permissions.GetState), Permissions.DappMethods);
    Permissions.MetamaskRights();
  }

  /** `loggerHandler`: always passes the request on, as
      MethodNotSupportedError for its method. */
  function LoggerHandler(origin: string, request: RpcRequest): (r: Result<Json>)
    ensures r.Err? && r.error == MethodNotSupported(request.name)
  {
    Err(MethodNotSupported(request.name))
  }

  /** `permissionsHandler`: never returns normally; a call the origin may not
      make fails with the permission message, a permitted one is passed on
      as MethodNotSupportedError. */
  function PermissionsHandler(origin: string, request: RpcRequest): (r: Result<Json>)
    ensures r.Err?
    ensures !HasPermission(origin, request.name) <==>
      r.error == Error("origin " + origin + " cannot call method " + request.name)
    ensures HasPermission(origin, request.name) <==> r.error == MethodNotSupported(request.name)
  {
    if !HasPermission(origin, request.name) then
      Err(Error("origin " + origin + " cannot call method " + request.name))
    else
      Err(MethodNotSupported(request.name))
  }

  /** What customHandler returns: the answer of the alert dialog it asks the
      host for, or the state. */
  datatype CustomReply = DialogShown | State(state: map<string, Json>)

  /** `customHandler`: Hello shows a dialog, GetState returns the merged
      state, and every other method is passed on as MethodNotSupportedError. */
  method CustomHandler(request: RpcRequest, host: SnapStore) returns (r: Result<CustomReply>)
    ensures request.name == Permissions.Internal(Permissions.Hello).Value() ==> r == Ok(DialogShown)
    ensures request.name == Permissions.Internal(Permissions.GetState).Value() ==> r == Ok(State(MergedState(host.stored)))
    ensures request.name !in {Permissions.Internal(Permissions.Hello).Value(), Permissions.Internal(Permissions.GetState).Value()} ==>
      r == Err(MethodNotSupported(request.name))
  {
    if request.name == Permissions.Internal(Permissions.Hello).Value() {
      r := Ok(DialogShown);
    } else if request.name == Permissions.Internal(Permissions.GetState).Value() {
      var state := GetState(host);
      r := Ok(State(state));
    } else {
      r := Err(MethodNotSupported(request.name));
    }
  }

  /** The module-level `keyring` variable. */
  class Snap {
    var keyring: Keyring2.SimpleKeyringSnap2?

    constructor()
      ensures keyring == null
    {
      keyring := null;
    }

    /** The first half of `keyringHandler`: builds a keyring only when there
        is none, and afterwards always hands out the same one. */
    method KeyringHandler(host: SnapStore) returns (k: Keyring2.SimpleKeyringSnap2)
      modifies this
      ensures k == keyring
      ensures old(keyring) != null ==> keyring == old(keyring)
      ensures old(keyring) == null ==> fresh(keyring) && keyring.wallets == map[] && keyring.requests == map[]
    {
      if keyring == null {
        var keyringState := GetState(host);
        if keyring == null {
          keyring := new Keyring2.SimpleKeyringSnap2();
        }
      }
      k := keyring;
    }
  }

  /** Two keyring requests in a row are served by the same keyring. */
  method KeyringIsShared(host: SnapStore) returns (first: Keyring2.SimpleKeyringSnap2, second: Keyring2.SimpleKeyringSnap2)
    ensures first == second
  {
    var snap := new Snap();
    first := snap.KeyringHandler(host);
    second := snap.KeyringHandler(host);
  }
}
