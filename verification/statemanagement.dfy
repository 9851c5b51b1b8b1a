/** packages/snap/src/stateManagement.ts: the keyring's persisted state lives
    in the host (`snap_manageState`). `getState` asks the host for the stored
    object and spreads it over `defaultState`; `saveState` hands the host a
    new state with the 'update' operation. The host is a `SnapStore` object
    whose `stored` field is what `snap_manageState` holds (`None` when it
    holds null). */
module StateManagement {
  import opened Wrappers
  import opened Js

  /** `defaultState`. */
  const DefaultState: map<string, Json> :=
    map["wallets" := Obj(map[]), "pendingRequests" := Obj(map[]), "useSyncApprovals" := Bool(true)]

  /** `{ ...defaultState, ...state }` for the object the host returned. */
  function MergedState(stored: Option<map<string, Json>>): (s: map<string, Json>)
    ensures forall k :: k in s <==> k in DefaultState || (stored.Some? && k in stored.value)
    ensures stored.Some? ==> forall k :: k in stored.value ==> s[k] == stored.value[k]
    ensures forall k :: k in DefaultState && (stored.None? || k !in stored.value) ==> s[k] == DefaultState[k]
  {
    if stored.Some? then DefaultState + stored.value else DefaultState
  }

  /** With nothing stored, `getState` returns exactly the default state. */
  lemma NothingStoredGivesDefaults()
    ensures MergedState(None) == DefaultState
  {
  }

  /** Every field of the default state is present after the merge: a field the
      host lacks reads as its default, so wallets and pendingRequests are
      objects and useSyncApprovals is true unless the host says otherwise. */
  lemma DefaultsFillAbsentFields(stored: Option<map<string, Json>>)
    ensures var s := MergedState(stored);
      && "wallets" in s && "pendingRequests" in s && "useSyncApprovals" in s
      && (stored.None? || "wallets" !in stored.value ==> s["wallets"] == Obj(map[]))
      && (stored.None? || "pendingRequests" !in stored.value ==> s["pendingRequests"] == Obj(map[]))
      && (stored.None? || "useSyncApprovals" !in stored.value ==> s["useSyncApprovals"] == Bool(true))
  {
  }

  /** The host's state storage behind `snap_manageState`. */
  class SnapStore {
    var stored: Option<map<string, Json>>

    constructor(initial: Option<map<string, Json>>)
      ensures stored == initial
    {
      stored := initial;
    }

    /** The 'get' operation: the stored object, or null. */
    method Get() returns (reply: Option<map<string, Json>>)
      ensures reply == stored
    {
      reply := stored;
    }

    /** The 'update' operation: the stored object becomes `newState`. */
    method Update(newState: map<string, Json>)
      modifies this
      ensures stored == Some(newState)
    {
      stored := Some(newState);
    }
  }

  /** `getState()`: reads the host and changes nothing. */
  method GetState(host: SnapStore) returns (s: map<string, Json>)
    ensures s == MergedState(host.stored)
  {
    var state := host.Get();
    s := MergedState(state);
  }

  /** `saveState(state)`: the host receives exactly `state` with the 'update'
      operation, and afterwards holds it. */
  method SaveState(host: SnapStore, state: map<string, Json>)
    modifies host
    ensures host.stored == Some(state)
  {
    host.Update(state);
  }
}
