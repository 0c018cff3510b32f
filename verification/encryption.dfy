/**
 * The vault-key state of the drive (`encryption/duck.js`): the `encryption`
 * reducer, which remembers the key of the last decryption or creation of the
 * vault key, and the update of the instance settings that
 * `createVaultEncryptionKey` saves after wrapping a new vault key.
 *
 * Keys and wrapped keys are opaque values (type parameters); the key
 * derivation, wrapping and the settings query are not part of this model.
 */
module Encryption {
  import opened Wrappers

  /** The `type` of the action that stores a decrypted vault key. */
  const DecryptVaultEncryptionKey: string := "DECRYPT_ENCRYPTION_KEY"

  /** The `type` of the action that stores a newly created vault key. */
  const CreateVaultEncryptionKey: string := "CREATE_ENCRYPTION_KEY"

  /** A dispatched action: its `type` and its `key` field, if any. */
  datatype Action<K> = Action(kind: string, key: Option<K>)

  /** The two actions that carry a vault key. */
  predicate SetsKey<K>(action: Action<K>) {
    action.kind == DecryptVaultEncryptionKey || action.kind == CreateVaultEncryptionKey
  }

  /**
   * The `encryption` reducer.  The state is the vault key or `null`; a
   * missing `state` argument defaults to `null`, and a missing `action.key`
   * is `undefined`, which the next call reads as `null` again.
   */
  function Reduce<K>(state: Option<K>, action: Action<K>): Option<K> {
    if SetsKey(action) then action.key else state
  }

  /** The state after the actions, in order, from `state`. */
  function ReduceAll<K>(state: Option<K>, actions: seq<Action<K>>): Option<K>
    decreases |actions|
  {
    if actions == [] then state else ReduceAll(Reduce(state, actions[0]), actions[1..])
  }

  /** The key carried by the last key-setting action, if there is one. */
  function LastKeySet<K>(actions: seq<Action<K>>): Option<Option<K>>
    decreases |actions|
  {
    if actions == [] then None
    else if SetsKey(actions[|actions| - 1]) then Some(actions[|actions| - 1].key)
    else LastKeySet(actions[..|actions| - 1])
  }

  /** There is no last decryption or creation exactly when no action sets a key. */
  lemma {:induction false} LastKeySetNone<K>(actions: seq<Action<K>>)
    ensures LastKeySet(actions).None? <==> forall i :: 0 <= i < |actions| ==> !SetsKey(actions[i])
    decreases |actions|
  {
    if actions != [] && !SetsKey(actions[|actions| - 1]) {
      var init := actions[..|actions| - 1];
      LastKeySetNone(init);
      assert forall i :: 0 <= i < |init| ==> init[i] == actions[i];
    }
  }

  /**
   * When there is one, the key `LastKeySet` finds is that of a key-setting
   * action that no later action overrides.
   */
  lemma {:induction false} LastKeySetIsLast<K>(actions: seq<Action<K>>)
    requires LastKeySet(actions).Some?
    ensures exists i :: 0 <= i < |actions| && SetsKey(actions[i]) && LastKeySet(actions).value == actions[i].key &&
                        forall j :: i < j < |actions| ==> !SetsKey(actions[j])
    decreases |actions|
  {
    var last := |actions| - 1;
    if SetsKey(actions[last]) {
      assert LastKeySet(actions).value == actions[last].key;
    } else {
      var init := actions[..last];
      assert LastKeySet(actions) == LastKeySet(init);
      LastKeySetIsLast(init);
      var i :| 0 <= i < |init| && SetsKey(init[i]) && LastKeySet(init).value == init[i].key &&
               forall j :: i < j < |init| ==> !SetsKey(init[j]);
      assert actions[i] == init[i];
      assert forall j :: i < j < |actions| ==> !SetsKey(actions[j]) by {
        forall j | i < j < |actions| ensures !SetsKey(actions[j]) {
          if j < last {
            assert actions[j] == init[j];
          }
        }
      }
    }
  }

  /**
   * The state after a run of actions is the key of the last decryption or
   * creation among them; without one, the state is unchanged.
   */
  lemma {:induction false} ReduceAllKeepsLastKey<K>(state: Option<K>, actions: seq<Action<K>>)
    ensures ReduceAll(state, actions) == LastKeySet(actions).GetOr(state)
    decreases |actions|
  {
    if actions != [] {
      var rest := actions[1..];
      ReduceAllKeepsLastKey(Reduce(state, actions[0]), rest);
      if rest == [] {
        assert actions == [actions[0]];
      } else {
        assert rest[..|rest| - 1] == actions[1..|actions| - 1];
        assert actions[..|actions| - 1] == [actions[0]] + rest[..|rest| - 1];
        LastKeySetOfCons(actions[0], rest[..|rest| - 1]);
      }
    }
  }

  /** The last key-setting action of `[a] + rest` is the last of `rest`, else `a` when it sets a key. */
  lemma {:induction false} LastKeySetOfCons<K>(a: Action<K>, rest: seq<Action<K>>)
    ensures LastKeySet([a] + rest) ==
              if LastKeySet(rest).Some? then LastKeySet(rest)
              else if SetsKey(a) then Some(a.key) else None
    decreases |rest|
  {
    if rest != [] {
      var init := rest[..|rest| - 1];
      LastKeySetOfCons(a, init);
      assert ([a] + rest)[..|rest|] == [a] + init;
    } else {
      assert [a] + rest == [a];
      assert [a][..0] == [];
    }
  }

  /** Before any key action the state is `null`; other actions never change it. */
  lemma InitialStateIsNull<K>(actions: seq<Action<K>>)
    requires forall i :: 0 <= i < |actions| ==> !SetsKey(actions[i])
    ensures ReduceAll(None, actions) == None
  {
    ReduceAllKeepsLastKey(None, actions);
    LastKeySetNone(actions);
  }

  /** The `encryption` part of the instance settings: its `keys`, if any, and its other fields. */
  datatype EncryptionSettings<W, V> = EncryptionSettings(keys: Option<seq<W>>, fields: map<string, V>)

  /** The instance settings document: its `encryption` part, if any, and its other fields. */
  datatype Settings<W, V> = Settings(encryption: Option<EncryptionSettings<W, V>>, fields: map<string, V>)

  /** The wrapped keys already saved in the settings, none when absent. */
  function SavedKeys<W, V>(settings: Settings<W, V>): seq<W> {
    if settings.encryption.Some? && settings.encryption.value.keys.Some? then settings.encryption.value.keys.value
    else []
  }

  /**
   * The new settings `createVaultEncryptionKey` saves: `wrapped` appended to
   * the saved keys (or the list `[wrapped]`), everything else kept.
   */
  function AddWrappedKey<W, V>(settings: Settings<W, V>, wrapped: W): (r: Settings<W, V>)
    ensures r.encryption.Some? && r.encryption.value.keys.Some?
    ensures SavedKeys(r) == SavedKeys(settings) + [wrapped]
    ensures r.fields == settings.fields
    ensures r.encryption.value.fields == if settings.encryption.Some? then settings.encryption.value.fields else map[]
  {
    var keys := if settings.encryption.Some? && settings.encryption.value.keys.Some?
                then settings.encryption.value.keys.value + [wrapped]
                else [wrapped];
    var fields := if settings.encryption.Some? then settings.encryption.value.fields else map[];
    Settings(Some(EncryptionSettings(Some(keys), fields)), settings.fields)
  }

  /**
   * Creating keys one after the other saves all of them, in creation order,
   * after the keys saved before; no earlier key is lost.
   */
  lemma {:induction false} AddWrappedKeysInOrder<W, V>(settings: Settings<W, V>, wrapped: seq<W>)
    ensures SavedKeys(AddAll(settings, wrapped)) == SavedKeys(settings) + wrapped
    ensures AddAll(settings, wrapped).fields == settings.fields
    decreases |wrapped|
  {
    if wrapped != [] {
      var init := wrapped[..|wrapped| - 1];
      AddWrappedKeysInOrder(settings, init);
      assert wrapped == init + [wrapped[|wrapped| - 1]];
    }
  }

  /** The settings after creating a key for each of `wrapped`, in order. */
  function AddAll<W, V>(settings: Settings<W, V>, wrapped: seq<W>): Settings<W, V>
    decreases |wrapped|
  {
    if wrapped == [] then settings
    else AddWrappedKey(AddAll(settings, wrapped[..|wrapped| - 1]), wrapped[|wrapped| - 1])
  }

  /** Adding a key to settings that already hold keys changes nothing but the key list. */
  lemma AddWrappedKeyOnlyTouchesKeys<W, V>(settings: Settings<W, V>, wrapped: W)
    requires settings.encryption.Some? && settings.encryption.value.keys.Some?
    ensures AddWrappedKey(settings, wrapped) ==
              settings.(encryption := Some(settings.encryption.value.(keys := Some(SavedKeys(settings) + [wrapped]))))
  {
  }
}
