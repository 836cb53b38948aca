/**
 The `load` routine: look up the entry for (folder, id), let the reload engine
 decide, regenerate and overwrite the entry when it says so, and report the
 object together with the `generated` and `state_change` flags.
 */
module Notecache {
  import opened Wrappers
  import opened CacheStore
  import opened ReloadEngine

  /** What a load hands back to the caller. */
  datatype CacheResult<O> = CacheResult(obj: O, generated: bool, stateChange: bool)

  /** The previously stored state for `k`, if there is an entry. */
  function PrevState<S, O>(store: Store<S, O>, k: Key): Option<S>
  {
    match Get(store, k)
    case None => None
    case Some(e) => Some(e.state)
  }

  /**
   One call of `load(state, generate, unique_id, folder, reload, force_update)`
   against `store`; returns the result and the store after the call.
   */
  function Load<S, O>(store: Store<S, O>, state: S, generate: S -> O, id: Id, folder: Folder,
                      reload: (S, S) -> bool, force: bool): (out: (CacheResult<O>, Store<S, O>))
    // the generator runs exactly when there is no entry, the load is forced,
    // or the predicate fires on (stored state, new state)
    ensures out.0.generated <==>
              Key(folder, id) !in store || force || reload(store[Key(folder, id)].state, state)
    // a state change is exactly a predicate-triggered regeneration
    ensures out.0.stateChange <==>
              Key(folder, id) in store && !force && reload(store[Key(folder, id)].state, state)
    ensures out.0.stateChange ==> out.0.generated
    // bootstrap, whatever the predicate and the force flag
    ensures Key(folder, id) !in store ==> out.0 == CacheResult(generate(state), true, false)
    // a regeneration returns the fresh object and persists it with the new state
    ensures out.0.generated ==>
              out.0.obj == generate(state) && out.1 == store[Key(folder, id) := Entry(state, out.0.obj)]
    // otherwise the stored object is returned and nothing is written
    ensures !out.0.generated ==>
              Key(folder, id) in store && out.0.obj == store[Key(folder, id)].obj && out.1 == store
    // after the call an entry exists for the key, and no other key is touched
    ensures out.1.Keys == store.Keys + {Key(folder, id)}
    ensures forall k :: k != Key(folder, id) ==> Get(out.1, k) == Get(store, k)
    ensures Get(out.1, Key(folder, id)) == Some(Entry(out.1[Key(folder, id)].state, out.0.obj))
  {
    var k := Key(folder, id);
    var d := Decide(PrevState(store, k), state, reload, force);
    if Generated(d) then
      var obj := generate(state);
      (CacheResult(obj, true, StateChange(d)), Put(store, k, Entry(state, obj)))
    else
      (CacheResult(store[k].obj, false, false), store)
  }

  /** The entry at `k`, if there is one, holds `g`'s value on its stored state. */
  ghost predicate EntryFrom<S, O>(store: Store<S, O>, k: Key, g: S -> O) {
    k in store ==> store[k].obj == g(store[k].state)
  }

  /**
   Entry invariant: if key `k` is only ever loaded with generator `g`, its
   entry always pairs a state with `g`'s value on that state, whatever is
   loaded; and a load of `k` returns `g`'s value on the state then stored.
   */
  lemma LoadPreservesEntry<S, O>(store: Store<S, O>, state: S, generate: S -> O, id: Id,
                                 folder: Folder, reload: (S, S) -> bool, force: bool,
                                 k: Key, g: S -> O)
    requires EntryFrom(store, k, g)
    requires Key(folder, id) == k ==> generate == g
    ensures var out := Load(store, state, generate, id, folder, reload, force);
            && EntryFrom(out.1, k, g)
            && (Key(folder, id) == k ==> out.0.obj == g(out.1[k].state))
  {
  }

  /**
   Idempotent re-read: once a key has been loaded, a second load with the same
   state and no force returns the same object, calls no generator, and leaves
   the store as it was, provided the predicate does not fire on equal states.
   */
  lemma LoadIdempotent<S, O>(store: Store<S, O>, state: S, generate: S -> O, id: Id,
                             folder: Folder, reload: (S, S) -> bool, force: bool)
    requires !reload(state, state)
    ensures var (r1, s1) := Load(store, state, generate, id, folder, reload, force);
            var (r2, s2) := Load(s1, state, generate, id, folder, reload, false);
            r2 == CacheResult(r1.obj, false, false) && s2 == s1
  {
  }

  /** Under the default predicate the entry always ends up recording the latest state. */
  lemma DefaultLoadRecordsState<S, O>(store: Store<S, O>, state: S, generate: S -> O,
                                          id: Id, folder: Folder, force: bool)
    ensures Load(store, state, generate, id, folder, DefaultReload, force).1[Key(folder, id)].state == state
  {
  }
}
