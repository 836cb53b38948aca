/**
 The cache store: one persisted entry per (folder, unique id).

 The on-disk layout (one serialized file per id inside its folder, replaced
 atomically) is abstracted to an immutable map from keys to entries, so a
 reader only ever sees a whole entry or none.
 */
module CacheStore {
  import opened Wrappers

  /** A directory path naming an independent cache namespace. */
  type Folder = string

  /** The caller-chosen name of a cache slot inside a folder. */
  type Id = string

  /** Entries are addressed by the folder together with the id. */
  datatype Key = Key(folder: Folder, id: Id)

  /** The persisted pair: the last state and the object generated from it. */
  datatype Entry<S, O> = Entry(state: S, obj: O)

  type Store<S, O> = map<Key, Entry<S, O>>

  /** Reads the entry for `k`; a missing entry is `None`, not an error. */
  function Get<S, O>(store: Store<S, O>, k: Key): Option<Entry<S, O>>
  {
    if k in store then Some(store[k]) else None
  }

  /** Writes `e` under `k`, replacing any previous entry as a whole. */
  function Put<S, O>(store: Store<S, O>, k: Key, e: Entry<S, O>): (r: Store<S, O>)
    ensures Get(r, k) == Some(e)
    ensures forall k' :: k' != k ==> Get(r, k') == Get(store, k')
    ensures r.Keys == store.Keys + {k}
  {
    store[k := e]
  }
}
