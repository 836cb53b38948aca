# notecache `load` — a Dafny model

notecache is a persistent, state-aware memoization cache for notebook
workflows. Every call `load(state, generate, unique_id, folder, reload,
force_update)` looks up the entry stored under `(folder, unique_id)`, decides
whether the stored object is still valid for `state`, calls `generate(state)`
and overwrites the entry with `(state, object)` when it is not, and returns the
object together with two flags: `generated` (the generator ran) and
`state_change` (it ran because the reload predicate fired).

The model is functional. The on-disk cache is an immutable
`map<Key, Entry>` (`CacheStore`). The generator `S -> O` and the reload
predicate `(S, S) -> bool` are function values. `load` is a pure function
that returns the result and the updated store (`Notecache.Load`).

- `wrappers.dfy`: `Option`, used for "no entry".
- `store.dfy` (`CacheStore`): `Key(folder, id)`, `Entry(state, obj)`,
  `Store`, and the whole-entry `Get`/`Put`.
- `reload.dfy` (`ReloadEngine`): the four outcomes of a load (`Bootstrap`,
  `Forced`, `Changed`, `Reuse`), the `generated`/`state_change` flags of each,
  and the default predicate "states differ".
- `load.dfy` (`Notecache`): `CacheResult`, `Load`, the entry invariant
  (a stored object is its generator's value on the stored state) and
  idempotent re-reads.
- `session.dfy` (`Session`): a sequence of loads (`Run`), with inductive
  proofs of coherence, isolation and repeated re-reads over whole sessions.
- `scenarios.dfy` (`Scenarios`): every unit test of `load`, stated for all
  the inputs the test draws from.

notecache's unit tests (tests/unit/test_cache.py) pin down the returned
object and the two flags of `load`. They never inspect the stored entry, and
they never load a different state under the default predicate. Where the tests
say nothing, the model chooses the following behaviour:

- A load that reuses the stored object writes nothing. The stored state stays
  the old one, even when the new state differs but the predicate did not fire.
- A regeneration, whether first, forced or predicate-triggered, overwrites the
  entry with `(state, new object)`.
- Under the default predicate, a state different from the stored one
  regenerates and is reported as a `state_change`.

Errors (an unreadable entry, storage failures, a generator that raises) are
not modelled; see "Left out".

## Model

| member | source | states |
|---|---|---|
| CacheStore.Put | tests/unit/test_cache.py:150-157 | After a write, a read of the same key returns the written entry. Every other key reads as before. The key set grows by exactly the written key. |
| ReloadEngine.Decide | tests/unit/test_cache.py:179-189 | The generator runs iff there is no previous entry, or force is set, or `reload(prev, new)` holds. `state_change` holds iff there is an entry, force is off, and the predicate fires. `state_change` implies `generated`. A missing entry is always a bootstrap. |
| ReloadEngine.BootstrapIgnoresPolicy | tests/unit/test_cache.py:179-185 | With no previous entry, the outcome is a bootstrap whatever the predicate and force flag. |
| ReloadEngine.ForceIgnoresReload | tests/unit/test_cache.py:234-239 | With an entry and force set, the outcome is a forced regeneration whatever the predicate. |
| ReloadEngine.DefaultReloadDecision | tests/unit/test_cache.py:52-57 | Under the default predicate and no force, an equal state is reused, as the test asserts. A different state is a state change; the tests leave this half open and it is a choice of the model. |
| Notecache.Load | tests/unit/test_cache.py:179-189 | The decision table in terms of the store: when `generated` and `state_change` hold, and that `state_change` implies `generated`. Bootstrap returns `(generate(state), true, false)` for any predicate or force. A regeneration returns `generate(state)` and stores `(state, object)`. A reuse returns the stored object. Only the loaded key is touched. The tests assert the flags and objects. That a regeneration writes `(state, object)` and a reuse writes nothing are choices of the model. |
| Notecache.LoadPreservesEntry | tests/unit/test_cache.py:93-101 | Suppose the entry at a key holds generator `g`'s value on its stored state, and that key is loaded only with `g`. Then this still holds after any load. A load of that key returns `g`'s value on the state then stored. |
| Notecache.LoadIdempotent | tests/unit/test_cache.py:52-57 | After any load, a second unforced load with the same state returns the same object, with `generated` and `state_change` false, and leaves the store unchanged. This holds whenever the predicate does not fire on equal states. |
| Notecache.DefaultLoadRecordsState | tests/unit/test_cache.py:74-79 | Under the default predicate, after any load the entry records the state just passed in. |
| Session.Run | tests/unit/test_cache.py:150-161 | A session of loads returns one result per call. `state_change` implies `generated` in each result. Every generated result is that call's generator on its state. Afterwards the store holds exactly the previous keys plus the keys the session addressed. |
| Session.RunPreservesEntry | tests/unit/test_cache.py:93-101 | A key that a whole session loads only with generator `g` keeps an entry of the form `(state, g(state))` throughout. |
| Session.RunFrame | tests/unit/test_cache.py:150-161 | A session that never addresses a key leaves that key's entry, or its absence, unchanged. |
| Session.RepeatSettled | tests/unit/test_cache.py:179-187 | Repeating a call that the reload predicate does not trigger returns the stored object every time, never regenerates, and writes nothing. |
| Session.RepeatedLoads | tests/unit/test_cache.py:52-57 | Take `n` runs of the same unforced call, with a predicate that does not fire on equal states. Only the first may regenerate or write. Every later run returns the first run's object with both flags false. |
| Scenarios.ObjectStorage | tests/unit/test_cache.py:40-79 | On a fresh key, two default loads both return `generate(state)`. The first is `(generated, not changed)` and the second is `(not generated, not changed)`. The store holds `(state, generate(state))`. |
| Scenarios.MeaningfulGenerate | tests/unit/test_cache.py:82-101 | With `generate = s => s + 1`, both loads return `initial + 1` and the second is a plain read. |
| Scenarios.UniqueIdIsolation | tests/unit/test_cache.py:134-161 | Take two distinct ids in one folder, loaded alternately. Each id's loads return its own generator's object. The second loads regenerate nothing and write nothing. |
| Scenarios.FolderIsolation | tests/unit/test_cache.py:192-220 | The same id in two distinct folders, loaded alternately, behaves the same way: each folder's loads return its own object, and the second loads regenerate nothing and write nothing. |
| Scenarios.CustomReload | tests/unit/test_cache.py:164-189 | With `reload = (_, r) => r >= 2` and a constant generator, states 0, 1, 2 give flags (T,F), (F,F), (T,T) and the same object each time. The reused load keeps stored state 0; the test does not inspect the store, so this is a choice of the model. |
| Scenarios.ForceUpdate | tests/unit/test_cache.py:223-239 | A forced load of an unchanged state is `generated` and not a `state_change`. It returns the freshly generated value. |

## Left out

- Serialization of states and objects (pickling, data frames) and the data-frame-aware equality helper of the tests: values are abstract type parameters and equality is Dafny equality.
- Filesystem work: folder creation, temporary files, the atomic rename, and the file name derived from `unique_id`. A store is a map, so a reader sees whole entries only.
- The rule that `unique_id` must not contain a path separator: the model has no file names, so no lemma needs it.
- Path identity: folders and ids are compared as strings. `UniqueIdIsolation`, `FolderIsolation` and `RunFrame` therefore hold for distinct keys. They say nothing about two spellings of one directory (`cache` and `./cache`, or a symbolic link), or about ids that a case-insensitive file system treats as one name. In the program such spellings address the same entry; in the model they are separate entries.
- Error paths (generator exceptions, `CorruptEntry` for an unreadable entry, storage failures): the tests do not exercise them. `Load` therefore has no error result and assumes the generator returns.
- Default argument values: `reload` defaults to `ReloadEngine.DefaultReload` and `force_update` to false. Every call in the model passes both explicitly.
- Concurrent callers on one key (last writer wins): these are outside the contract of `load`.
- The property-based test data generation (integer, text, dictionary and data-frame strategies, and the character-category filter on ids): the lemmas quantify over all values instead.
