/**
 The unit tests of `load`, each restated over all inputs the test draws from:
 every lemma starts from a store with no entry for the keys involved (the
 tests use a fresh temporary folder) and follows the test's calls in order.
 */
module Scenarios {
  import opened CacheStore
  import opened ReloadEngine
  import opened Notecache

  /**
   Any object round-trips through the store: two default loads of the same
   state both return the generated object, and the second one is a plain read.
   */
  lemma ObjectStorage<S, O>(store: Store<S, O>, state: S, generate: S -> O, id: Id, folder: Folder)
    requires Key(folder, id) !in store
    ensures var (load1, s1) := Load(store, state, generate, id, folder, DefaultReload, false);
            var (load2, s2) := Load(s1, state, generate, id, folder, DefaultReload, false);
            && load1 == CacheResult(generate(state), true, false)
            && load2 == CacheResult(generate(state), false, false)
            && s2 == s1 == store[Key(folder, id) := Entry(state, generate(state))]
  {
    LoadIdempotent(store, state, generate, id, folder, DefaultReload, false);
  }

  /** A generator that computes from the state: both loads return `initial + 1`. */
  lemma MeaningfulGenerate(store: Store<int, int>, initial: int, id: Id, folder: Folder)
    requires Key(folder, id) !in store
    ensures var (load1, s1) := Load(store, initial, s => s + 1, id, folder, DefaultReload, false);
            var (load2, _) := Load(s1, initial, s => s + 1, id, folder, DefaultReload, false);
            && load1.obj == load2.obj == initial + 1
            && !load2.generated && !load2.stateChange
  {
    ObjectStorage(store, initial, s => s + 1, id, folder);
  }

  /**
   Two ids in one folder keep separate entries: interleaved loads each return
   their own id's object, and the second load under either id does not regenerate.
   */
  lemma UniqueIdIsolation<S, O>(store: Store<S, O>, state: S, gen1: S -> O, gen2: S -> O,
                                id1: Id, id2: Id, folder: Folder)
    requires id1 != id2
    requires Key(folder, id1) !in store && Key(folder, id2) !in store
    ensures var (load1Id1, s1) := Load(store, state, gen1, id1, folder, DefaultReload, false);
            var (load1Id2, s2) := Load(s1, state, gen2, id2, folder, DefaultReload, false);
            var (load2Id1, s3) := Load(s2, state, gen1, id1, folder, DefaultReload, false);
            var (load2Id2, s4) := Load(s3, state, gen2, id2, folder, DefaultReload, false);
            && load1Id1.obj == load2Id1.obj == gen1(state)
            && load1Id2.obj == load2Id2.obj == gen2(state)
            && !load2Id1.generated && !load2Id2.generated
            && !load2Id1.stateChange && !load2Id2.stateChange
            && s4 == s2
  {
  }

  /**
   One id in two folders names two entries: each folder's loads return that
   folder's object, and second loads do not regenerate.
   */
  lemma FolderIsolation<S, O>(store: Store<S, O>, state: S, gen1: S -> O, gen2: S -> O,
                              id: Id, dir1: Folder, dir2: Folder)
    requires dir1 != dir2
    requires Key(dir1, id) !in store && Key(dir2, id) !in store
    ensures var (load1Dir1, s1) := Load(store, state, gen1, id, dir1, DefaultReload, false);
            var (load1Dir2, s2) := Load(s1, state, gen2, id, dir2, DefaultReload, false);
            var (load2Dir1, s3) := Load(s2, state, gen1, id, dir1, DefaultReload, false);
            var (load2Dir2, s4) := Load(s3, state, gen2, id, dir2, DefaultReload, false);
            && load1Dir1.obj == load2Dir1.obj == gen1(state)
            && load1Dir2.obj == load2Dir2.obj == gen2(state)
            && !load2Dir1.generated && !load2Dir2.generated
            && !load2Dir1.stateChange && !load2Dir2.stateChange
            && s4 == s2
  {
  }

  /** The test's reload predicate: regenerate once the new state reaches 2. */
  predicate ThresholdReload(prev: int, next: int) {
    next >= 2
  }

  /**
   A custom predicate drives regeneration: states 0, 1, 2 give the flags
   (generated, not changed), (reused, not changed), (generated, changed),
   with one object throughout; the reused load keeps the stored state 0.
   */
  lemma CustomReload(store: Store<int, int>, id: Id, folder: Folder)
    requires Key(folder, id) !in store
    ensures var (load1, s1) := Load(store, 0, _ => 1, id, folder, ThresholdReload, false);
            var (load2, s2) := Load(s1, 1, _ => 1, id, folder, ThresholdReload, false);
            var (load3, s3) := Load(s2, 2, _ => 1, id, folder, ThresholdReload, false);
            && load1.obj == load2.obj == load3.obj == 1
            && load1.generated && !load1.stateChange
            && !load2.generated && !load2.stateChange
            && load3.generated && load3.stateChange
            && s2[Key(folder, id)] == Entry(0, 1)
            && s3[Key(folder, id)] == Entry(2, 1)
  {
  }

  /**
   Forcing an unchanged state regenerates: the second load is generated, is
   not a state change, and returns the freshly generated value.
   */
  lemma ForceUpdate<S, O>(store: Store<S, O>, state: S, generate: S -> O, id: Id, folder: Folder)
    requires Key(folder, id) !in store
    ensures var (load1, s1) := Load(store, state, generate, id, folder, DefaultReload, false);
            var (load2, _) := Load(s1, state, generate, id, folder, DefaultReload, true);
            && load1.obj == load2.obj == generate(state)
            && load2.generated && !load2.stateChange
  {
  }
}
