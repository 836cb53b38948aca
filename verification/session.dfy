/**
 A session: a sequence of `load` calls run one after another against the same
 store, as a notebook re-run does. Properties of single loads lift to sessions
 by induction on the sequence of calls.
 */
module Session {
  import opened Wrappers
  import opened CacheStore
  import opened ReloadEngine
  import opened Notecache

  /** The arguments of one `load` call. */
  datatype Call<!S, O> = Call(state: S, generate: S -> O, id: Id, folder: Folder,
                             reload: (S, S) -> bool, force: bool)
  {
    function Target(): Key {
      Key(folder, id)
    }
  }

  /** The keys a sequence of calls addresses. */
  function Targets<S, O>(calls: seq<Call<S, O>>): set<Key> {
    set i | 0 <= i < |calls| :: calls[i].Target()
  }

  lemma TargetsCons<S, O>(calls: seq<Call<S, O>>)
    requires |calls| > 0
    ensures Targets(calls) == {calls[0].Target()} + Targets(calls[1..])
  {
  }

  /** Runs `calls` in order; returns each call's result and the final store. */
  function Run<S, O>(store: Store<S, O>, calls: seq<Call<S, O>>): (out: (seq<CacheResult<O>>, Store<S, O>))
    ensures |out.0| == |calls|
    ensures out.1.Keys == store.Keys + Targets(calls)
    ensures forall i :: 0 <= i < |calls| ==> (out.0[i].stateChange ==> out.0[i].generated)
    ensures forall i :: 0 <= i < |calls| && out.0[i].generated ==>
              out.0[i].obj == calls[i].generate(calls[i].state)
    decreases |calls|
  {
    if |calls| == 0 then
      ([], store)
    else
      var c := calls[0];
      var (r, s1) := Load(store, c.state, c.generate, c.id, c.folder, c.reload, c.force);
      var (rs, s2) := Run(s1, calls[1..]);
      TargetsCons(calls);
      ([r] + rs, s2)
  }

  /** A key only ever loaded with generator `g` keeps a `g`-generated entry over a whole session. */
  lemma {:induction false} RunPreservesEntry<S, O>(store: Store<S, O>, calls: seq<Call<S, O>>, k: Key, g: S -> O)
    requires EntryFrom(store, k, g)
    requires forall i :: 0 <= i < |calls| && calls[i].Target() == k ==> calls[i].generate == g
    ensures EntryFrom(Run(store, calls).1, k, g)
    decreases |calls|
  {
    if |calls| > 0 {
      var c := calls[0];
      var s1 := Load(store, c.state, c.generate, c.id, c.folder, c.reload, c.force).1;
      RunPreservesEntry(s1, calls[1..], k, g);
    }
  }

  /** Isolation: a session that never addresses `k` leaves the entry at `k` as it was. */
  lemma {:induction false} RunFrame<S, O>(store: Store<S, O>, calls: seq<Call<S, O>>, k: Key)
    requires forall i :: 0 <= i < |calls| ==> calls[i].Target() != k
    ensures Get(Run(store, calls).1, k) == Get(store, k)
    decreases |calls|
  {
    if |calls| > 0 {
      var c := calls[0];
      var s1 := Load(store, c.state, c.generate, c.id, c.folder, c.reload, c.force).1;
      RunFrame(s1, calls[1..], k);
    }
  }

  /** `n` copies of the same call. */
  function Repeat<S, O>(c: Call<S, O>, n: nat): seq<Call<S, O>>
  {
    seq(n, _ => c)
  }

  /** A call that, against this store, would return the stored object without regenerating. */
  ghost predicate Settled<S, O>(store: Store<S, O>, c: Call<S, O>) {
    && c.Target() in store
    && !c.force
    && !c.reload(store[c.Target()].state, c.state)
  }

  /** Repeating a settled call reuses the stored object every time and writes nothing. */
  lemma {:induction false} RepeatSettled<S, O>(store: Store<S, O>, c: Call<S, O>, n: nat)
    requires Settled(store, c)
    ensures var out := Run(store, Repeat(c, n));
            && out.1 == store
            && forall i :: 0 <= i < n ==> out.0[i] == CacheResult(store[c.Target()].obj, false, false)
    decreases n
  {
    if n > 0 {
      var calls := Repeat(c, n);
      assert calls[0] == c;
      assert calls[1..] == Repeat(c, n - 1);
      RepeatSettled(store, c, n - 1);
    }
  }

  /**
   Repeated re-reads: running the same unforced call `n` times, with a
   predicate that does not fire on equal states, does its work on the first
   call only; every later call returns the first call's object, is not
   generated and is not a state change, and only the first call writes.
   */
  lemma RepeatedLoads<S, O>(store: Store<S, O>, c: Call<S, O>, n: nat)
    requires n > 0
    requires !c.force
    requires !c.reload(c.state, c.state)
    ensures var out := Run(store, Repeat(c, n));
            var first := Load(store, c.state, c.generate, c.id, c.folder, c.reload, c.force);
            && out.0[0] == first.0
            && out.1 == first.1
            && forall i :: 1 <= i < n ==> out.0[i] == CacheResult(first.0.obj, false, false)
  {
    var calls := Repeat(c, n);
    var first := Load(store, c.state, c.generate, c.id, c.folder, c.reload, c.force);
    LoadIdempotent(store, c.state, c.generate, c.id, c.folder, c.reload, c.force);
    assert Settled(first.1, c);
    assert calls[1..] == Repeat(c, n - 1);
    RepeatSettled(first.1, c, n - 1);
    var rest := Run(first.1, Repeat(c, n - 1));
    forall i | 1 <= i < n
      ensures Run(store, calls).0[i] == CacheResult(first.0.obj, false, false)
    {
      assert Run(store, calls).0[i] == rest.0[i - 1];
    }
  }
}
