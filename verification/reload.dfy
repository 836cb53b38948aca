/**
 The reload engine: decides whether a load calls the generator, and why.
 */
module ReloadEngine {
  import opened Wrappers

  /** The four ways a single load can end. */
  datatype Decision =
    | Bootstrap   // no previous entry: the generator is called
    | Forced      // `force_update` bypassed the predicate: the generator is called
    | Changed     // the reload predicate asked for regeneration
    | Reuse       // the stored object is returned, the generator is not called

  /** True when the generator is called under decision `d`. */
  predicate Generated(d: Decision) {
    d != Reuse
  }

  /** True when the regeneration was triggered by the reload predicate. */
  predicate StateChange(d: Decision) {
    d == Changed
  }

  /** The default reload predicate: regenerate when the states differ. */
  predicate DefaultReload<S(==)>(prev: S, next: S) {
    prev != next
  }

  /**
   Decides the outcome of a load from the previously stored state (if any),
   the new state, the reload predicate and the force flag.
   */
  function Decide<S>(prev: Option<S>, state: S, reload: (S, S) -> bool, force: bool): (d: Decision)
    ensures Generated(d) <==> prev.None? || force || reload(prev.value, state)
    ensures StateChange(d) <==> prev.Some? && !force && reload(prev.value, state)
    ensures StateChange(d) ==> Generated(d)
    ensures prev.None? ==> d == Bootstrap
  {
    match prev
    case None => Bootstrap
    case Some(p) =>
      if force then Forced
      else if reload(p, state) then Changed
      else Reuse
  }

  /** With no previous entry, neither the predicate nor the force flag matters. */
  lemma BootstrapIgnoresPolicy<S>(state: S, reload1: (S, S) -> bool, reload2: (S, S) -> bool,
                                  force1: bool, force2: bool)
    ensures Decide(None, state, reload1, force1) == Decide(None, state, reload2, force2) == Bootstrap
  {
  }

  /** With a previous entry and the force flag set, the predicate is never consulted. */
  lemma ForceIgnoresReload<S>(prev: S, state: S, reload1: (S, S) -> bool, reload2: (S, S) -> bool)
    ensures Decide(Some(prev), state, reload1, true) == Decide(Some(prev), state, reload2, true) == Forced
  {
  }

  /** Under the default predicate an unchanged state is reused and a changed one regenerates. */
  lemma DefaultReloadDecision<S>(prev: S, state: S)
    ensures Decide(Some(prev), state, DefaultReload, false) == if prev == state then Reuse else Changed
  {
  }
}
