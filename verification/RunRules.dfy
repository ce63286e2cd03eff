/** What several of the properties say of a state or ask of a run. */
module RunRules {
  import opened Options
  import opened Protocol

  /** Nobody deletes a restore by hand. */
  predicate NoHand(s: State, e: Event) { !e.OutsideDelete? }

  predicate CurrentIsActive(s: State) {
    s.status.current.Some? ==> s.Has(s.status.current.value, Active) && !s.restores[s.status.current.value].deleting
  }

  ghost predicate OnlyFinishedDeleted(s: State) {
    forall n :: n in s.restores && s.restores[n].deleting ==> s.restores[n].Is(Active) || s.restores[n].Is(Failed)
  }

  predicate NoneSwitching(s: State) { forall n :: n in s.restores ==> !s.restores[n].Is(Switching) }

  predicate NoneUnphased(s: State) { forall n :: n in s.restores ==> s.restores[n].phase.Some? }

  predicate EntersSwitching(s: State, e: Event) {
    e.RestorePass? && e.restore in s.restores && !s.restores[e.restore].Is(Switching)
    && Handle(s.restores[e.restore], e.seen, s.now).restore.Is(Switching)
  }

  /** The restore controller finds the restore to have failed. */
  predicate Fails(s: State, e: Event) {
    e.RestorePass? && e.restore in s.restores && Handle(s.restores[e.restore], e.seen, s.now).failed
  }
}
