/**
 The lifecycle vocabulary: capture states, transition reasons, generations and
 the table of allowed transitions.
 */
module Lifecycle {
  datatype CaptureState = Off | Starting | Recording | Paused | Privacy | Stopping | Faulted

  datatype TransitionReason =
    | UserStart | StartupOptIn | UserStop | UserPause | UserResume
    | PrivacyEnabled | PrivacyDisabled | SessionLocked | SessionUnlocked
    | Idle | Active | CriticalFault | StartupSafeDefault | Shutdown

  // A capture generation is a positive number; constructing any other raises.
  type Generation = g: int | g > 0 witness 1

  type Revision = string

  datatype Transition = Transition(previous: CaptureState,
                                   current: CaptureState,
                                   generation: Generation,
                                   reason: TransitionReason)

  // The table of allowed transitions.
  predicate CanMove(previous: CaptureState, current: CaptureState) {
    match previous
    case Off => current == Starting || current == Faulted
    case Starting =>
      current == Recording || current == Paused || current == Stopping || current == Off || current == Faulted
    case Recording => current == Paused || current == Privacy || current == Stopping || current == Faulted
    case Paused =>
      current == Recording || current == Paused || current == Privacy || current == Stopping || current == Faulted
    case Privacy => current == Recording || current == Paused || current == Stopping || current == Faulted
    case Stopping => current == Off || current == Faulted
    case Faulted => current == Off
  }

  // The states in which a generation is active.
  predicate IsActiveState(s: CaptureState) {
    s == Starting || s == Recording || s == Paused
  }

  predicate Legal(t: Transition) {
    CanMove(t.previous, t.current)
  }
}
