/**
 * `action.rs`: what one quantum of an action's work reports back to the
 * scheduler.
 */
module Actions {
  /** `Processing`: finished, or to be called again after the given delay (in milliseconds). */
  datatype Processing = Completed | Partial(delayMs: nat)
}
