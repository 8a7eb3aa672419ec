/**
 * `state.rs`: the record the application keeps for its window: the message
 * log, how far it is scrolled, and the line being typed with its cursor.
 */
module AppState {
  /** `UserMessage`; the date is an opaque clock reading (the clock is outside the model). */
  datatype UserMessage = UserMessage(user: string, data: string, date: int)

  /** `ApplicationState` */
  datatype ApplicationState = ApplicationState(
    messages: seq<UserMessage>,
    scrollMessagesView: nat,
    input: string,
    inputCursor: nat)

  /** The cursor stands on a character of the input or just after its end. */
  predicate CursorInInput(s: ApplicationState)
  {
    s.inputCursor <= |s.input|
  }

  /** `ApplicationState::new`: nothing logged, not scrolled, nothing typed, and a cursor within the input. */
  function New(): (s: ApplicationState)
    ensures s.messages == [] && s.scrollMessagesView == 0
    ensures s.input == [] && s.inputCursor == 0
    ensures CursorInInput(s)
  {
    ApplicationState([], 0, "", 0)
  }
}
