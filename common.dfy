/** Values shared by the channel, iterator and selector models. */
module Common {

  /** The exceptions the channel and selector code throws, as values. */
  datatype Error =
    | NullPointer            // Preconditions.checkNotNull on a null message
    | ClosedChannel          // ClosedChannelException
    | NoSuchChannelElement   // NoSuchChannelElementException (a NoSuchElementException)
    | Timeout                // TimeoutException of a timed read or write
    | TooManySelector        // TooManySelectorException
    | IllegalState           // IllegalStateException
    | UnsupportedOperation   // UnsupportedOperationException

  /** A Java reference that may be null: None stands for null. */
  datatype Option<+T> = None | Some(value: T)

  /** How an operation that can throw or wait ends: it returns a value, it would
      wait (the model stops where the thread would block), or it throws. */
  datatype Outcome<+T> = Ok(value: T) | WouldBlock | Fail(error: Error)

  /** Names a registered AfterWriteAction (a hook whose onWrite and close run on
      the writer's and closer's thread). */
  type HookId = nat

  /** Channel ids are UUID strings: lower-case hex digits and dashes. */
  const IdAlphabet := "0123456789abcdef-"

  predicate IsIdText(s: string) {
    forall i :: 0 <= i < |s| ==> s[i] in IdAlphabet
  }

  type ChannelId = s: string | IsIdText(s)
}
