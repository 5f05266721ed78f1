/**
 * The notification log (notify/notifier.go): an append-only list of leveled
 * messages with a flag that records whether any error was logged. Printing
 * each message to standard output is not modelled.
 */
module Notifier {

  datatype Message = Message(level: string, text: string)

  const InfoLevel := "info"
  const ErrorLevel := "error"

  /** Whether some message of `ms` is at error level. */
  predicate AnyError(ms: seq<Message>)
  {
    exists i :: 0 <= i < |ms| && ms[i].level == ErrorLevel
  }

  class MessageLog {
    var messages: seq<Message>
    var hasError: bool

    /** The flag is up exactly when an error-level message has been logged. */
    ghost predicate Valid()
      reads this
    {
      hasError <==> AnyError(messages)
    }

    /** Go's zero value `MessageLog{}`. */
    constructor ()
      ensures Valid()
      ensures messages == [] && !hasError
    {
      messages := [];
      hasError := false;
    }

    /** Appends one info-level message; the error flag is untouched. */
    method Info(text: string)
      requires Valid()
      modifies this
      ensures Valid()
      ensures messages == old(messages) + [Message(InfoLevel, text)]
      ensures |messages| == |old(messages)| + 1
      ensures hasError == old(hasError)
    {
      messages := messages + [Message(InfoLevel, text)];
      assert AnyError(messages) <==> AnyError(old(messages)) by {
        if AnyError(messages) {
          var i :| 0 <= i < |messages| && messages[i].level == ErrorLevel;
          assert i < |old(messages)| && old(messages)[i].level == ErrorLevel;
        }
        if AnyError(old(messages)) {
          var i :| 0 <= i < |old(messages)| && old(messages)[i].level == ErrorLevel;
          assert messages[i].level == ErrorLevel;
        }
      }
    }

    /** Appends one error-level message and raises the error flag for good. */
    method Error(text: string)
      requires Valid()
      modifies this
      ensures Valid()
      ensures messages == old(messages) + [Message(ErrorLevel, text)]
      ensures |messages| == |old(messages)| + 1
      ensures hasError
    {
      messages := messages + [Message(ErrorLevel, text)];
      hasError := true;
      assert messages[|messages| - 1].level == ErrorLevel;
    }
  }
}
