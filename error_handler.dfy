/** `useErrorHandler`: the toast raised for a failed request. */
module ErrorHandler {
  import opened Forms

  /**
   * The parts of a caught error the handler reads: the server's message at
   * `response.data.error.message` (`Undefined` when any step of that path is
   * missing) and the error's own `message`.
   */
  datatype CaughtError = CaughtError(serverMessage: Input, message: Input)

  datatype Toast = Toast(title: string, description: Input, duration: int)

  const Title := "Có lỗi xảy ra!"
  const GenericMessage := "Lỗi bất định hoặc lỗi server"
  const Duration := 2000

  /**
   * `typeof v === "object"`. `Forms.Input` has no plain-object value, so the
   * objects here are `null`, dates and arrays; a server message that is a
   * plain object is not modelled.
   */
  predicate IsObject(v: Input) {
    v.Null? || v.Date? || v.List?
  }

  /** `catchError`: the toasts raised, one per call. */
  method CatchError(error: CaughtError) returns (toasts: seq<Toast>)
    ensures |toasts| == 1 && toasts[0].title == Title && toasts[0].duration == Duration
    ensures error.serverMessage.Str? ==> toasts[0].description == error.serverMessage
    ensures IsObject(error.serverMessage) ==> toasts[0].description == Str(GenericMessage)
    ensures error.serverMessage == Undefined ==> toasts[0].description == error.message
    ensures error.serverMessage.Num? || error.serverMessage.Flag? ==> toasts[0].description == error.serverMessage
  {
    var message := error.serverMessage;
    if IsObject(message) {
      message := Str(GenericMessage);
    }
    if message == Undefined || message == Null {
      message := error.message;
    }
    toasts := [Toast(Title, message, Duration)];
  }

  /** A `null` server message becomes the generic text, never the error's own message. */
  method NullMessageIsGeneric(message: Input) returns (toasts: seq<Toast>)
    ensures |toasts| == 1 && toasts[0].description == Str(GenericMessage)
  {
    toasts := CatchError(CaughtError(Null, message));
  }

  /** An empty server message is kept: only a missing one falls back to the error's own message. */
  method EmptyMessageIsKept(message: Input) returns (toasts: seq<Toast>)
    ensures |toasts| == 1 && toasts[0].description == Str("")
  {
    toasts := CatchError(CaughtError(Str(""), message));
  }
}
