/** The connector's error shaping helper: every error it throws is a plain
    JavaScript `Error` tagged once with a name, an optional code and the
    helper methods `stringify`, `log` and `throw`. */
module ErrorHelper {
  import opened Wrappers
  import opened Json

  const DEFAULT_ERROR_NAME := "Generic WDC Error"
  const INVALID_INPUT_MESSAGE := "ErrorHelper: customizeGenericError invoked with invalid error input"

  /** The observable parts of a thrown error: its name, message and code. */
  datatype ErrorInfo = ErrorInfo(name: string, message: string, code: Option<Json>)

  /** The error every helper function raises when it is handed something
      that is not an Error: a plain `new Error(...)`, so named "Error". */
  const INVALID_INPUT_ERROR := ErrorInfo("Error", INVALID_INPUT_MESSAGE, None)

  /** A JavaScript Error object. `wdcCustomError` records the tagging; the
      stack text is supplied by the JavaScript engine. */
  class JsError {
    var name: string
    var message: string
    var code: Option<Json>
    var stack: string
    var wdcCustomError: bool

    /** `new Error(message)`. */
    constructor (message: string, stack: string)
      ensures this.name == "Error" && this.message == message && this.code == None
      ensures this.stack == stack && !this.wdcCustomError
    {
      this.name := "Error";
      this.message := message;
      this.code := None;
      this.stack := stack;
      this.wdcCustomError := false;
    }

    function State(): ErrorState
      reads this
    {
      ErrorState(ErrorInfo(name, message, code), wdcCustomError)
    }

    /** `error.throw()`, installed by the tagging: it throws this same object. */
    method Throw() returns (thrown: JsError)
      requires wdcCustomError
      ensures thrown == this
    {
      thrown := this;
    }
  }

  /** The state of an error as seen by the helper. */
  datatype ErrorState = ErrorState(info: ErrorInfo, tagged: bool)

  /** The first argument of `customizeGenericError`: an Error or anything else. */
  datatype ErrorArg = AnError(e: JsError) | NotAnError(v: Option<Json>)

  /** The message argument of `createError`: either an Error to reuse or a text. */
  datatype MessageArg = ErrorMessage(e: JsError) | TextMessage(text: Option<string>)

  /** The state `customizeGenericError(error, name, code)` leaves behind. */
  function Customize(s: ErrorState, name: Option<string>, code: Option<Json>): (r: ErrorState)
    ensures r.tagged
    ensures s.tagged ==> r == s
    ensures !s.tagged ==> r.info.name == name.GetOr(DEFAULT_ERROR_NAME)
    ensures r.info.message == s.info.message
    ensures !s.tagged && code.Some? ==> r.info.code == code
    ensures code.None? ==> r.info.code == s.info.code
  {
    if s.tagged then s
    else ErrorState(ErrorInfo(name.GetOr(DEFAULT_ERROR_NAME), s.info.message,
                              if code.Some? then code else s.info.code), true)
  }

  /** Tagging happens once: customizing an already customized error again,
      with any name and code, changes nothing. */
  lemma CustomizeIsOnce(s: ErrorState, n1: Option<string>, c1: Option<Json>, n2: Option<string>, c2: Option<Json>)
    ensures Customize(Customize(s, n1, c1), n2, c2) == Customize(s, n1, c1)
  {
  }

  /** `customizeGenericError`: throws on non-Error input; otherwise tags the
      error in place (only the first time) and returns that same object. */
  method CustomizeGenericError(error: ErrorArg, name: Option<string>, code: Option<Json>)
      returns (r: Result<JsError, ErrorInfo>)
    modifies if error.AnError? then {error.e} else {}
    ensures error.NotAnError? ==> r == Failure(INVALID_INPUT_ERROR)
    ensures error.AnError? ==> r == Success(error.e)
    ensures error.AnError? ==> error.e.State() == Customize(old(error.e.State()), name, code)
    ensures error.AnError? ==> error.e.stack == old(error.e.stack)
  {
    if error.NotAnError? {
      return Failure(INVALID_INPUT_ERROR);
    }
    var e := error.e;
    if !e.wdcCustomError {
      e.name := name.GetOr(DEFAULT_ERROR_NAME);
      e.wdcCustomError := true;
      if code.Some? {
        e.code := code;
      }
    }
    return Success(e);
  }

  /** `makeErrorFromMessage`: an Error is reused as it is, a text becomes
      a fresh `new Error(text)` (an undefined text gives an empty message). */
  method MakeErrorFromMessage(message: MessageArg, stack: string) returns (e: JsError)
    ensures message.ErrorMessage? ==> e == message.e
    ensures message.TextMessage? ==> fresh(e)
    ensures message.TextMessage? ==>
      e.State() == ErrorState(ErrorInfo("Error", message.text.GetOr(""), None), false)
  {
    if message.ErrorMessage? {
      e := message.e;
    } else {
      e := new JsError(message.text.GetOr(""), stack);
    }
  }

  /** `createError(name, message, code)`: the message turned into an Error,
      then customized with the name (default "Generic WDC Error") and code. */
  method CreateError(name: Option<string>, message: MessageArg, code: Option<Json>, stack: string)
      returns (e: JsError)
    modifies if message.ErrorMessage? then {message.e} else {}
    ensures message.TextMessage? ==> fresh(e)
    ensures message.TextMessage? ==>
      e.State() == ErrorState(Created(name, message.text.GetOr(""), code), true)
    ensures message.ErrorMessage? ==> e == message.e
    ensures message.ErrorMessage? ==>
      e.State() == Customize(old(message.e.State()), name, code)
  {
    e := MakeErrorFromMessage(message, stack);
    var r := CustomizeGenericError(AnError(e), name, code);
  }

  /** Name, message and code of an error `createError` makes from a text. */
  function Created(name: Option<string>, message: string, code: Option<Json>): (r: ErrorInfo)
    ensures r.name == name.GetOr(DEFAULT_ERROR_NAME) && r.message == message && r.code == code
  {
    Customize(ErrorState(ErrorInfo("Error", message, None), false), name, code).info
  }

  /** `error.stringify()`: four labelled lines. An empty message falls back to
      the error's `toString()`, which for an empty message is its name. */
  function Stringify(info: ErrorInfo, stack: string): (r: string)
    ensures info.name != "" && info.message != "" && stack != "" ==>
      r == "\nName: " + info.name + "\nMessage: " + info.message
           + "\nCode: " + TemplateText(info.code) + "\nStack: " + stack
    ensures info.name == "" && info.message == "" && stack == "" ==>
      r == "\nName: " + "Error" + "\nMessage: " + "undefined" + "\nCode: " + TemplateText(info.code)
           + "\nStack: " + "unavailable"
    ensures info.name != "" && info.message == "" ==>
      r == "\nName: " + info.name + "\nMessage: " + info.name + "\nCode: " + TemplateText(info.code)
           + "\nStack: " + (if stack != "" then stack else "unavailable")
  {
    "\nName: " + (if info.name != "" then info.name else "Error")
    + "\nMessage: " + (if info.message != "" then info.message
                       else if info.name != "" then info.name else "undefined")
    + "\nCode: " + TemplateText(info.code)
    + "\nStack: " + (if stack != "" then stack else "unavailable")
  }
}
