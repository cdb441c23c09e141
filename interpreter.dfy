/** The Zeppelin interpreter for Frege snippets. The Frege script engine is a
    foreign library, so it appears here as an oracle: evaluating a piece of
    source text yields `Nothing`, `Just` a plain value, `Just` a lambda (an
    unforced IO action), or raises an exception. What this module states is
    the routing around it: the fallback to `z_display` or `z_main` when the
    snippet yields `Nothing`, and the classification of the final outcome
    into a Zeppelin result. */
module FregeInterpreter {
  import opened Parser

  datatype Option<T> = None | Some(value: T)

  /** The two kinds of exception `interpret` distinguishes. */
  datatype Failure =
    | WrappedChecked(causeMessage: string)       // a WrappedCheckedException; the message of its cause
    | OtherException(relevantMessage: string)    // any other exception; its most relevant message

  /** The payload of a `Just`: a fully evaluated value, rendered as text, or a
      lambda whose forcing either completes (None) or raises. */
  datatype Value =
    | Plain(rendering: string)
    | Lambda(forcing: Option<Failure>)

  /** The outcome of compiling and evaluating one piece of source text. */
  datatype Evaluation =
    | Nothing
    | Just(value: Value)
    | Raised(failure: Failure)

  /** A script engine, seen only through what it evaluates each text to. */
  datatype Engine = Engine(eval: string -> Evaluation)

  /** Zeppelin's `InterpreterResult.Code`. */
  datatype Code = SUCCESS | INCOMPLETE | ERROR | KEEP_PREVIOUS_RESULT

  /** Zeppelin's `InterpreterResult`: a code and at most one text message. */
  datatype InterpreterResult = InterpreterResult(code: Code, message: Option<string>)

  /** Zeppelin's `Interpreter.FormType`. */
  datatype FormType = NATIVE | SIMPLE | NONE

  /** The fallback expressions evaluated when the snippet itself yields `Nothing`. */
  const DisplayExpr: string := "display z_display"
  const MainExpr: string := "z_main"

  /** The message a closed interpreter reports: calling the missing engine
      raises a NullPointerException, which `interpret` reports as an error.
      Its exact text is not modelled. */
  const NoEngineMessage: string := ""

  /** The message that each `catch` clause of `interpret` puts in the result. */
  function ErrorMessage(f: Failure): (message: string) {
    match f
    case WrappedChecked(m) => m
    case OtherException(m) => m
  }

  class HaskellFregeInterpreter {
    /** The script engine: set by `open`, cleared by `close`. */
    var engine: Option<Engine>

    constructor ()
      ensures engine.None?
    {
      engine := None;
    }

    /** `open`: takes the engine the engine factory created. */
    method Open(e: Engine)
      modifies this
      ensures engine == Some(e)
    {
      engine := Some(e);
    }

    /** `close`: drops the engine. */
    method Close()
      modifies this
      ensures engine.None?
    {
      engine := None;
    }

    /** `cancel`: not supported; nothing changes. */
    method Cancel()
      ensures unchanged(this)
    {
    }

    /** `getFormType`: the snippet is always one free-text block. */
    method GetFormType() returns (f: FormType)
      ensures f == SIMPLE
    {
      f := SIMPLE;
    }

    /** `getProgress`: no progress is ever reported. */
    method GetProgress() returns (p: int)
      ensures p == 0
    {
      p := 0;
    }

    /** `interpret`. Besides the result it returns the texts handed to the
        engine, in order, and whether the output writer was flushed. */
    method Interpret(script: string) returns (r: InterpreterResult, requests: seq<string>, flushed: bool)
      // every modelled outcome, each `Exception` included, ends in a success or an error
      ensures r.code == SUCCESS || r.code == ERROR
      // a closed interpreter evaluates nothing and reports an error
      ensures engine.None? ==> r.code == ERROR && requests == [] && !flushed
      // the snippet itself is always evaluated first, and at most one fallback follows
      ensures engine.Some? ==> 1 <= |requests| <= 2 && requests[0] == script
      // a fallback happens exactly when the snippet yields Nothing and binds one of the names
      ensures engine.Some? ==>
        (|requests| == 2 <==>
          engine.value.eval(script).Nothing? && (Binds(script, DisplayName) || Binds(script, MainName)))
      // the display binding takes priority over the main binding
      ensures |requests| == 2 ==>
        requests[1] == (if Binds(script, DisplayName) then DisplayExpr else MainExpr)
      // the outcome of the last evaluation decides the result
      ensures engine.Some? ==>
        var last := engine.value.eval(requests[|requests| - 1]);
        match last
        case Nothing => r == InterpreterResult(SUCCESS, None) && !flushed
        case Just(Plain(s)) => r == InterpreterResult(SUCCESS, Some(s)) && !flushed
        case Just(Lambda(None)) => r == InterpreterResult(SUCCESS, None) && flushed
        case Just(Lambda(Some(f))) => r == InterpreterResult(ERROR, Some(ErrorMessage(f))) && !flushed
        case Raised(f) => r == InterpreterResult(ERROR, Some(ErrorMessage(f))) && !flushed
    {
      if engine.None? {
        return InterpreterResult(ERROR, Some(NoEngineMessage)), [], false;
      }
      var eval := engine.value.eval;
      requests := [script];
      flushed := false;
      var result := eval(script);
      if result.Nothing? {
        var display := HasDisplay(script);
        if display {
          requests := requests + [DisplayExpr];
          result := eval(DisplayExpr);
        } else {
          var main := HasMain(script);
          if main {
            requests := requests + [MainExpr];
            result := eval(MainExpr);
          }
        }
      }
      match result {
        case Raised(f) =>
          r := InterpreterResult(ERROR, Some(ErrorMessage(f)));
        case Nothing =>
          r := InterpreterResult(SUCCESS, None);
        case Just(Plain(s)) =>
          r := InterpreterResult(SUCCESS, Some(s));
        case Just(Lambda(forcing)) =>
          if forcing.Some? {
            r := InterpreterResult(ERROR, Some(ErrorMessage(forcing.value)));
          } else {
            flushed := true;
            r := InterpreterResult(SUCCESS, None);
          }
      }
    }
  }
}
