# Frege interpreter for Zeppelin, modelled in Dafny

This project models the two pieces of logic in the Zeppelin interpreter for
Frege, a Haskell dialect for the JVM:

- **The binding detector** (`Parser`). `hasDisplay` and `hasMain` report whether a
  snippet binds the reserved name `z_display` or `z_main` at the top level. Both
  search the text with the Java regular expression `(^|\s)NAME\s*=`, compiled with
  `MULTILINE` and run with `Matcher.find()`. `parser.dfy` writes that expression
  out as the predicate `Parser.Binds`:
  - Java's `\s` is `[ \t\n\x0B\f\r]`.
  - Under `MULTILINE`, `^` matches at the start of the input. It also matches after
    `\n`, `\r`, `\u0085`, `\u2028` or `\u2029`, except between `\r` and `\n` and at
    the end of the input.

  The scan that answers each query (`Find`, which uses `MatchesAt` and `SkipSpaces`)
  is proved to decide exactly that predicate. It is also proved to report the
  leftmost match, as `find()` does. `parser_properties.dfy` proves what the rule
  implies: the test vectors, the rejection of longer identifiers, case
  sensitivity, and that matches survive appended text.
- **The interpreter** (`HaskellFregeInterpreter`, in `interpreter.dfy`). It is a
  class whose `engine` field is set by `open` and cleared by `close`. The Frege
  script engine is a foreign library. It is modelled as an oracle `Engine` that
  maps each source text to an `Evaluation`, which is one of:
  - `Nothing`;
  - `Just` a plain value (given with its textual rendering);
  - `Just` a lambda, which carries the outcome of forcing it;
  - a raised `WrappedCheckedException` or other exception.

  `Interpret` returns three things: the Zeppelin result, the texts it handed to
  the engine, and whether it flushed the output writer. Its contract states the
  routing:
  - the snippet is evaluated first;
  - there is at most one fallback, and only when that evaluation yields `Nothing`;
  - `display z_display` takes priority over `z_main`, and both choices come from
    the detector run on the original script;
  - the outcome of the last evaluation is classified into `SUCCESS` with text,
    `SUCCESS` without a message, or `ERROR` with the exception's message;
  - every modelled outcome, including every `Exception` the engine raises, is
    caught and returned as a result.

Three behaviours of the code are worth stating plainly:
- A closed interpreter: `engine.compile` on the null `engine` raises a
  `NullPointerException`, which `catch (Exception e)` turns into `ERROR`. The
  model returns `ERROR` and evaluates nothing.
- The writer is flushed only after a lambda is forced; a plain value or
  `Nothing` returns without a flush. The model's `flushed` flag records this.
- The regular expression has no notion of comments.
  `ParserProperties.CommentedBindingCounts` shows that `-- z_main = 1` binds
  `z_main`.

## Model

| member | source | states |
|---|---|---|
| `Parser.SkipSpaces` | src/main/java/org/apache/zeppelin/haskell/Parser.java:7-9 | the greedy `\s*` stops at the first non-`\s` character after position j, and everything it passed is `\s` |
| `Parser.EqualsAfterSpacesAtRunEnd` | src/main/java/org/apache/zeppelin/haskell/Parser.java:7-9 | `\s*=` matches at j exactly when the character after the maximal run of spaces is `=`; backtracking into the run never helps |
| `Parser.MatchesAt` | src/main/java/org/apache/zeppelin/haskell/Parser.java:7-9 | the check at one position answers true exactly when the whole expression matches with NAME starting there |
| `Parser.Find` | src/main/java/org/apache/zeppelin/haskell/Parser.java:11-17 | `find()` succeeds exactly when the expression matches somewhere, and then it reports the leftmost position at which NAME binds |
| `Parser.HasDisplay` | src/main/java/org/apache/zeppelin/haskell/Parser.java:11-13 | true exactly when the script binds `z_display` under the rule |
| `Parser.HasMain` | src/main/java/org/apache/zeppelin/haskell/Parser.java:15-17 | true exactly when the script binds `z_main` under the same rule with the other literal |
| `ParserProperties.LiteralAt` | src/main/java/org/apache/zeppelin/haskell/Parser.java:7-9 | a match holds every character of the literal at its place, compared without case folding |
| `ParserProperties.NoEqualsNoBinding` | src/main/java/org/apache/zeppelin/haskell/Parser.java:9 | a text without `=` binds nothing, so the bare name never matches |
| `ParserProperties.LiteralAbsentNoBinding` | src/main/java/org/apache/zeppelin/haskell/Parser.java:7-9 | a text that lacks any one character of the name binds nothing |
| `ParserProperties.EmptyBindsNothing` | src/test/java/org/apache/zeppelin/haskell/ParserTest.java:14 | the empty snippet binds no name |
| `ParserProperties.AppendKeepsBinding` | src/main/java/org/apache/zeppelin/haskell/Parser.java:11-17 | the search is existential: appending any text to a matching text keeps it matching |
| `ParserProperties.PrependKeepsBinding` | src/main/java/org/apache/zeppelin/haskell/Parser.java:7-9 | a prefix that is empty or ends in a space or line terminator keeps a match |
| `ParserProperties.NameMustEndTheIdentifier` | src/test/java/org/apache/zeppelin/haskell/ParserTest.java:16 | the character right after a bound name is a space or `=`, so a longer identifier such as `z_maintain` never binds `z_main` |
| `ParserProperties.NameMustStartTheIdentifier` | src/test/java/org/apache/zeppelin/haskell/ParserTest.java:15 | the character right before a bound name is a space or a line terminator, unless the name starts the text |
| `ParserProperties.MainRejected` | src/test/java/org/apache/zeppelin/haskell/ParserTest.java:14-17 | `hasMain` rejects `""`, `zz_main=`, `z_maintain=` and `z_main` |
| `ParserProperties.MainAccepted` | src/test/java/org/apache/zeppelin/haskell/ParserTest.java:18-20 | `hasMain` accepts `z_main=`, `z_main =` and `\nz_main\n=` |
| `ParserProperties.DisplayRejected` | src/test/java/org/apache/zeppelin/haskell/ParserTest.java:25-28 | `hasDisplay` rejects `""`, `zz_display=`, `z_displayy=` and `z_display` |
| `ParserProperties.DisplayAccepted` | src/test/java/org/apache/zeppelin/haskell/ParserTest.java:29-31 | `hasDisplay` accepts `z_display=`, `z_display =` and `\nz_display\n=` |
| `ParserProperties.CaseSensitive` | src/main/java/org/apache/zeppelin/haskell/Parser.java:7-9 | `Z_MAIN=` and `Z_DISPLAY=` bind nothing |
| `ParserProperties.DisplayScenario` | src/test/java/org/apache/zeppelin/haskell/HaskellFregeInterpreterTest.java:95-100 | a definition line followed by `z_display = ...` binds `z_display` |
| `ParserProperties.MainScenario` | src/test/java/org/apache/zeppelin/haskell/HaskellFregeInterpreterTest.java:103-108 | a definition line followed by `z_main = ...` binds `z_main` |
| `ParserProperties.MainScenarioHasNoDisplay` | src/test/java/org/apache/zeppelin/haskell/HaskellFregeInterpreterTest.java:103-108 | that snippet does not bind `z_display`, so `z_main` is the fallback taken |
| `ParserProperties.CommentScenario` | src/test/java/org/apache/zeppelin/haskell/HaskellFregeInterpreterTest.java:111-118 | the test's three comment lines (a line comment, then a two-line block comment) before `z_display = 42` leave the binding detected |
| `ParserProperties.CommentedBindingCounts` | src/main/java/org/apache/zeppelin/haskell/Parser.java:9 | the rule does not recognise comments: `-- z_main = 1` binds `z_main` |
| `FregeInterpreter.HaskellFregeInterpreter.constructor` | src/main/java/org/apache/zeppelin/haskell/HaskellFregeInterpreter.java:43-47 | a new interpreter has no engine |
| `FregeInterpreter.HaskellFregeInterpreter.Open` | src/main/java/org/apache/zeppelin/haskell/HaskellFregeInterpreter.java:50-52 | `open` installs the engine |
| `FregeInterpreter.HaskellFregeInterpreter.Close` | src/main/java/org/apache/zeppelin/haskell/HaskellFregeInterpreter.java:55-57 | `close` clears the engine |
| `FregeInterpreter.HaskellFregeInterpreter.Cancel` | src/main/java/org/apache/zeppelin/haskell/HaskellFregeInterpreter.java:107-108 | `cancel` changes nothing |
| `FregeInterpreter.HaskellFregeInterpreter.GetFormType` | src/main/java/org/apache/zeppelin/haskell/HaskellFregeInterpreter.java:111-113 | the form type is always `SIMPLE` |
| `FregeInterpreter.HaskellFregeInterpreter.GetProgress` | src/main/java/org/apache/zeppelin/haskell/HaskellFregeInterpreter.java:116-118 | the progress is always 0 |
| `FregeInterpreter.HaskellFregeInterpreter.Interpret` | src/main/java/org/apache/zeppelin/haskell/HaskellFregeInterpreter.java:60-104 | the snippet is evaluated first; a fallback happens exactly when that yields `Nothing` and the original script binds `z_display` or `z_main`, and then it is `display z_display` whenever `z_display` is bound; at most one fallback; the last evaluation decides the result: `Nothing` gives `SUCCESS` without message, a plain value `SUCCESS` with its rendering, a lambda forced without error `SUCCESS` without message and a flush, an exception (during evaluation or forcing) `ERROR` with its message; a closed interpreter gives `ERROR` and evaluates nothing; the code is always `SUCCESS` or `ERROR` for every modelled outcome |

## Left out

- The Frege script engine: compiling, type checking, evaluation, modules and imports. The model sees it only as the oracle `Engine`.
- Bindings accumulating or being redefined across calls: the oracle is one fixed function per engine, so the engine's growing state between calls is not modelled. Scenarios that depend on it, such as defining a function and calling it in a later call, are not stated.
- Forcing a lambda (`apply(1).result().forced()`): the oracle states up front whether forcing completes or raises.
- Output redirection (`Runtime.stdout`, `Runtime.stderr`, the `PrintWriter` over the context's output) is global I/O. Only whether `flush` was called is recorded.
- `String.valueOf` rendering of engine values, the `%text` prefix of Zeppelin's `InterpreterResult.toString`, `InterpreterUtils.getMostRelevantMessage` and SLF4J logging are library code. The oracle supplies the rendered text and the message, and logging is omitted.
- FregeInterpreter.HaskellFregeInterpreter.Interpret: the text of the `NullPointerException` message on a closed interpreter is not modelled. Its contract states only that the result is `ERROR`.
- FregeInterpreter.HaskellFregeInterpreter.Interpret: throwables that are not `Exception`s (a `StackOverflowError` while forcing, a `NoClassDefFoundError` from the engine) are not caught by `interpret` and propagate to the caller; evaluation or forcing that does not terminate blocks the call. The oracle has no outcome for either, so the contract's "always `SUCCESS` or `ERROR`" covers only the outcomes modelled.
- FregeInterpreter.HaskellFregeInterpreter.Interpret: a `WrappedCheckedException` is assumed to have a cause. If it had none, `e.getCause().getMessage()` would throw out of the `catch` clause.
- The `Properties` passed to the constructor and the `InterpreterContext` passed to `interpret`, `cancel` and `getProgress` carry nothing the modelled logic reads, so they are not parameters of the model.
- Concurrency: calls on one interpreter are taken to be serial, as the host issues them.
