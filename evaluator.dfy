/** The `evaluate` command of the sandbox bridge: the object-literal rewrite
    heuristic and the capture of whatever the evaluated text produced or threw.
    Parsing and running JavaScript are foreign to the model; they are the two
    functions of an `Engine`. */
module Evaluator {
  import opened Wrappers

  /** What running a piece of text did: it produced a value or it threw one. */
  datatype Outcome<V> = Returned(value: V) | Threw(thrown: V)

  /** The JavaScript machinery the bridge leans on.
      `compiles(t)` holds when `new Function(t)` accepts `t` without throwing;
      `run(c)` is the indirect (global-scope) `eval` of the command field `c`.
      For an absent command, `run(None)` is whatever the engine gives; the
      model does not pin it to JavaScript's non-throwing `undefined`. */
  datatype Engine<V> = Engine(compiles: string -> bool, run: Option<string> -> Outcome<V>)

  /** The reply the bridge sends for an evaluation: the captured value and
      whether it was thrown. */
  datatype Reply<V> = Reply(error: bool, result: V)

  /** The command is present, non-empty, and its very first character is `{`
      (JavaScript's `charAt(0)`; leading whitespace is not skipped). */
  predicate StartsWithBrace(cmd: Option<string>): (b: bool)
    ensures b <==> cmd.Some? && "{" <= cmd.value
  {
    cmd.Some? && |cmd.value| > 0 && cmd.value[0] == '{'
  }

  /** The command wrapped in parentheses, turning a would-be block into an
      expression. */
  function Parenthesize(s: string): (r: string)
    ensures |r| == |s| + 2
    ensures r[0] == '(' && r[|r| - 1] == ')'
    ensures r[1..|r| - 1] == s
  {
    "(" + s + ")"
  }

  /** The text the bridge finally evaluates: the parenthesised command when it
      starts with `{` and the wrapped text is valid syntax, the command itself
      otherwise. */
  function Rewrite(cmd: Option<string>, compiles: string -> bool): (r: Option<string>)
    ensures r.Some? <==> cmd.Some?
    ensures r != cmd <==> StartsWithBrace(cmd) && compiles(Parenthesize(cmd.value))
    ensures r != cmd ==> r == Some(Parenthesize(cmd.value))
  {
    if StartsWithBrace(cmd) && compiles(Parenthesize(cmd.value)) then
      Some(Parenthesize(cmd.value))
    else
      cmd
  }

  /** A rewritten command starts with `(`, so rewriting never applies twice. */
  lemma RewriteIdempotent(cmd: Option<string>, compiles: string -> bool)
    ensures Rewrite(Rewrite(cmd, compiles), compiles) == Rewrite(cmd, compiles)
  {
  }

  /** A command that does not start with `{` (absent, empty, or anything
      else first, leading blanks included) is evaluated exactly as given. */
  lemma RewriteLeavesOtherCommands(cmd: Option<string>, compiles: string -> bool)
    requires !StartsWithBrace(cmd)
    ensures Rewrite(cmd, compiles) == cmd
  {
  }

  /** The captured result: the produced value with `error` false, or the
      thrown value with `error` true. Evaluation itself never throws. */
  function Capture<V>(o: Outcome<V>): (r: Reply<V>)
    ensures r.error <==> o.Threw?
    ensures r.result == (if o.Threw? then o.thrown else o.value)
  {
    match o
    case Returned(v) => Reply(false, v)
    case Threw(e) => Reply(true, e)
  }

  /** What evaluating a command yields: run the rewritten text and capture. */
  function Evaluate<V>(cmd: Option<string>, engine: Engine<V>): (r: Reply<V>)
    ensures r.error <==> engine.run(Rewrite(cmd, engine.compiles)).Threw?
  {
    Capture(engine.run(Rewrite(cmd, engine.compiles)))
  }

  /** `{a: 1}`: when the parenthesised text `({a: 1})` is valid, that text, and
      not the block statement, is what runs. */
  lemma ObjectLiteralIsParenthesized<V>(engine: Engine<V>)
    requires engine.compiles("({a: 1})")
    ensures Evaluate(Some("{a: 1}"), engine) == Capture(engine.run(Some("({a: 1})")))
  {
    assert Parenthesize("{a: 1}") == "({a: 1})";
  }

  /** `{ not valid js <<`: the wrapped text is rejected, so the original text
      runs, and if it throws the reply is an error carrying the thrown value. */
  lemma InvalidTextIsReportedAsError<V>(engine: Engine<V>, e: V)
    requires !engine.compiles("({ not valid js <<)")
    requires engine.run(Some("{ not valid js <<")) == Threw(e)
    ensures Evaluate(Some("{ not valid js <<"), engine) == Reply(true, e)
  {
    assert Parenthesize("{ not valid js <<") == "({ not valid js <<)";
  }
}
