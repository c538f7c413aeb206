# Sandbox command bridge

A Dafny model of the command bridge that runs inside a CodeSandbox preview frame
(`packages/app/src/sandbox/index.js`). The host frame posts messages; the
sandbox routes each trusted message of a known type to exactly one handler:
the current (version 3) or legacy compiler, a history step, a reload, an
evaluation whose result is sent back as `eval-result` unless encoding it fails
(the failure is only logged), or a `transpiler-context` reply. A message of any
other type, or from an untrusted channel, is ignored. At start-up the bridge
listens and then announces readiness; messages are handled only once that
listener is registered, so readiness is always the first message sent. A standalone sandbox
instead reads its own id from the page location, fetches its record, and
compiles it as a single version-3 request.

Modules, one per part of the file:

- `Evaluator` (`evaluator.dfy`): the object-literal rewrite. A command whose
  first character is `{` is wrapped in parentheses if the wrapped text is valid
  syntax. Whatever running the command produced or threw is then captured.
- `SandboxId` (`sandbox_id.dfy`): the production branch of `getId`. The
  scheme is stripped from the configured host. The id is the part of the
  location host before the last `.<host>`.
- `Bootstrap` (`bootstrap.dfy`): the module-map loop, the `/package.json`
  fallback and the standalone compile request.
- `Bridge` (`bridge.dfy`): the message class, the dispatch table `Route`, the
  specification `Respond` of one `handleMessage` call, and the class `Sandbox`.
  `Sandbox` records effects in `actions` and messages to the host in `outbox`.
  Its `HandleMessage` is proved against `Respond`.
- `Wrappers` (`wrappers.dfy`): `Option`.

Foreign code becomes function-valued parameters:

- `new Function(t)` not throwing becomes `Engine.compiles`.
- The indirect `eval` becomes `Engine.run`, which returns `Returned(v)` or `Threw(e)`.
- console-feed's `Encode` becomes `Collaborators.encode`; `None` means it threw.
- `getModulePath` and `generateFileFromSandbox` become the two functions of a `Resolver`.
- The transpiler context that the current manager would yield is an
  `Option<map>` argument whose values have their own type `C`, apart from the
  type `V` of evaluated values. `None` means no manager exists yet.

The source tests the first character with `charAt(0)`, so leading whitespace
is not skipped and ` {a: 1}` is evaluated unwrapped
(`Evaluator.StartsWithBrace`, `Evaluator.RewriteLeavesOtherCommands`).

## Model

| member | source | states |
|---|---|---|
| `Evaluator.Parenthesize` | packages/app/src/sandbox/index.js:72 | the wrapped text is the command between an opening and a closing parenthesis, two characters longer |
| `Evaluator.StartsWithBrace` | packages/app/src/sandbox/index.js:70 | the test holds iff the command is present and `{` is its first character (a prefix of it), so an absent or empty command and a leading blank all fail it |
| `Evaluator.Rewrite` | packages/app/src/sandbox/index.js:70-79 | the command changes iff it is present and non-empty, its first character is `{` and the wrapped text validates; it then becomes exactly the wrapped text, otherwise it is left as is |
| `Evaluator.RewriteIdempotent` | packages/app/src/sandbox/index.js:70-79 | rewriting an already rewritten command changes nothing |
| `Evaluator.RewriteLeavesOtherCommands` | packages/app/src/sandbox/index.js:70 | an absent or empty command, or one not starting with `{` (a leading blank included), runs unchanged |
| `Evaluator.Capture` | packages/app/src/sandbox/index.js:81-85 | `error` is true iff execution threw; the result is then the thrown value, otherwise the produced value |
| `Evaluator.Evaluate` | packages/app/src/sandbox/index.js:64-85 | the reported error flag is true iff running the rewritten command threw |
| `Evaluator.ObjectLiteralIsParenthesized` | packages/app/src/sandbox/index.js:67-81 | for `{a: 1}`, when `({a: 1})` validates, the parenthesised text is what runs |
| `Evaluator.InvalidTextIsReportedAsError` | packages/app/src/sandbox/index.js:70-85 | for `{ not valid js <<`, the rejected wrapping falls back to the original text, and its throw is reported with `error` true and the thrown value |
| `SandboxId.SchemeLength` | packages/app/src/sandbox/index.js:36 | the scheme matched is 8 characters long exactly when it is `https://`, 7 for `http://` |
| `SandboxId.FirstSchemeFrom` | packages/app/src/sandbox/index.js:36 | the result is the leftmost position where `http://` or `https://` starts, or none if there is no such position |
| `SandboxId.StripScheme` | packages/app/src/sandbox/index.js:36 | the host never grows, and it is left unchanged iff no `http://` or `https://` occurs anywhere in it |
| `SandboxId.StripLeadingScheme` | packages/app/src/sandbox/index.js:36 | a host `https://h` or `http://h` becomes `h` |
| `SandboxId.StripFirstScheme` | packages/app/src/sandbox/index.js:36 | for every host `pre + scheme + rest` where no scheme starts inside `pre`, exactly that first scheme is removed, giving `pre + rest`; later schemes stay |
| `SandboxId.StripNoScheme` | packages/app/src/sandbox/index.js:36 | a host without a scheme is kept unchanged |
| `SandboxId.LastOccurrenceUpTo` | packages/app/src/sandbox/index.js:37-38 | the result is the greatest index up to a bound where the pattern occurs, or none if it occurs nowhere up to that bound |
| `SandboxId.LastOccurrence` | packages/app/src/sandbox/index.js:37-38 | the result is the last index where the pattern occurs; none iff it never occurs |
| `SandboxId.Marker` | packages/app/src/sandbox/index.js:37 | the text that must follow the id is a dot followed by the scheme-less host |
| `SandboxId.SandboxIdOf` | packages/app/src/sandbox/index.js:36-38 | no id iff `.<host>` never occurs in the location (the match is null); otherwise the id is the prefix of the location that `.<host>` follows, and `.<host>` does not occur further right |
| `SandboxId.SandboxIdRoundTrip` | packages/app/src/sandbox/index.js:36-38 | the location `<id>.<host>` yields `id` for every id |
| `Bootstrap.ModuleObjectKeys` | packages/app/src/sandbox/index.js:139-148 | the module object's keys are exactly the computed paths of the modules |
| `Bootstrap.ModuleObject` | packages/app/src/sandbox/index.js:142-148 | after `n` modules are stored the object has at most `n` entries, and each entry is stored under its own `path` |
| `Bootstrap.ModuleObjectEntries` | packages/app/src/sandbox/index.js:142-148 | each entry's `path` is its key, and its code is the code of a module whose computed path is that key |
| `Bootstrap.ModuleObjectKeepsCode` | packages/app/src/sandbox/index.js:142-148 | a module whose path no later module shares is stored under its computed path with its code unchanged |
| `Bootstrap.WithPackageJson` | packages/app/src/sandbox/index.js:150-155 | `/package.json` is always present afterwards; an existing entry, that one included, is never overwritten; the generated file is added only when the key is absent |
| `Bootstrap.BuildModuleObject` | packages/app/src/sandbox/index.js:139-155 | the loop builds exactly the module object of all modules, with the `/package.json` fallback |
| `Bootstrap.AssembleRequest` | packages/app/src/sandbox/index.js:157-166 | the request has `version` 3, `hasActions` false, entry `"/" + entry`, and the id, modules, resources, dependencies and template carried over |
| `Bootstrap.StandaloneRequestModules` | packages/app/src/sandbox/index.js:139-166 | in the assembled request `/package.json` exists, and every module that no later module shadows appears under its computed path with its code |
| `Bridge.Route` | packages/app/src/sandbox/index.js:50-111 | each `type` selects exactly one handler: `compile` the current compiler iff `version` is 3 and otherwise the legacy one, `urlback`, `urlforward`, `refresh`, `evaluate` and `get-transpiler-context` their own handlers, and any other type none |
| `Bridge.EvaluationReaction` | packages/app/src/sandbox/index.js:63-95 | an evaluation has exactly one consequence, either an `eval-result` whose `error` is the evaluation's error flag or a logged error; the command becomes its rewrite |
| `Bridge.Respond` | packages/app/src/sandbox/index.js:48-113 | one message sends at most one message and records at most two actions; only a trusted message of a known type has any effect, and only a trusted `evaluate` or `get-transpiler-context` sends anything |
| `Bridge.UntrustedMessageIgnored` | packages/app/src/sandbox/index.js:48-49 | a message whose `source` is falsy triggers no action, sends nothing and leaves the command alone |
| `Bridge.CompilePathsExclusive` | packages/app/src/sandbox/index.js:50-56 | `compile` with version 3 calls only the current compiler; any other or absent version loads and calls only the legacy one; nothing is sent |
| `Bridge.NavigationCommands` | packages/app/src/sandbox/index.js:57-62 | `urlback`, `urlforward` and `refresh` record history back, history forward and reload respectively, and send nothing |
| `Bridge.UnknownKindIgnored` | packages/app/src/sandbox/index.js:50-112 | an unrecognised `type` does nothing, trusted or not |
| `Bridge.EvaluateRepliesOnce` | packages/app/src/sandbox/index.js:63-95 | `evaluate` sends exactly one `eval-result`, whose `error` is true iff running the rewritten command threw and whose result encodes the thrown or produced value; a failed encoding sends nothing and logs instead; the command is rewritten in place |
| `Bridge.TranspilerContextRepliesOnce` | packages/app/src/sandbox/index.js:96-110 | `get-transpiler-context` sends exactly one `transpiler-context`, carrying the manager's context or the empty mapping when there is no manager |
| `Bridge.AtMostOneReply` | packages/app/src/sandbox/index.js:48-113 | any message sends at most one message and never `initialized`; only a trusted `evaluate` can change the command |
| `Bridge.Sandbox.HandleMessage` | packages/app/src/sandbox/index.js:48-113 | the recorded actions, the outbox and the message's command change exactly as `Respond` prescribes; it is reached only once the listener is registered, and `initialized` stays sent once and first |
| `Bridge.Sandbox.Start` | packages/app/src/sandbox/index.js:41-128 | registers the service worker; with a host, listens before sending the single `initialized`, then sets up history and console hooks; standalone or under test, fetches `/api/v1/sandboxes/<id>` only when an id can be read |
| `Bridge.Sandbox.CompileFetched` | packages/app/src/sandbox/index.js:138-168 | records one compile of the request assembled from the fetched record and sends nothing |

## Left out

- JavaScript itself: parsing (`new Function`) and the global-scope `eval` are the parameters `Engine.compiles` and `Engine.run`. `run` is a fixed function of the text, so one evaluation's effect on global state, as seen by the next evaluation, is not modelled.
- `Evaluator.Engine.run` is unconstrained on an absent command. In the source, `(0, eval)(undefined)` returns `undefined` and never throws; the model lets `run(None)` be any outcome, so it does not promise `error == false` for an absent command.
- Commands that are not strings. A truthy non-string command makes `charAt` throw inside the outer `try`, which gives an error reply. A falsy one (`0`, `false`, `null`, `NaN`) fails the `data.command &&` test, skips the rewrite and is evaluated as is, so `eval` returns it and the reply has `error` false. The model types the command as an optional string and covers neither case.
- Only JavaScript truthiness that matters is modelled. `source` is a boolean. `version` is an optional integer, so a non-numeric version is treated like an absent one; both are `!== 3` in the source too.
- console-feed's `Encode` is the parameter `Collaborators.encode`. Its failure is `None`, which the bridge logs (`LogError`) instead of sending.
- `dispatch` is assumed never to throw. In the source, a throwing `dispatch` of `eval-result` would be logged the same way as an encoding failure.
- The module loader's memoisation of `import('./compile-old')` is not modelled. Every legacy compile records a `LoadLegacyCompiler` request before `CompileLegacy`; the loader fetches the code only the first time.
- Asynchrony: the lazy `import('./compile-old')` and the awaited `getTranspilerContext()` are treated as completing within the same dispatch. A failed import or a rejected context promise (no compile, no reply) is not modelled. Interleaving between concurrent dispatches is not modelled either.
- The channel and browser plumbing (`listen`, `dispatch`, `history`, `location.reload`, service worker, polyfills, console and history hooks) is recorded as `Action`s and outbox entries only.
- The `fetch`, `res.json()` and `camelizeKeys` steps: the model starts from an already decoded `SandboxRecord`. `CompileFetched` is the continuation after the fetch.
- `getModulePath` and `generateFileFromSandbox` are `Resolver` parameters. Their code is not part of this model.
- `getId`'s `LOCAL_SERVER` and `STAGING` branches depend on build-time environment configuration and are not modelled.
- `SandboxId.SandboxIdOf`: the regular expression's `.` does not match line terminators, and the host's characters other than `.` are not escaped. The model assumes hosts contain neither line terminators nor other regular-expression metacharacters.
- `SCRIPT_VERSION` and the debug logger are not modelled; they take no part in dispatch.
