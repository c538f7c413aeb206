/** The sandbox side of the host/sandbox bridge: start-up, and the dispatch of
    each inbound message to exactly one action. Browser effects (navigation,
    reload, compiling, logging, listening) are recorded as `Action`s; what the
    sandbox sends back to the host is appended to an outbox. */
module Bridge {
  import opened Wrappers
  import opened Evaluator
  import opened Bootstrap
  import opened SandboxId

  /** An inbound message. `kind` is its `type` field; `command` is the only
      field the bridge itself ever rewrites. Any other payload travels with the
      object to the compiler and is not modelled. */
  class Message {
    const kind: string
    const version: Option<int>
    var command: Option<string>

    constructor (kind: string, version: Option<int>, command: Option<string>)
      ensures this.kind == kind && this.version == version && this.command == command
    {
      this.kind := kind;
      this.version := version;
      this.command := command;
    }
  }

  /** What `compile` is handed: a host message or a request the standalone
      bootstrap assembled. */
  datatype CompileInput = HostMessage(message: Message) | Assembled(request: CompileRequest)

  /** The recorded effects of the bridge. */
  datatype Action =
    | RegisterServiceWorker(script: string)
    | Listen                           // the message listener is registered
    | SetupHistoryListeners
    | SetupConsole
    | FetchSandbox(url: string)        // the standalone bootstrap's fetch
    | Compile(input: CompileInput)     // the current (version 3) compiler
    | LoadLegacyCompiler               // the lazy `import('./compile-old')`
    | CompileLegacy(message: Message)  // the legacy compiler
    | HistoryBack
    | HistoryForward
    | Reload
    | LogError                         // `console.error` of an encoding failure

  /** Messages sent to the host. `E` is an encoded evaluation result; `C` is
      a value of the compilation manager's transpiler context. */
  datatype OutMessage<C, E> =
    | Initialized
    | EvalResult(error: bool, result: E)
    | TranspilerContextReply(data: map<string, C>)

  /** The foreign code an evaluation needs: the JavaScript engine and
      console-feed's `Encode`, which is `None` when encoding throws. */
  datatype Collaborators<!V, E> = Collaborators(engine: Engine<V>, encode: V -> Option<E>)

  /** The handler a message is dispatched to. */
  datatype Handler =
    | CurrentCompiler
    | LegacyCompiler
    | Back
    | Forward
    | ReloadPage
    | EvaluateCommand
    | GetTranspilerContext
    | NoHandler

  const KnownKinds: set<string> :=
    {"compile", "urlback", "urlforward", "refresh", "evaluate", "get-transpiler-context"}

  /** The dispatch table: by `type`, and for `compile` by `version`, where
      only the number 3 selects the current compiler (`===`, so an absent
      version or any other value picks the legacy one). */
  function Route(kind: string, version: Option<int>): (h: Handler)
    ensures h == CurrentCompiler <==> kind == "compile" && version == Some(3)
    ensures h == LegacyCompiler <==> kind == "compile" && version != Some(3)
    ensures h == Back <==> kind == "urlback"
    ensures h == Forward <==> kind == "urlforward"
    ensures h == ReloadPage <==> kind == "refresh"
    ensures h == EvaluateCommand <==> kind == "evaluate"
    ensures h == GetTranspilerContext <==> kind == "get-transpiler-context"
    ensures h == NoHandler <==> kind !in KnownKinds
  {
    if kind == "compile" then
      if version == Some(3) then CurrentCompiler else LegacyCompiler
    else if kind == "urlback" then Back
    else if kind == "urlforward" then Forward
    else if kind == "refresh" then ReloadPage
    else if kind == "evaluate" then EvaluateCommand
    else if kind == "get-transpiler-context" then GetTranspilerContext
    else NoHandler
  }

  /** Everything one message causes: the effects, the messages sent back, and
      the message's command afterwards. */
  datatype Reaction<C, E> = Reaction(actions: seq<Action>, sent: seq<OutMessage<C, E>>, command: Option<string>)

  /** The reply to `evaluate`: one `eval-result` carrying the captured value,
      or, when encoding that value throws, only a logged error. */
  function EvaluationReaction<V, C, E>(command: Option<string>, env: Collaborators<V, E>): (r: Reaction<C, E>)
    ensures |r.sent| + |r.actions| == 1
    ensures r.command == Rewrite(command, env.engine.compiles)
    ensures r.actions != [] ==> r.actions == [LogError]
    ensures r.sent != [] ==> r.sent[0].EvalResult? && r.sent[0].error == Evaluate(command, env.engine).error
  {
    var reply := Evaluate(command, env.engine);
    match env.encode(reply.result)
    case Some(encoded) => Reaction([], [EvalResult(reply.error, encoded)], Rewrite(command, env.engine.compiles))
    case None => Reaction([LogError], [], Rewrite(command, env.engine.compiles))
  }

  /** What handling `data` does, given the trust flag of its channel, the
      foreign collaborators and the transpiler context the current manager
      would yield (`None` when no manager exists yet). */
  function Respond<V, C, E>(data: Message, source: bool, env: Collaborators<V, E>, manager: Option<map<string, C>>): (r: Reaction<C, E>)
    reads data
    ensures |r.sent| <= 1 && |r.actions| <= 2
    ensures r.sent != [] ==> source && data.kind in {"evaluate", "get-transpiler-context"}
    ensures r.actions != [] ==> source && data.kind in KnownKinds
  {
    var kept := data.command;
    if !source then Reaction([], [], kept)
    else
      match Route(data.kind, data.version)
      case CurrentCompiler => Reaction([Compile(HostMessage(data))], [], kept)
      case LegacyCompiler => Reaction([LoadLegacyCompiler, CompileLegacy(data)], [], kept)
      case Back => Reaction([HistoryBack], [], kept)
      case Forward => Reaction([HistoryForward], [], kept)
      case ReloadPage => Reaction([Reload], [], kept)
      case EvaluateCommand => EvaluationReaction(data.command, env)
      case GetTranspilerContext => Reaction([], [TranspilerContextReply(manager.GetOr(map[]))], kept)
      case NoHandler => Reaction([], [], kept)
  }

  /** A message from an untrusted channel does nothing at all. */
  lemma UntrustedMessageIgnored<V, C, E>(data: Message, env: Collaborators<V, E>, manager: Option<map<string, C>>)
    ensures Respond(data, false, env, manager) == Reaction([], [], data.command)
  {
  }

  /** A trusted `compile` runs exactly one compiler, the current one for
      version 3 and the lazily loaded legacy one otherwise, and sends nothing. */
  lemma CompilePathsExclusive<V, C, E>(data: Message, env: Collaborators<V, E>, manager: Option<map<string, C>>)
    requires data.kind == "compile"
    ensures var r := Respond(data, true, env, manager);
      && r.sent == [] && r.command == data.command
      && (data.version == Some(3) ==> r.actions == [Compile(HostMessage(data))])
      && (data.version != Some(3) ==> r.actions == [LoadLegacyCompiler, CompileLegacy(data)])
  {
  }

  /** Navigation commands map to the matching history or reload effect. */
  lemma NavigationCommands<V, C, E>(data: Message, env: Collaborators<V, E>, manager: Option<map<string, C>>)
    requires data.kind in {"urlback", "urlforward", "refresh"}
    ensures var r := Respond(data, true, env, manager);
      && r.sent == [] && r.command == data.command
      && r.actions == [if data.kind == "urlback" then HistoryBack
                       else if data.kind == "urlforward" then HistoryForward
                       else Reload]
  {
  }

  /** A message of an unknown type does nothing. */
  lemma UnknownKindIgnored<V, C, E>(data: Message, source: bool, env: Collaborators<V, E>, manager: Option<map<string, C>>)
    requires data.kind !in KnownKinds
    ensures Respond(data, source, env, manager) == Reaction([], [], data.command)
  {
  }

  /** A trusted `evaluate` sends exactly one `eval-result` unless encoding
      fails, in which case it sends nothing and logs; the result reports an
      error exactly when running the (possibly rewritten) command threw, and
      then carries the encoded thrown value. */
  lemma EvaluateRepliesOnce<V, C, E>(data: Message, env: Collaborators<V, E>, manager: Option<map<string, C>>)
    requires data.kind == "evaluate"
    ensures var r := Respond(data, true, env, manager);
      var ran := env.engine.run(Rewrite(data.command, env.engine.compiles));
      var value := if ran.Threw? then ran.thrown else ran.value;
      && r.command == Rewrite(data.command, env.engine.compiles)
      && (env.encode(value).Some? ==> r.actions == [] && r.sent == [EvalResult(ran.Threw?, env.encode(value).value)])
      && (env.encode(value).None? ==> r.actions == [LogError] && r.sent == [])
  {
  }

  /** A trusted `get-transpiler-context` sends exactly one context: the
      manager's, or the empty mapping when there is no manager. */
  lemma TranspilerContextRepliesOnce<V, C, E>(data: Message, env: Collaborators<V, E>, manager: Option<map<string, C>>)
    requires data.kind == "get-transpiler-context"
    ensures var r := Respond(data, true, env, manager);
      && r.actions == [] && r.command == data.command
      && r.sent == [TranspilerContextReply(if manager.Some? then manager.value else map[])]
  {
  }

  /** Any message sends at most one reply, never the readiness signal, and
      only `evaluate` may rewrite the command. */
  lemma AtMostOneReply<V, C, E>(data: Message, source: bool, env: Collaborators<V, E>, manager: Option<map<string, C>>)
    ensures var r := Respond(data, source, env, manager);
      && |r.sent| <= 1
      && (forall i | 0 <= i < |r.sent| :: !r.sent[i].Initialized?)
      && (r.command != data.command ==> source && data.kind == "evaluate")
  {
  }

  /** The readiness signal is sent at most once, as the first message, and
      only once the listener is registered; a registered listener has
      announced readiness before anything else was sent. */
  ghost predicate ReadyOnceFirst<C, E>(outbox: seq<OutMessage<C, E>>, actions: seq<Action>)
  {
    && (forall i | 0 <= i < |outbox| && outbox[i].Initialized? :: i == 0 && Listen in actions)
    && (Listen in actions ==> |outbox| > 0 && outbox[0].Initialized?)
  }

  /** The bridge's recorded effects and outbox. */
  class Sandbox<C, E> {
    var actions: seq<Action>
    var outbox: seq<OutMessage<C, E>>

    ghost predicate Valid()
      reads this
    {
      ReadyOnceFirst(outbox, actions)
    }

    constructor ()
      ensures Valid() && actions == [] && outbox == []
    {
      actions := [];
      outbox := [];
    }

    /** Start-up after the polyfills are in place: register the service
        worker; with a host, listen and then announce readiness; standalone or
        under test, fetch the sandbox whose id the location names (reading the
        id throws when the location does not name one, and nothing is fetched). */
    method Start(standalone: bool, testing: bool, host: string, location: string)
      requires actions == [] && outbox == []
      modifies this
      ensures Valid()
      ensures outbox == if standalone then [] else [Initialized]
      ensures actions ==
        [RegisterServiceWorker("/sandbox-service-worker.js")]
        + (if standalone then [] else [Listen, SetupHistoryListeners, SetupConsole])
        + (if (testing || standalone) && SandboxIdOf(host, location).Some?
           then [FetchSandbox(host + "/api/v1/sandboxes/" + SandboxIdOf(host, location).value)]
           else [])
    {
      actions := [RegisterServiceWorker("/sandbox-service-worker.js")];
      if !standalone {
        actions := actions + [Listen];
        outbox := outbox + [Initialized];
        actions := actions + [SetupHistoryListeners, SetupConsole];
      }
      if testing || standalone {
        var id := SandboxIdOf(host, location);
        if id.Some? {
          actions := actions + [FetchSandbox(host + "/api/v1/sandboxes/" + id.value)];
        }
      }
    }

    /** The fetched sandbox record is turned into one version-3 compile
        request. */
    method CompileFetched(id: string, x: SandboxRecord, res: Resolver)
      requires Valid()
      modifies this
      ensures Valid() && outbox == old(outbox)
      ensures actions == old(actions) + [Compile(Assembled(AssembleRequest(id, x, WithPackageJson(ModuleObject(x, res, |x.modules|), x, res))))]
    {
      var moduleObject := BuildModuleObject(x, res);
      var request := AssembleRequest(id, x, moduleObject);
      actions := actions + [Compile(Assembled(request))];
    }

    /** `handleMessage(data, source)`, reachable only through the listener
        that start-up registers for a sandbox with a host. */
    method HandleMessage<V>(data: Message, source: bool, env: Collaborators<V, E>, manager: Option<map<string, C>>)
      requires Valid() && Listen in actions
      modifies this, data
      ensures Valid()
      ensures var r := old(Respond(data, source, env, manager));
        && actions == old(actions) + r.actions
        && outbox == old(outbox) + r.sent
        && data.command == r.command
    {
      if source {
        if data.kind == "compile" {
          if data.version == Some(3) {
            actions := actions + [Compile(HostMessage(data))];
          } else {
            actions := actions + [LoadLegacyCompiler];
            actions := actions + [CompileLegacy(data)];
          }
        } else if data.kind == "urlback" {
          actions := actions + [HistoryBack];
        } else if data.kind == "urlforward" {
          actions := actions + [HistoryForward];
        } else if data.kind == "refresh" {
          actions := actions + [Reload];
        } else if data.kind == "evaluate" {
          var result: V;
          var error := false;
          if StartsWithBrace(data.command) {
            var wrapped := Parenthesize(data.command.value);
            if env.engine.compiles(wrapped) {
              data.command := Some(wrapped);
            }
          }
          match env.engine.run(data.command) {
            case Returned(v) =>
              result := v;
            case Threw(e) =>
              result := e;
              error := true;
          }
          var encoded := env.encode(result);
          if encoded.Some? {
            outbox := outbox + [EvalResult(error, encoded.value)];
          } else {
            actions := actions + [LogError];
          }
        } else if data.kind == "get-transpiler-context" {
          if manager.Some? {
            outbox := outbox + [TranspilerContextReply(manager.value)];
          } else {
            outbox := outbox + [TranspilerContextReply(map[])];
          }
        }
      }
    }
  }
}
