# cf CLI client bootstrap and command dispatch, in Dafny

This project models two decision procedures of the Cloud Foundry command-line
client and proves properties about them.

1. **The V3 client bootstrap** (`NewV3BasedClientsWithAuthorizationEndpoint`).
   It builds the Cloud Controller (CC) client with an ordered chain of
   connection wrappers. The chain is an optional terminal request logger, an
   optional file request logger, the UAA authentication wrapper and the
   retrier. When asked to target the platform, it then does three things.
   It checks that a target API is set and sends the target request. It
   requires the platform to advertise a UAA endpoint. It builds the UAA
   client with a chain of the same shape and sets it up against the chosen
   authorization endpoint. Only when all of that succeeds does it bind the
   UAA client into both authentication wrappers. This is two-phase
   initialisation: the CC wrapper is created with no client and is bound last.
2. **The command dispatch at the end of `main`.** A successful parse exits
   with the parser's exit code. An unknown command is looked up among the
   installed plugins. When no plugin matches, the legacy implementation takes
   over the process if the build allows it. Otherwise the unknown-command
   error is printed with plugin-name suggestions and the process exits 1.
   Any other parse error exits with the parser's exit code. Before dispatch,
   a failure of flag parsing, config loading, UI creation or parser
   construction exits 1.

Files:

- `common.dfy` (module `Common`): `Option`, the configuration the bootstrap
  reads, and its errors.
- `wrapper_chain.dfy` (module `WrapperChain`): wrapper values, the chain
  each client gets, and lemmas about the chain.
- `clients.dfy` (module `Shared`): the authentication wrappers and both
  clients as classes, the remote platform as a recording oracle, and the
  bootstrap methods.
- `main.dfy` (module `CliMain`): the start-up guards and the dispatch.

How the outside world is modelled:

- The answers of `TargetCF` and `SetupResources` are fixed inputs held by a
  `Platform` object. The object records every request it receives. That lets
  a contract say that `TargetCF` was never called, or which endpoint
  `SetupResources` received, even on paths that return nil clients.
- The answers of the parser, the plugin registry, `RunPlugin` and
  `PluginCommandNames`, and the `CF_TRACE` variable, are inputs (`Answers`).
  `ShouldFallbackToLegacy` is a parameter.
- Calls into the plugin package are returned as a list, `calls`.
- `os.Exit` and the error stream become the returned `Termination`. The legacy
  `cmd.Main` is the terminal `LegacyTakeover`, which does not return.
- The two authentication wrappers are returned as ghost out-parameters. Their
  client fields can then be stated on every path.

Two behaviours of the code worth noting:

- After a plugin runs without error, the process exits with the code the
  parser returned (main.go:127). It does not exit with a code supplied by the
  plugin.
- The UAA client's own authentication wrapper is created already holding the
  UAA client (new_v3_based_clients.go:76). It is bound again at line 89. Only
  the CC wrapper starts with no client.

## Model

| member | source | states |
|---|---|---|
| `WrapperChain.ExpectedChain` | command/v6/shared/new_v3_based_clients.go:21-34 | the chain has 2 + [verbose] + [log location set] wrappers. Every wrapper before the last two is a logger. The terminal logger comes first exactly when verbose. The file logger sits just before the auth wrapper exactly when a location is set. The auth wrapper is second to last and is the only one. The retrier with the configured retry count is last |
| `WrapperChain.ExpectedChainLoggers` | command/v6/shared/new_v3_based_clients.go:23-29 | a chain holds exactly two loggers when verbose with a log location, none with neither, and one otherwise |
| `WrapperChain.MirroredChains` | command/v6/shared/new_v3_based_clients.go:69-78 | the UAA chain has the same wrapper kinds, in the same order, as the CC chain, whatever auth wrapper each holds |
| `Shared.ChosenEndpoint` | command/v6/shared/new_v3_based_clients.go:80-82 | the caller's authorization endpoint wins when non-empty, otherwise the discovered one is used. The result is empty only if both are empty, so `SetupResources` never gets an empty endpoint once the discovered one is checked |
| `Shared.CCAuthentication.constructor` | command/v6/shared/new_v3_based_clients.go:31 | the CC auth wrapper is created with the given client (nil at the call site) and the config |
| `Shared.CCAuthentication.SetClient` | command/v6/shared/new_v3_based_clients.go:90 | late binding: the wrapper now references the given UAA client |
| `Shared.UAAAuthentication.SetClient` | command/v6/shared/new_v3_based_clients.go:89 | late binding of the UAA client's own wrapper |
| `Shared.UAAAuthentication.constructor` | command/v6/shared/new_v3_based_clients.go:76 | the UAA client's own auth wrapper is created holding the given client (the new UAA client at the call site) and the config |
| `Shared.UAAClient.constructor` | command/v6/shared/new_v3_based_clients.go:67 | a new UAA client keeps the config, has an empty wrapper chain and is not yet set up from any endpoint |
| `Shared.CCClient.constructor` | command/v6/shared/new_v3_based_clients.go:36-42 | the client keeps its settings. It reports no UAA endpoint before targeting |
| `Shared.CCClient.TargetCF` | command/v6/shared/new_v3_based_clients.go:54-61 | one target request is recorded. On success the UAA endpoint becomes the discovered one. On failure the platform's error is returned as is |
| `Shared.UAAClient.WrapConnection` | command/v6/shared/new_v3_based_clients.go:69-78 | appends one wrapper to the end of the UAA chain |
| `Shared.UAAClient.SetupResources` | command/v6/shared/new_v3_based_clients.go:84 | one setup request with the given endpoint is recorded. Its error is returned. On success the client is set up from that endpoint |
| `Shared.NewV3BasedClientsWithAuthorizationEndpoint` | command/v6/shared/new_v3_based_clients.go:20-93 | the CC client gets `ExpectedChain`. Without targeting: CC client only, auth wrapper unbound, no request sent. Empty target: `NoAPISetError` naming the binary, no request. Target failure: that error unchanged, no UAA setup. Empty discovered UAA: `UAAEndpointNotFoundError`. Otherwise `SetupResources` gets `ChosenEndpoint`. Its failure is returned with nil clients and the CC wrapper unbound. On success both wrappers reference the returned UAA client, whose chain is `ExpectedChain`. The CC wrapper is bound exactly when both clients are returned without error |
| `Shared.NewV3BasedClients` | command/v6/shared/new_v3_based_clients.go:14-16 | the full contract of `NewV3BasedClientsWithAuthorizationEndpoint` with no override: the same chains, recorded calls, errors and wiring, with `SetupResources` always given the discovered UAA endpoint |
| `CliMain.Dispatch` | main.go:101-127 | a successful parse exits with the parser's code and nothing else is consulted. A non-unknown parse error does the same, printing nothing. For an unknown command, the plugin lookup gets the arguments after the program name. A matching plugin runs, then the process exits 1 if it failed, else with the parser's code. Legacy fallback is never reached when a plugin matches. With no plugin and fallback on, the legacy main takes over with the full argument list and `CF_TRACE`. Otherwise the error gets the plugin names as suggestions, is printed, and the process exits 1 |
| `CliMain.DispatchedIsFunctional` | main.go:101-127 | the dispatch rules determine a single outcome and a single list of plugin calls for every combination of parse result, plugin match, plugin error and fallback setting |
| `CliMain.FirstStartupError` | main.go:24-29 | no start-up error exactly when all four steps succeeded. Failures are reported in main's order: flag parsing, then config loading, then UI creation, then parser construction. Any reported error is one of the steps' errors |
| `CliMain.Run` | main.go:83-99 | the first failing start-up step prints "Unexpected error" with its message and exits 1, with no dispatch. Otherwise the outcome follows the dispatch rules. The legacy main always receives the full argument list |

## Left out

- The "zone" block of main.go (lines 31-77). It sets `CF_HOME`, shells out to `cp` and `cf target`, sleeps and prints. This is process and I/O glue with no decision logic. Its own `os.Exit(1)` when `Setenv` fails is therefore not modelled either.
- `panichandler.HandlePanic`, and the real `os.Exit` and stderr writes. These are modelled as the returned `Termination`.
- The internals of `TargetCF`, `SetupResources`, the request loggers, the retrier and both UAA authentication wrappers. They are network behaviour whose source is not part of this model. The model keeps only their recorded calls, their answers and the client fields the bootstrap relies on.
- What `TargetCF` does to the client's UAA endpoint when it fails. The model leaves the field unchanged, and the bootstrap discards the client on that path anyway.
- The `ui` argument. Its only use is to supply the terminal and file log sinks, which the wrapper values `TerminalLogger` and `FileLogger(paths)` stand for.
- `ccv3.NewClient` and `uaa.NewClient` beyond keeping their configuration and wrapper chain.
- `configv3.GetCFConfig`, `ui.NewUI`, `command_parser`, go-flags, `IsPluginCommand`, `RunPlugin`, `PluginCommandNames` and legacy `cmd.Main`. These are foreign calls whose bodies are not part of this model, so their results are inputs.
- `UnknownCommandError.Suggest`: its similarity filtering is not part of this model. The model records the plugin names it is given as the error's suggestions.
- The text of the unknown-command error. The printed report is the error value itself.
