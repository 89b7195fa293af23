/**
 * The command entry point (main.go): the start-up guards and the decision
 * of what runs for the given arguments: a built-in command, an installed
 * plugin, the legacy implementation, or an unknown-command error.
 *
 * Everything the entry point asks of other packages (the parser, the plugin
 * registry, the plugin runner, the legacy main) is an input here; the
 * process exit and the error stream become the returned `Termination`.
 */
module CliMain {
  import opened Common

  datatype ParseError =
    | UnknownCommandError(commandName: string, suggestions: seq<string>)
    | OtherParseError(message: string)

  /** An installed plugin command, as the plugin registry reports it. */
  datatype Plugin = Plugin(name: string)

  /** A line written to the error stream. */
  datatype Report =
    | UnexpectedError(message: string)   // "Unexpected error: <message>"
    | CommandError(error: ParseError)    // the error's own text

  /** How the process ends. `LegacyTakeover` never returns to the caller. */
  datatype Termination =
    | Exit(code: int, stderr: Option<Report>)
    | LegacyTakeover(trace: string, args: seq<string>)

  /** Calls into the plugin package, in the order they are made. */
  datatype Call =
    | LookupPlugin(args: seq<string>)   // IsPluginCommand
    | RunPlugin(plugin: Plugin)         // RunPlugin
    | ListPluginNames                   // PluginCommandNames

  /** What the collaborators of the dispatch answer. */
  datatype Answers = Answers(
    parserExitCode: int,               // first result of ParseCommandFromArgs
    parseError: Option<ParseError>,    // its error
    plugin: Option<Plugin>,            // IsPluginCommand's plugin, when it matched
    runPluginError: Option<string>,    // RunPlugin's error
    pluginNames: seq<string>,          // PluginCommandNames
    cfTrace: string)                   // the CF_TRACE environment variable

  /** The failures the start-up steps may report, each `None` on success. */
  datatype Startup = Startup(
    flagsError: Option<string>,
    configError: Option<string>,
    uiError: Option<string>,
    parserError: Option<string>)

  /**
   * The rules of the dispatch for program name `program`, arguments `argv`
   * (the process arguments after the program name), collaborator answers
   * `a` and the build setting `fallback`: the outcome `t` and the plugin
   * calls made, `calls`.
   */
  ghost predicate Dispatched(program: string, argv: seq<string>, a: Answers, fallback: bool,
                             t: Termination, calls: seq<Call>)
  {
    match a.parseError
    case None =>
      // a built-in command ran: its exit code, nothing else consulted
      t == Exit(a.parserExitCode, None) && calls == []
    case Some(OtherParseError(_)) =>
      // any other parse error: the parser's exit code, nothing printed
      t == Exit(a.parserExitCode, None) && calls == []
    case Some(UnknownCommandError(name, _)) =>
      match a.plugin
      case Some(p) =>
        // a plugin: 1 if it failed, else the parser's exit code
        && calls == [LookupPlugin(argv), RunPlugin(p)]
        && t == Exit(if a.runPluginError.Some? then 1 else a.parserExitCode, None)
      case None =>
        if fallback then
          // the legacy implementation takes over with the full argument list
          calls == [LookupPlugin(argv)] && t == LegacyTakeover(a.cfTrace, [program] + argv)
        else
          // the error, with plugin names to suggest, is printed; exit 1
          && calls == [LookupPlugin(argv), ListPluginNames]
          && t == Exit(1, Some(CommandError(UnknownCommandError(name, a.pluginNames))))
  }

  /** The rules leave no choice: for given inputs at most one outcome satisfies them. */
  lemma DispatchedIsFunctional(program: string, argv: seq<string>, a: Answers, fallback: bool,
                               t1: Termination, calls1: seq<Call>, t2: Termination, calls2: seq<Call>)
    requires Dispatched(program, argv, a, fallback, t1, calls1)
    requires Dispatched(program, argv, a, fallback, t2, calls2)
    ensures t1 == t2 && calls1 == calls2
  {
  }

  /** The dispatch at the end of main. */
  method Dispatch(program: string, argv: seq<string>, a: Answers, shouldFallbackToLegacy: bool)
    returns (t: Termination, calls: seq<Call>)
    ensures Dispatched(program, argv, a, shouldFallbackToLegacy, t, calls)
  {
    calls := [];
    var exitCode := a.parserExitCode;
    var err := a.parseError;
    if err == None {
      return Exit(exitCode, None), calls;
    }

    if err.value.UnknownCommandError? {
      var unknownCommandError := err.value;
      var plugin := a.plugin;
      calls := calls + [LookupPlugin(argv)];
      if plugin.Some? {
        calls := calls + [RunPlugin(plugin.value)];
        var runErr := a.runPluginError;
        if runErr.Some? {
          exitCode := 1;
        }
      } else if shouldFallbackToLegacy {
        return LegacyTakeover(a.cfTrace, [program] + argv), calls;
      } else {
        calls := calls + [ListPluginNames];
        unknownCommandError := unknownCommandError.(suggestions := a.pluginNames);
        return Exit(1, Some(CommandError(unknownCommandError))), calls;
      }
    }

    t := Exit(exitCode, None);
  }

  /** The first start-up step that failed, if any, in the order main runs them. */
  function FirstStartupError(s: Startup): (r: Option<string>)
    ensures r == None <==> s.flagsError == None && s.configError == None && s.uiError == None && s.parserError == None
    ensures s.flagsError.Some? ==> r == s.flagsError
    ensures s.flagsError == None && s.configError.Some? ==> r == s.configError
    ensures s.flagsError == None && s.configError == None && s.uiError.Some? ==> r == s.uiError
    ensures s.flagsError == None && s.configError == None && s.uiError == None ==> r == s.parserError
    ensures r.Some? ==> r == s.flagsError || r == s.configError || r == s.uiError || r == s.parserError
  {
    if s.flagsError.Some? then s.flagsError
    else if s.configError.Some? then s.configError
    else if s.uiError.Some? then s.uiError
    else s.parserError
  }

  /**
   * main: the start-up guards, then the dispatch. Any failing start-up
   * step prints "Unexpected error" and exits 1 before anything is parsed.
   */
  method Run(s: Startup, program: string, argv: seq<string>, a: Answers, shouldFallbackToLegacy: bool)
    returns (t: Termination, calls: seq<Call>)
    ensures FirstStartupError(s).Some? ==>
              t == Exit(1, Some(UnexpectedError(FirstStartupError(s).value))) && calls == []
    ensures FirstStartupError(s) == None ==> Dispatched(program, argv, a, shouldFallbackToLegacy, t, calls)
    ensures t.LegacyTakeover? ==> t.args == [program] + argv
  {
    if s.flagsError.Some? {
      return Exit(1, Some(UnexpectedError(s.flagsError.value))), [];
    }
    if s.configError.Some? {
      return Exit(1, Some(UnexpectedError(s.configError.value))), [];
    }
    if s.uiError.Some? {
      return Exit(1, Some(UnexpectedError(s.uiError.value))), [];
    }
    if s.parserError.Some? {
      return Exit(1, Some(UnexpectedError(s.parserError.value))), [];
    }
    t, calls := Dispatch(program, argv, a, shouldFallbackToLegacy);
  }
}
