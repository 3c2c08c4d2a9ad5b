/**
 The extension-command dispatcher behind `tuist <task> ...`: it turns the task name into
 the command name `tuist-<task>`, finds the project the invocation is about, looks for a
 plugin executable of that name in the project's plugins, falls back to an installed
 command of that name, and forwards the argument vector (with element 0 rewritten) to
 the process runner.

 Everything the dispatcher asks of the outside world (configuration loading, the plugin
 service, directory listings, the PATH lookup, path resolution, the current directory)
 is a field of `Host`; the process runner is replaced by the `Invocation` it would receive.
 */
module TuistService {
  import opened ServiceError

  type Path = string

  /** The namespace marker that every dispatched command name starts with. */
  const CommandPrefix: string := "tuist-"
  const LongPathOption: string := "--path"
  const ShortPathOption: string := "--p"

  datatype Option<T> = None | Some(value: T)

  /** A failure of `run`: the locally raised service error, or an error thrown by a
      collaborator, passed through unchanged. */
  datatype Failure = Service(error: TuistServiceError) | Foreign(cause: string)

  datatype Result<T> = Ok(value: T) | Err(failure: Failure)

  /** A loaded project configuration; the dispatcher only hands it to the plugin service. */
  datatype Config = Config(manifest: string)

  /** Where a remote plugin lives locally; `releasePath` is absent when no built release exists. */
  datatype PluginPaths = PluginPaths(repositoryPath: Path, releasePath: Option<Path>)

  /** One file of a directory listing: its base name and its full path. */
  datatype Entry = Entry(basename: string, pathString: Path)

  /** The collaborators and ambient state `run` consults. */
  datatype Host = Host(
    currentPath: Path,
    resolvePath: (string, Path) -> Path,                // AbsolutePath(_:relativeTo:)
    loadConfig: Path -> Result<Config>,
    remotePluginPaths: Config -> Result<seq<PluginPaths>>,
    contentsOfDirectory: Path -> Result<seq<Entry>>,
    commandExists: string -> bool,
    binaryPathVariable: string)                         // name of the tuist-binary-path variable

  /** What the process runner is asked to execute. */
  datatype Invocation = Invocation(arguments: seq<string>, environment: map<string, string>)

  datatype Outcome = Invoked(invocation: Invocation) | Failed(failure: Failure)

  /** Which executable handles the task. */
  datatype Resolution = PluginCommand(path: Path) | SystemCommand(name: string) | Unavailable

  predicate StartsWith(s: string, prefix: string) {
    |prefix| <= |s| && s[..|prefix|] == prefix
  }

  // ---------------------------------------------------------------------------
  // Command name and working path
  // ---------------------------------------------------------------------------

  /** The executable name a task is dispatched to; the task name is recoverable from it. */
  function CommandName(task: string): (name: string)
    ensures StartsWith(name, CommandPrefix)
    ensures name[|CommandPrefix|..] == task
  {
    CommandPrefix + task
  }

  lemma CommandNameInjective(a: string, b: string)
    ensures CommandName(a) == CommandName(b) ==> a == b
  {
  }

  /** `i` is the index of the first occurrence of `x` in `s`. */
  predicate IsFirst(s: seq<string>, x: string, i: int) {
    0 <= i < |s| && s[i] == x && forall j :: 0 <= j < i ==> s[j] != x
  }

  /** Swift's `firstIndex(of:)`. */
  function FirstIndexOf(s: seq<string>, x: string): (r: Option<nat>)
    ensures r.Some? ==> IsFirst(s, x, r.value)
    ensures r.None? <==> x !in s
  {
    if s == [] then None
    else if s[0] == x then Some(0)
    else match FirstIndexOf(s[1..], x)
      case None => None
      case Some(i) => Some(i + 1)
  }

  /** The index of the path option: the first `--path` if there is one, even when a
      `--p` comes earlier; otherwise the first `--p`; otherwise none. */
  function PathOptionIndex(arguments: seq<string>): (r: Option<nat>)
    ensures LongPathOption in arguments ==> r.Some? && IsFirst(arguments, LongPathOption, r.value)
    ensures LongPathOption !in arguments && ShortPathOption in arguments ==>
              r.Some? && IsFirst(arguments, ShortPathOption, r.value)
    ensures LongPathOption !in arguments && ShortPathOption !in arguments ==> r.None?
  {
    match FirstIndexOf(arguments, LongPathOption)
    case Some(i) => Some(i)
    case None => FirstIndexOf(arguments, ShortPathOption)
  }

  /** What `run` needs of its arguments not to trap: a task name in element 0 and a
      value after the path option. */
  predicate ValidArguments(arguments: seq<string>) {
    && |arguments| > 0
    && match PathOptionIndex(arguments)
       case None => true
       case Some(i) => i + 1 < |arguments|
  }

  /** The path configuration is loaded from: the value after the path option, resolved
      against the current directory, or the current directory itself. */
  function WorkingPath(arguments: seq<string>, host: Host): (path: Path)
    requires ValidArguments(arguments)
    ensures forall i :: IsFirst(arguments, LongPathOption, i) ==>
              i + 1 < |arguments| && path == host.resolvePath(arguments[i + 1], host.currentPath)
    ensures LongPathOption !in arguments ==>
              forall i :: IsFirst(arguments, ShortPathOption, i) ==>
                i + 1 < |arguments| && path == host.resolvePath(arguments[i + 1], host.currentPath)
    ensures LongPathOption !in arguments && ShortPathOption !in arguments ==> path == host.currentPath
  {
    match PathOptionIndex(arguments)
    case Some(i) => host.resolvePath(arguments[i + 1], host.currentPath)
    case None => host.currentPath
  }

  // ---------------------------------------------------------------------------
  // Plugin candidates
  // ---------------------------------------------------------------------------

  /** `compactMap(\.releasePath)`: the release directories, in plugin order. */
  function ReleaseDirs(plugins: seq<PluginPaths>): (dirs: seq<Path>)
    ensures |dirs| <= |plugins|
    ensures forall d :: d in dirs ==> exists p :: p in plugins && p.releasePath == Some(d)
    ensures forall p :: p in plugins && p.releasePath.Some? ==> p.releasePath.value in dirs
  {
    if plugins == [] then []
    else
      var rest := ReleaseDirs(plugins[1..]);
      assert forall p :: p in plugins[1..] ==> p in plugins;
      match plugins[0].releasePath
      case None => rest
      case Some(d) => [d] + rest
  }

  lemma {:induction false} ReleaseDirsAppend(a: seq<PluginPaths>, b: seq<PluginPaths>)
    ensures ReleaseDirs(a + b) == ReleaseDirs(a) + ReleaseDirs(b)
  {
    if a == [] {
      assert a + b == b;
    } else {
      assert (a + b)[1..] == a[1..] + b;
      ReleaseDirsAppend(a[1..], b);
    }
  }

  lemma {:induction false} ReleaseDirsWithoutReleases(plugins: seq<PluginPaths>)
    requires forall p :: p in plugins ==> p.releasePath.None?
    ensures ReleaseDirs(plugins) == []
  {
    if plugins != [] {
      assert plugins[0] in plugins;
      assert forall p :: p in plugins[1..] ==> p in plugins;
      ReleaseDirsWithoutReleases(plugins[1..]);
    }
  }

  /** `flatMap(contentsOfDirectory)`: the listings one after another, in directory order;
      the first directory that cannot be listed aborts with that directory's error. */
  function ListAll(dirs: seq<Path>, list: Path -> Result<seq<Entry>>): (r: Result<seq<Entry>>)
    ensures r.Ok? <==> forall i :: 0 <= i < |dirs| ==> list(dirs[i]).Ok?
    ensures r.Err? ==> exists i :: 0 <= i < |dirs| && list(dirs[i]) == Err(r.failure)
                                   && forall j :: 0 <= j < i ==> list(dirs[j]).Ok?
  {
    if dirs == [] then Ok([])
    else
      match list(dirs[0])
      case Err(f) => Err(f)
      case Ok(entries) =>
        match ListAll(dirs[1..], list)
        case Err(f) =>
          assert exists i :: 0 <= i < |dirs[1..]| && list(dirs[1..][i]) == Err(f)
                             && forall j :: 0 <= j < i ==> list(dirs[1..][j]).Ok?;
          var i :| 0 <= i < |dirs[1..]| && list(dirs[1..][i]) == Err(f)
                   && forall j :: 0 <= j < i ==> list(dirs[1..][j]).Ok?;
          assert list(dirs[i + 1]) == Err(f);
          assert forall j :: 1 <= j < i + 1 ==> list(dirs[j]) == list(dirs[1..][j - 1]);
          Err(f)
        case Ok(rest) =>
          assert forall i :: 1 <= i < |dirs| ==> dirs[i] == dirs[1..][i - 1];
          Ok(entries + rest)
  }

  lemma {:induction false} ListAllAppend(a: seq<Path>, b: seq<Path>, list: Path -> Result<seq<Entry>>)
    requires ListAll(a, list).Ok? && ListAll(b, list).Ok?
    ensures ListAll(a + b, list) == Ok(ListAll(a, list).value + ListAll(b, list).value)
  {
    if a == [] {
      assert a + b == b;
      assert ListAll(a, list).value + ListAll(b, list).value == ListAll(b, list).value;
    } else {
      assert (a + b)[0] == a[0];
      assert (a + b)[1..] == a[1..] + b;
      ListAllAppend(a[1..], b, list);
      var head, tail, other := list(a[0]).value, ListAll(a[1..], list).value, ListAll(b, list).value;
      assert ListAll(a, list).value == head + tail;
      assert ListAll(a + b, list).value == head + (tail + other);
      assert head + (tail + other) == (head + tail) + other;
    }
  }

  lemma ListAllSingle(d: Path, list: Path -> Result<seq<Entry>>)
    ensures ListAll([d], list) == list(d)
  {
    assert [d][1..] == [];
    if list(d).Ok? {
      assert list(d).value + [] == list(d).value;
    }
  }

  /** `filter { $0.basename.hasPrefix("tuist-") }`: keeps exactly the entries named like a
      tuist command, in listing order. */
  function FilterCommands(entries: seq<Entry>): (r: seq<Entry>)
    ensures |r| <= |entries|
    ensures forall e :: e in r <==> e in entries && StartsWith(e.basename, CommandPrefix)
  {
    if entries == [] then []
    else
      var rest := FilterCommands(entries[1..]);
      assert forall e :: e in entries <==> e == entries[0] || e in entries[1..];
      if StartsWith(entries[0].basename, CommandPrefix) then [entries[0]] + rest else rest
  }

  /** The filter keeps listing order: filtering a concatenation filters each part in turn. */
  lemma {:induction false} FilterCommandsAppend(a: seq<Entry>, b: seq<Entry>)
    ensures FilterCommands(a + b) == FilterCommands(a) + FilterCommands(b)
  {
    if a == [] {
      assert a + b == b;
    } else {
      assert (a + b)[0] == a[0];
      assert (a + b)[1..] == a[1..] + b;
      FilterCommandsAppend(a[1..], b);
    }
  }

  /** One entry is kept, once, exactly when its base name starts with `tuist-`. */
  lemma FilterCommandsSingle(e: Entry)
    ensures FilterCommands([e]) == if StartsWith(e.basename, CommandPrefix) then [e] else []
  {
    assert [e][1..] == [];
  }

  /** `i` is the index of the first entry whose base name is `name`. */
  predicate IsFirstMatch(entries: seq<Entry>, name: string, i: int) {
    0 <= i < |entries| && entries[i].basename == name
    && forall j :: 0 <= j < i ==> entries[j].basename != name
  }

  predicate NoMatch(entries: seq<Entry>, name: string) {
    forall i :: 0 <= i < |entries| ==> entries[i].basename != name
  }

  /** `first(where: { $0.basename == name })`. */
  function FindFirst(entries: seq<Entry>, name: string): (r: Option<Entry>)
    ensures r.None? <==> NoMatch(entries, name)
    ensures forall i :: IsFirstMatch(entries, name, i) ==> r == Some(entries[i])
  {
    if entries == [] then None
    else if entries[0].basename == name then Some(entries[0])
    else
      var r := FindFirst(entries[1..], name);
      assert forall i :: IsFirstMatch(entries, name, i) ==> i > 0 && IsFirstMatch(entries[1..], name, i - 1);
      assert NoMatch(entries[1..], name) ==> NoMatch(entries, name) by {
        if NoMatch(entries[1..], name) {
          forall i | 0 <= i < |entries| ensures entries[i].basename != name {
            if i > 0 { assert entries[i] == entries[1..][i - 1]; }
          }
        }
      }
      r
  }

  /** Whenever some entry matches, there is a first matching one. */
  lemma {:induction false} FirstMatchExists(entries: seq<Entry>, name: string)
    requires !NoMatch(entries, name)
    ensures exists i :: IsFirstMatch(entries, name, i)
  {
    if entries[0].basename == name {
      assert IsFirstMatch(entries, name, 0);
    } else {
      assert !NoMatch(entries[1..], name) by {
        var k :| 0 <= k < |entries| && entries[k].basename == name;
        assert entries[1..][k - 1].basename == name;
      }
      FirstMatchExists(entries[1..], name);
      var i :| IsFirstMatch(entries[1..], name, i);
      assert IsFirstMatch(entries, name, i + 1);
    }
  }

  /** Dropping the entries not named `tuist-...` never changes which entry a command
      name matches first, since every command name is itself named `tuist-...`. */
  lemma {:induction false} FilterKeepsFirstMatch(entries: seq<Entry>, name: string)
    requires StartsWith(name, CommandPrefix)
    ensures FindFirst(FilterCommands(entries), name) == FindFirst(entries, name)
  {
    if entries != [] {
      FilterKeepsFirstMatch(entries[1..], name);
      if StartsWith(entries[0].basename, CommandPrefix) {
        assert FilterCommands(entries) == [entries[0]] + FilterCommands(entries[1..]);
        assert ([entries[0]] + FilterCommands(entries[1..]))[1..] == FilterCommands(entries[1..]);
      } else {
        assert entries[0].basename != name;
      }
    }
  }

  /** Lines 56-59: load the configuration at `path`, ask the plugin service for the
      plugins, and list every release directory; the first collaborator that throws
      decides the failure. */
  function Listing(path: Path, host: Host): (r: Result<seq<Entry>>)
    ensures host.loadConfig(path).Err? ==> r == Err(host.loadConfig(path).failure)
    ensures host.loadConfig(path).Ok? ==>
              var plugins := host.remotePluginPaths(host.loadConfig(path).value);
              && (plugins.Err? ==> r == Err(plugins.failure))
              && (plugins.Ok? ==> r == ListAll(ReleaseDirs(plugins.value), host.contentsOfDirectory))
  {
    match host.loadConfig(path)
    case Err(f) => Err(f)
    case Ok(config) =>
      match host.remotePluginPaths(config)
      case Err(f) => Err(f)
      case Ok(plugins) => ListAll(ReleaseDirs(plugins), host.contentsOfDirectory)
  }

  /** The plugin executables: the listing, cut down to `tuist-...` entries. */
  function Candidates(path: Path, host: Host): (r: Result<seq<Entry>>)
    ensures r.Err? <==> Listing(path, host).Err?
    ensures r.Err? ==> r.failure == Listing(path, host).failure
    ensures r.Ok? ==> forall e :: e in r.value <==>
                        e in Listing(path, host).value && StartsWith(e.basename, CommandPrefix)
  {
    match Listing(path, host)
    case Err(f) => Err(f)
    case Ok(entries) => Ok(FilterCommands(entries))
  }

  // ---------------------------------------------------------------------------
  // Resolution and dispatch
  // ---------------------------------------------------------------------------

  /** The precedence: the first plugin executable named `commandName`; otherwise the bare
      command name if it is installed; otherwise nothing. */
  function Resolve(candidates: seq<Entry>, commandName: string, commandExists: string -> bool): (r: Resolution)
    ensures forall i :: IsFirstMatch(candidates, commandName, i) ==> r == PluginCommand(candidates[i].pathString)
    ensures NoMatch(candidates, commandName) && commandExists(commandName) ==> r == SystemCommand(commandName)
    ensures NoMatch(candidates, commandName) && !commandExists(commandName) ==> r == Unavailable
  {
    match FindFirst(candidates, commandName)
    case Some(e) => PluginCommand(e.pathString)
    case None => if commandExists(commandName) then SystemCommand(commandName) else Unavailable
  }

  /** The environment overlay handed to the runner: the one binding that tells the child
      where the running tuist binary is. */
  function Overlay(host: Host, tuistBinaryPath: string): (env: map<string, string>)
    ensures env.Keys == {host.binaryPathVariable}
    ensures env[host.binaryPathVariable] == tuistBinaryPath
  {
    map[host.binaryPathVariable := tuistBinaryPath]
  }

  /** What one call of `run` amounts to: the invocation handed to the process runner, or
      the failure it throws instead. */
  function Dispatch(arguments: seq<string>, tuistBinaryPath: string, host: Host): (r: Outcome)
    requires ValidArguments(arguments)
    ensures r.Invoked? ==> |r.invocation.arguments| == |arguments|
    ensures r.Invoked? ==> r.invocation.arguments[1..] == arguments[1..]
    ensures r.Invoked? ==> r.invocation.environment == Overlay(host, tuistBinaryPath)
  {
    var commandName := CommandName(arguments[0]);
    match Candidates(WorkingPath(arguments, host), host)
    case Err(f) => Failed(f)
    case Ok(candidates) =>
      match Resolve(candidates, commandName, host.commandExists)
      case PluginCommand(p) => Invoked(Invocation(arguments[0 := p], Overlay(host, tuistBinaryPath)))
      case SystemCommand(n) => Invoked(Invocation(arguments[0 := n], Overlay(host, tuistBinaryPath)))
      case Unavailable => Failed(Service(TaskUnavailable))
  }

  /** `TuistService.run`: the arguments are copied into a local array whose element 0 is
      overwritten with the resolved executable before the runner is called. */
  method Run(arguments: seq<string>, tuistBinaryPath: string, host: Host) returns (outcome: Outcome)
    requires ValidArguments(arguments)
    ensures outcome == Dispatch(arguments, tuistBinaryPath, host)
  {
    var args := new string[|arguments|](i requires 0 <= i < |arguments| => arguments[i]);
    assert args[..] == arguments;

    var commandName := CommandName(args[0]);
    var path := WorkingPath(args[..], host);

    var config := host.loadConfig(path);
    if config.Err? {
      return Failed(config.failure);
    }
    var plugins := host.remotePluginPaths(config.value);
    if plugins.Err? {
      return Failed(plugins.failure);
    }
    var listed := ListAll(ReleaseDirs(plugins.value), host.contentsOfDirectory);
    if listed.Err? {
      return Failed(listed.failure);
    }
    var pluginExecutables := FilterCommands(listed.value);

    var pluginCommand := FindFirst(pluginExecutables, commandName);
    if pluginCommand.Some? {
      args[0] := pluginCommand.value.pathString;
    } else if host.commandExists(commandName) {
      args[0] := commandName;
    } else {
      return Failed(Service(TaskUnavailable));
    }

    outcome := Invoked(Invocation(args[..], Overlay(host, tuistBinaryPath)));
  }

  // ---------------------------------------------------------------------------
  // Properties of a dispatch
  // ---------------------------------------------------------------------------

  /** A plugin executable named `tuist-<task>` always wins, and the first one in directory
      and listing order is the one forwarded, whether or not an installed command of the
      same name exists. */
  lemma PluginTakesPrecedence(arguments: seq<string>, tuistBinaryPath: string, host: Host, entries: seq<Entry>, i: nat)
    requires ValidArguments(arguments)
    requires Listing(WorkingPath(arguments, host), host) == Ok(entries)
    requires IsFirstMatch(entries, CommandName(arguments[0]), i)
    ensures Dispatch(arguments, tuistBinaryPath, host)
            == Invoked(Invocation(arguments[0 := entries[i].pathString], Overlay(host, tuistBinaryPath)))
  {
    FilterKeepsFirstMatch(entries, CommandName(arguments[0]));
  }

  /** With no plugin executable of that name, an installed `tuist-<task>` is run by its
      bare name. */
  lemma SystemCommandFallback(arguments: seq<string>, tuistBinaryPath: string, host: Host, entries: seq<Entry>)
    requires ValidArguments(arguments)
    requires Listing(WorkingPath(arguments, host), host) == Ok(entries)
    requires NoMatch(entries, CommandName(arguments[0]))
    requires host.commandExists(CommandName(arguments[0]))
    ensures Dispatch(arguments, tuistBinaryPath, host)
            == Invoked(Invocation(arguments[0 := CommandName(arguments[0])], Overlay(host, tuistBinaryPath)))
  {
  }

  /** With neither, `run` throws `taskUnavailable` and nothing is handed to the runner. */
  lemma UnavailableWhenNeither(arguments: seq<string>, tuistBinaryPath: string, host: Host, entries: seq<Entry>)
    requires ValidArguments(arguments)
    requires Listing(WorkingPath(arguments, host), host) == Ok(entries)
    requires NoMatch(entries, CommandName(arguments[0]))
    requires !host.commandExists(CommandName(arguments[0]))
    ensures Dispatch(arguments, tuistBinaryPath, host) == Failed(Service(TaskUnavailable))
  {
  }

  /** A collaborator's error is what `run` throws, and the runner is not called. */
  lemma CollaboratorFailurePropagates(arguments: seq<string>, tuistBinaryPath: string, host: Host, f: Failure)
    requires ValidArguments(arguments)
    requires Listing(WorkingPath(arguments, host), host) == Err(f)
    ensures Dispatch(arguments, tuistBinaryPath, host) == Failed(f)
  {
  }

  /** The path option and its value are read, never stripped: when the option is not the
      task itself, both reach the forwarded vector at their original places. */
  lemma PathOptionForwarded(arguments: seq<string>, tuistBinaryPath: string, host: Host, k: nat)
    requires ValidArguments(arguments)
    requires PathOptionIndex(arguments) == Some(k) && k >= 1
    requires Dispatch(arguments, tuistBinaryPath, host).Invoked?
    ensures var forwarded := Dispatch(arguments, tuistBinaryPath, host).invocation.arguments;
            k + 1 < |forwarded| && forwarded[k] == arguments[k] && forwarded[k + 1] == arguments[k + 1]
            && forwarded[k] in {LongPathOption, ShortPathOption}
  {
  }

  /** Candidate order is directory order, then listing order inside a directory; plugins
      without a release contribute nothing. */
  lemma ListingOrder(plugins: seq<PluginPaths>, more: seq<PluginPaths>, list: Path -> Result<seq<Entry>>)
    requires ListAll(ReleaseDirs(plugins), list).Ok? && ListAll(ReleaseDirs(more), list).Ok?
    ensures ListAll(ReleaseDirs(plugins + more), list)
            == Ok(ListAll(ReleaseDirs(plugins), list).value + ListAll(ReleaseDirs(more), list).value)
  {
    ReleaseDirsAppend(plugins, more);
    ListAllAppend(ReleaseDirs(plugins), ReleaseDirs(more), list);
  }

  /** The plugin executables keep that order: those of `plugins + more` are those of
      `plugins` followed by those of `more`. */
  lemma CandidateOrder(plugins: seq<PluginPaths>, more: seq<PluginPaths>, list: Path -> Result<seq<Entry>>)
    requires ListAll(ReleaseDirs(plugins), list).Ok? && ListAll(ReleaseDirs(more), list).Ok?
    ensures ListAll(ReleaseDirs(plugins + more), list).Ok?
    ensures FilterCommands(ListAll(ReleaseDirs(plugins + more), list).value)
            == FilterCommands(ListAll(ReleaseDirs(plugins), list).value)
               + FilterCommands(ListAll(ReleaseDirs(more), list).value)
  {
    ListingOrder(plugins, more, list);
    FilterCommandsAppend(ListAll(ReleaseDirs(plugins), list).value, ListAll(ReleaseDirs(more), list).value);
  }
}
