# Tuist extension-command dispatcher

This project models `TuistService.run` in Dafny. Tuist uses it to handle a sub-command it does not know itself (`tuist <task> ...`). The dispatcher works in these steps:

- It forms the command name `tuist-<task>` from `arguments[0]`.
- It picks the project path. The value after the first `--path` wins. Otherwise the value after the first `--p` is used. Otherwise the current directory is used.
- It loads that project's configuration and asks the plugin service for the remote plugins.
- It lists the release directory of every plugin that has one. Only files whose base name starts with `tuist-` are kept.
- It resolves the command:
  - first, the first listed plugin executable named exactly `tuist-<task>`;
  - otherwise, the bare name `tuist-<task>` if such a command is installed;
  - otherwise, the error `taskUnavailable`.
- It hands the argument vector to the process runner. Only element 0 is rewritten. The environment overlay names the running tuist binary.

The model has two modules:

- `ServiceError` (`service_error.dfy`) models the error enum and how it is reported.
- `TuistService` (`tuist_service.dfy`) models the dispatcher.

The dispatcher's collaborators are fields of a `Host` value:

- the configuration loader;
- the plugin service;
- the directory lister;
- the `commandExists` lookup;
- `AbsolutePath(_:relativeTo:)`;
- the current directory;
- the name of the binary-path environment variable.

The process runner is replaced by the `Invocation` it would receive: the argument vector and the environment overlay.

The pipeline of lines 56-61 is a set of pure functions: `Listing`, `ReleaseDirs`, `ListAll`, `FilterCommands`, `FindFirst` and `Resolve`. `Dispatch` states what one call amounts to. `Run` follows the source step by step. It copies the arguments into a local array, overwrites element 0 in place, and is proved equal to `Dispatch`.

Notes on the source's behaviour:

- `taskUnavailable` carries no payload. In particular it does not carry the task name.
- A plugin directory that cannot be listed aborts the whole resolution. It is not skipped.
- If the path option is itself `arguments[0]`, it is the element that gets rewritten. So the option is forwarded unchanged only at indices 1 and up, which is what `PathOptionForwarded` states.

## Model

| member | source | states |
|---|---|---|
| ServiceError.TypeOf | Sources/TuistKit/Services/TuistService.swift:11-16 | `taskUnavailable` is reported as a silent abort: silent, and not a bug |
| ServiceError.DescriptionOf | Sources/TuistKit/Services/TuistService.swift:18-23 | `taskUnavailable` is described by the fixed, non-empty line "Task was not found in the environment" |
| TuistService.CommandName | Sources/TuistKit/Services/TuistService.swift:44 | the command name starts with `tuist-`, and dropping that prefix gives back the task name |
| TuistService.CommandNameInjective | Sources/TuistKit/Services/TuistService.swift:44 | different tasks never map to the same command name |
| TuistService.FirstIndexOf | Sources/TuistKit/Services/TuistService.swift:47 | `firstIndex(of:)` returns the index of the first occurrence, and returns none exactly when the element is absent |
| TuistService.PathOptionIndex | Sources/TuistKit/Services/TuistService.swift:47 | the first `--path` is used whenever one exists, even after an earlier `--p`; otherwise the first `--p`; with neither flag there is no index |
| TuistService.WorkingPath | Sources/TuistKit/Services/TuistService.swift:46-54 | the project path is the element after the chosen flag, resolved against the current directory; with neither flag it is the current directory |
| TuistService.ReleaseDirs | Sources/TuistKit/Services/TuistService.swift:57-58 | every release directory comes from some plugin's release path, and every plugin's release path is included |
| TuistService.ReleaseDirsAppend | Sources/TuistKit/Services/TuistService.swift:57-58 | the release directories keep plugin order: those of `a + b` are those of `a` followed by those of `b` |
| TuistService.ReleaseDirsWithoutReleases | Sources/TuistKit/Services/TuistService.swift:57-58 | plugins without a release path contribute no directory |
| TuistService.ListAll | Sources/TuistKit/Services/TuistService.swift:59 | the listing succeeds exactly when every directory can be listed; on failure the error is that of the first directory that fails |
| TuistService.ListAllAppend | Sources/TuistKit/Services/TuistService.swift:59 | the listings are concatenated in directory order |
| TuistService.ListAllSingle | Sources/TuistKit/Services/TuistService.swift:59 | listing one directory gives exactly that directory's listing or its error |
| TuistService.ListingOrder | Sources/TuistKit/Services/TuistService.swift:57-59 | the unfiltered listing is in plugin (directory) order, then listing order within a directory |
| TuistService.CandidateOrder | Sources/TuistKit/Services/TuistService.swift:57-60 | the plugin executables are in plugin (directory) order, then listing order, after the `tuist-` filter as well |
| TuistService.FilterCommands | Sources/TuistKit/Services/TuistService.swift:60 | an entry is kept exactly when it was listed and its base name starts with `tuist-`; order and multiplicity are fixed by `FilterCommandsAppend` and `FilterCommandsSingle` |
| TuistService.FilterCommandsAppend | Sources/TuistKit/Services/TuistService.swift:60 | the filter keeps listing order: filtering `a + b` gives the filtered `a` followed by the filtered `b` |
| TuistService.FilterCommandsSingle | Sources/TuistKit/Services/TuistService.swift:60 | a single entry is kept, exactly once, when and only when its base name starts with `tuist-` |
| TuistService.FindFirst | Sources/TuistKit/Services/TuistService.swift:61 | the result is the first entry with that base name, or none exactly when no entry has it |
| TuistService.FirstMatchExists | Sources/TuistKit/Services/TuistService.swift:61 | whenever some entry has the name, a first such entry exists |
| TuistService.FilterKeepsFirstMatch | Sources/TuistKit/Services/TuistService.swift:60-61 | for a name starting with `tuist-`, finding the first match after the prefix filter gives the same result as without the filter |
| TuistService.Listing | Sources/TuistKit/Services/TuistService.swift:56-59 | a config-loading error or a plugin-service error is passed through unchanged; otherwise the result is the listing of the release directories |
| TuistService.Candidates | Sources/TuistKit/Services/TuistService.swift:56-60 | the plugin executables fail exactly when the listing fails, with the same error; otherwise an entry is a candidate exactly when it is listed and named `tuist-...` (order: `FilterCommandsAppend`, `CandidateOrder`) |
| TuistService.Resolve | Sources/TuistKit/Services/TuistService.swift:61-67 | precedence: the first matching plugin's path; otherwise the bare name if the command exists; otherwise unavailable |
| TuistService.Overlay | Sources/TuistKit/Services/TuistService.swift:73 | the environment overlay is exactly one binding, from the binary-path variable to the tuist binary path |
| TuistService.Dispatch | Sources/TuistKit/Services/TuistService.swift:42-74 | a forwarded vector has the input's length, every element from index 1 on is unchanged, and the overlay is the single binary-path binding |
| TuistService.Run | Sources/TuistKit/Services/TuistService.swift:38-75 | the in-place rewrite of the local argument array, and the early throws, give exactly `Dispatch`'s outcome |
| TuistService.PluginTakesPrecedence | Sources/TuistKit/Services/TuistService.swift:44-62 | if a listed plugin executable is named `tuist-<task>`, the first one's path replaces `arguments[0]`, whether or not a system command of that name exists |
| TuistService.SystemCommandFallback | Sources/TuistKit/Services/TuistService.swift:63-64 | with no matching plugin and an installed `tuist-<task>`, `arguments[0]` becomes that bare name |
| TuistService.UnavailableWhenNeither | Sources/TuistKit/Services/TuistService.swift:65-66 | with neither, `run` throws `taskUnavailable` and the runner is not called |
| TuistService.CollaboratorFailurePropagates | Sources/TuistKit/Services/TuistService.swift:56-59 | a collaborator's error is what `run` throws, and the runner is not called |
| TuistService.PathOptionForwarded | Sources/TuistKit/Services/TuistService.swift:42-71 | a path option at index 1 or later, and its value, are forwarded at their original places |

## Left out

- Process execution is left out. The model records only the `(arguments, environment)` handed to `System.shared.runAndPrint`. Stdio mirroring, the child's exit status and spawn failures are not modelled.
- The verbosity flag `Environment.shared.isVerbose` is left out. It is ambient state and has no effect on resolution.
- Configuration loading and plugin enumeration are left out. Their results, including their errors, are inputs: `Host.loadConfig` and `Host.remotePluginPaths`. A loaded `Config` is opaque.
- Directory listing and the current directory are left out. Both are filesystem I/O. A listing is given as `(basename, pathString)` pairs, and the model assumes nothing about how the two relate.
- `AbsolutePath(_:relativeTo:)` is left out. It is an uninterpreted function, `Host.resolvePath`.
- `System.shared.commandExists` is a PATH lookup. It is modelled as the predicate `Host.commandExists`.
- The value of `Constants.EnvironmentVariables.tuistBinaryPath` is left out. Constants.swift is not part of this model, so the variable's name is the input `Host.binaryPathVariable`.
- `ErrorType` is declared in TuistSupport, which is not part of this model. It is modelled with its four report kinds: abort, bug, and their silent variants.
- Swift runtime traps are preconditions. `arguments[0]` on an empty vector traps, and so does the element after a path option that is the last argument. `ValidArguments` states both as requirements on the caller.
- `hasPrefix` and `==` on Swift strings compare by Unicode grapheme clusters. The model compares sequences of characters.
- The `NSObject` base class and the default arguments of `init` are left out. They play no part in resolution.
