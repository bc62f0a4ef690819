# Hatch platform layer and hatchling display bridge, in Dafny

This project models two small pieces of decision logic in hatch's process and
display layer, and proves what they promise.

- **`Platform`** (`src/hatch/utils/platform.py`) decides how a command is
  formatted, launched, streamed and checked on the running operating system.
  It covers the following:
  - platform-name normalisation and the `windows` / `macos` / `linux` predicates;
  - `format_for_subprocess`;
  - the macOS System Integrity Protection (SIP) workaround in
    `populate_default_popen_kwargs`, which filters `PATH` and picks the first
    shell `which` finds;
  - the write-once cached properties (`name`, `default_shell`,
    `join_command_args`, `format_file_uri`);
  - the dispatch in `run_command`;
  - the fail-fast exits of `check_command`, `check_command_output` and
    `exit_with_command`.

  It is the class `Platforms.Platform`. Its caches are fields that its
  methods write on first read. `Valid()` ties every written cache to the
  specification function that says what it holds. A ghost counter records
  that the platform name is looked up at most once.
- **The display bridge** (`backend/src/hatchling/bridge/app.py`) has four parts:
  - `Application` prints through a verbosity filter;
  - `InvokedApplication` runs in a subprocess and forwards every display call
    as one `__HATCH__:`-prefixed, lower-case hexadecimal line;
  - `SafeApplication` exposes the nine operations of either;
  - `get_application` chooses between the two.

  A Python call `app.display_info(*args, **kwargs)` is modelled as
  `app.Invoke(DisplayInfo, PyCall(args, kwargs))`. The call is bound to the
  method's signature with Python's rules. Too many positionals, a parameter
  given twice, or a keyword `self` (the instance is already bound) raise
  `TypeError`. A forwarded call also raises `TypeError`, before writing
  anything, when it carries a keyword `method`: that name clashes with the
  first parameter of `send_app_command` and `format_app_command`.
  Standard output is a `Console`, a log of lines. `sys.exit(code)` is the
  effect `Exited(code)`, and an exception is `Raised(error)`.

The host is a parameter, `Platforms.Env`. It holds:
- the raw `platform.system()` string;
- the environment variables;
- uninterpreted functions standing for `shutil.which`, `shlex.split`,
  `os.path.normpath`, `subprocess.list2cmdline`, `shlex.join` and
  `shlex.quote`.

A spawned child is a parameter too: `Child(lines, returncode)`, the lines it
writes and the status it ends with. The serialiser `pickle.dumps(..., 4)` is
an arbitrary function from a call token to bytes. `AppCommand.DecodeLine` is
a reference decoder written for the round-trip proof.

The two facades treat an `abort` code passed positionally differently.
`Application.abort("m", 3)` exits with 3. `InvokedApplication.abort("m", 3)`
forwards the call and then exits with `kwargs.get('code', 1)`, which is 1.
The model keeps this behaviour as the code has it, and `App.PositionalAbortCode`
states both halves.

Files:
- `py.dfy` holds the Python runtime pieces used: values, truthiness, `str`,
  `int`, and stdout.
- `text.dfy` holds string operations: `lower`, `startswith`, `split`,
  `join` and `replace`.
- `platform.dfy` holds `Platform`.
- `app_command.dfy` holds the line encoding.
- `app.dfy` holds the application facades.

## Model

| member | source | states |
|---|---|---|
| Text.Lower | src/hatch/utils/platform.py:24 | `lower()` keeps the length and lower-cases each character |
| Text.LowerIdempotent | src/hatch/utils/platform.py:24 | lower-casing twice is the same as lower-casing once |
| Text.SplitJoin | src/hatch/utils/platform.py:152-161 | splitting a `pathsep`-joined list of separator-free entries gives the entries back |
| Text.Replace | src/hatch/utils/platform.py:209 | `replace` keeps the length and swaps exactly the occurrences of the old character |
| Py.ParseInt | backend/src/hatchling/bridge/app.py:52 | `int()` succeeds iff the text is an optional `+`/`-` then decimal digits; its value is the digits' value, negated after `-` |
| Py.ParseIntStr | backend/src/hatchling/bridge/app.py:52 | `int(str(i)) == i` for every integer, negative ones included |
| Platforms.NormalizePlatformName | src/hatch/utils/platform.py:23-25 | the result has no upper-case letter; it is `macos` iff the lowered input is `darwin` or `macos`; otherwise it is the lowered input |
| Platforms.NormalizeIdempotent | src/hatch/utils/platform.py:23-25 | normalising a normalised name changes nothing |
| Platforms.ExactlyOnePlatform | src/hatch/utils/platform.py:215-234 | exactly one of windows, macos and linux holds of any name; linux holds iff the name is neither `windows` nor `macos` |
| Platforms.PlatformOfSystem | src/hatch/utils/platform.py:16-25 | macOS is selected iff `platform.system()` lowers to `darwin` or `macos`; Windows iff it lowers to `windows` |
| Platforms.FormatForSubprocess | src/hatch/utils/platform.py:52-72 | `IndexError` iff Windows, no shell and an empty list. On Windows without a shell, a list keeps its length and its tail, and its head becomes `which(head)` when that is truthy. Off Windows without a shell, a string becomes `split(string)`. Every other combination is returned unchanged |
| Platforms.UnprotectedEntries | src/hatch/utils/platform.py:152-159 | an entry is kept iff it is in `PATH` and its normalised form is outside `/System`, `/usr`, `/bin`, `/sbin`, `/var` or under `/usr/local`; nothing is added |
| Platforms.UnprotectedEntriesAppend | src/hatch/utils/platform.py:153-159 | the filter keeps the original order: it distributes over concatenation |
| Platforms.CollectUnprotectedPaths | src/hatch/utils/platform.py:153-159 | the appending loop computes exactly the ordered filter of the entries |
| Platforms.SearchPathEntries | src/hatch/utils/platform.py:152-161 | when some entry survives, the search path handed to `which` lists exactly the surviving entries, in order |
| Platforms.FirstResolved | src/hatch/utils/platform.py:162-166 | the answer is the truthy `which` result of the first shell name that resolves, every earlier name failing; `None` iff no name resolves |
| Platforms.FindShell | src/hatch/utils/platform.py:162-166 | the first-match loop with `break` returns exactly the first resolving shell among `sh`, `bash`, `zsh`, `fish` |
| Platforms.PopulatedKwargs | src/hatch/utils/platform.py:143-166 | keyword arguments are unchanged unless `executable` is absent, the platform is macOS, `shell` is set and some variable starts with `DYLD_` or `LD_`. Existing entries are never changed. The only key ever added is `executable`: it is added iff the workaround applies and a shell resolves, and it holds that shell |
| Platforms.DefaultShellFor | src/hatch/utils/platform.py:183-188 | `SHELL` if set; otherwise `COMSPEC` if set, then `cmd`, on Windows; otherwise `bash` |
| Platforms.FileUriFormatter.Apply | src/hatch/utils/platform.py:205-213 | on Windows: `file:///` plus the path with every `\` turned into `/`, so no backslash remains; elsewhere: `file://` plus the path unchanged |
| Platforms.LaunchFor | src/hatch/utils/platform.py:127-141 | a spawn fails iff formatting fails; otherwise it uses the formatted command, the same `shell`, and the keyword arguments after the SIP workaround |
| Platforms.Platform.constructor | src/hatch/utils/platform.py:29-42 | a new `Platform` has every cache empty, no status on display, and is valid |
| Platforms.Platform.Name | src/hatch/utils/platform.py:247-259 | `name` is the normalised system name; it is cached, and a second read does not look it up again |
| Platforms.Platform.Windows | src/hatch/utils/platform.py:215-220 | true iff the platform name is `windows` |
| Platforms.Platform.MacOS | src/hatch/utils/platform.py:222-227 | true iff the platform name is `macos` |
| Platforms.Platform.Linux | src/hatch/utils/platform.py:229-234 | true iff the platform is neither Windows nor macOS |
| Platforms.Platform.DefaultShell | src/hatch/utils/platform.py:174-188 | the result follows the fallback order for the platform; it is cached, and every later read returns the cached value without looking up the name again |
| Platforms.Platform.JoinCommandArgs | src/hatch/utils/platform.py:190-203 | `list2cmdline` on Windows; elsewhere `shlex.join` if available, else quote-each-and-join with spaces; cached after the first read |
| Platforms.Platform.FormatFileUri | src/hatch/utils/platform.py:205-213 | the Windows formatter iff the platform is Windows; cached after the first read |
| Platforms.Platform.FormatCommand | src/hatch/utils/platform.py:52-72 | `format_for_subprocess` on the running platform equals `FormatForSubprocess` for that platform |
| Platforms.Platform.PopulateDefaultPopenKwargs | src/hatch/utils/platform.py:143-166 | updates the caller's dictionary in place to exactly `PopulatedKwargs` of its old contents; with `executable` present it does not even look up the platform |
| Platforms.Platform.CaptureProcess | src/hatch/utils/platform.py:127-141 | spawns the formatted command with the populated keyword arguments and stdout and stderr merged; the caller's keyword map is untouched |
| Platforms.Platform.RunCommandIntegrated | src/hatch/utils/platform.py:77-86 | every line the child writes reaches the display once, in order; the result carries the child's return code |
| Platforms.Platform.RunCommand | src/hatch/utils/platform.py:88-99 | takes the streaming path iff a status is on display and `capture_output` is not truthy; only that path writes to the display |
| Platforms.Platform.CheckCommand | src/hatch/utils/platform.py:101-110 | requests exit with the child's return code iff it is non-zero; otherwise hands back the process result unchanged |
| Platforms.Platform.CheckCommandOutput | src/hatch/utils/platform.py:112-125 | on a non-zero code it displays the whole output and requests exit with that code; on zero it returns the output and displays nothing |
| Platforms.Platform.ExitWithCommand | src/hatch/utils/platform.py:236-245 | on Windows it runs the command and exits with its return code, whatever that is; elsewhere `execvp(command[0], command)`; an empty command raises `IndexError` |
| AppCommand.Hex | backend/src/hatchling/bridge/app.py:137 | two characters per byte, all from `0-9a-f` |
| AppCommand.UnhexHex | backend/src/hatchling/bridge/app.py:137 | hex-decoding the hex text of any bytes gives those bytes back |
| AppCommand.EncodeLine | backend/src/hatchling/bridge/app.py:137 | the line is `__HATCH__:` then hex digits only; it has length 10 + 2 × bytes and no newline |
| AppCommand.DecodeEncode | backend/src/hatchling/bridge/app.py:135-137 | splitting the line at the first `:`, checking the tag and hex-decoding the rest recovers the payload exactly |
| AppCommand.EncodeLineInjective | backend/src/hatchling/bridge/app.py:135-137 | distinct payloads give distinct lines |
| AppCommand.FormatAppCommand | backend/src/hatchling/bridge/app.py:134-137 | the line for a call has the prefix, the length 10 + 2 × the serialised size, no newline, and decodes to the serialisation of (name, args, kwargs) |
| App.NineOperations | backend/src/hatchling/bridge/app.py:121-131 | `SafeApplication` copies nine operations; every operation is among them, and their method names are distinct |
| App.BindPositional | backend/src/hatchling/bridge/app.py:93 | a call with positionals only, no more than the parameters, binds them in order, and the defaults fill the rest |
| App.BindIgnoresExtraKeyword | backend/src/hatchling/bridge/app.py:108 | a keyword that names no parameter and is not `self` goes to `**kwargs`; it changes neither whether the call binds nor what it binds to |
| App.VerbosityFailure | backend/src/hatchling/bridge/app.py:52 | reading the verbosity fails iff a counter present in the environment is not an integer literal; the `ValueError` quotes the first such text |
| App.VerbosityOfCounters | backend/src/hatchling/bridge/app.py:52 | the verbosity is `HATCH_VERBOSE - HATCH_QUIET`, a missing counter counting as 0 |
| App.LocalThresholds | backend/src/hatchling/bridge/app.py:54-106 | prints iff the verbosity meets the threshold: display always; info, waiting, success and mini header at 0; warning at -1; error at -2; debug at its level. The mini header is bracketed, and only abort exits |
| App.LocalSelfKeyword | backend/src/hatchling/bridge/app.py:54-108 | a keyword `self` makes every local method raise `TypeError` and print nothing |
| App.LocalMonotonic | backend/src/hatchling/bridge/app.py:62-106 | a call that prints at some verbosity does the same at every higher verbosity |
| App.DebugLevelValidated | backend/src/hatchling/bridge/app.py:98-100 | a debug level outside 1..3 raises `ValueError` with the fixed message at every verbosity, printing nothing |
| App.LocalAbort | backend/src/hatchling/bridge/app.py:108-115 | `abort` prints the message iff it is non-empty and the verbosity is at least -2, then exits with `code`, 1 by default |
| App.ForwardedOneLine | backend/src/hatchling/bridge/app.py:10-36 | a forwarded call writes exactly one line iff no keyword is `self` or `method`. That line has no newline and decodes to the serialisation of the call's own method name and arguments, and only `abort` exits. With `self` or `method` as a keyword, it raises `TypeError`, writes nothing and does not exit |
| App.KeywordAbortCode | backend/src/hatchling/bridge/app.py:34-36 | with `code` passed by keyword, the forwarded `abort` exits with that code, and so does the local one (app.py:108-115) |
| App.PositionalAbortCode | backend/src/hatchling/bridge/app.py:34-36 | a forwarded `abort` ignores a positional code and exits 1, while the local `abort` exits with that code |
| App.Application.constructor | backend/src/hatchling/bridge/app.py:51-52 | the verbosity is fixed when the application is made |
| App.Application.Invoke | backend/src/hatchling/bridge/app.py:54-115 | each local method appends exactly the lines `LocalOutcome` gives to stdout and ends as it says; its thresholds, level validation and `self` clash are stated by the lemmas about `LocalOutcome` |
| App.Application.ShowMessage | backend/src/hatchling/bridge/app.py:54-92 | a `(message='', **kwargs)` method prints `str(message)`, bracketed for the mini header, exactly when shown; a call that does not bind (including a keyword `self`) raises `TypeError` and prints nothing |
| App.Application.GetSafeApplication | backend/src/hatchling/bridge/app.py:117-118 | returns a new safe facade over this application |
| App.NewApplication | backend/src/hatchling/bridge/app.py:51-52 | `Application()` fails exactly when reading the verbosity fails, with that error; otherwise its verbosity is the one read from the environment |
| App.InvokedApplication.Invoke | backend/src/hatchling/bridge/app.py:10-36 | each forwarding method appends to stdout exactly the lines `ForwardedOutcome` gives (its one encoded line, or nothing when `self` or `method` is a keyword) and ends as it says |
| App.InvokedApplication.GetSafeApplication | backend/src/hatchling/bridge/app.py:38-39 | returns a new safe facade over this application |
| App.SafeApplication.constructor | backend/src/hatchling/bridge/app.py:121-131 | the facade wraps the given application |
| App.SafeApplication.Invoke | backend/src/hatchling/bridge/app.py:121-131 | each of the nine copied operations does exactly what the wrapped application's operation does, on that application's stdout |
| App.GetApplication | backend/src/hatchling/bridge/app.py:140-141 | returns the forwarding application iff called by the app; otherwise a local one, which fails only if the environment counters are not integers |

## Left out

- Process spawning and I/O (`subprocess.run`, `Popen`, `communicate`,
  `poll`, pipe reading in `stream_process_output`) are not modelled. A child
  is given as its output lines and its return code. The no-deadlock reason
  for reading pipes line by line is a concurrency matter outside a
  sequential model.
- `os.execvp` is the terminal value `ReplacedBy(file, argv)`. Its failure
  modes (such as a missing executable) are not modelled.
- `sys.exit` is an exit value, not real termination. The meaning of a
  non-integer exit status (printed, exit 1) is left to the caller.
- `pickle.dumps` protocol 4 is an uninterpreted function from a call token
  to bytes. The pickle round trip is not modelled.
- `shutil.which`, `shlex.split`, `shlex.join`, `shlex.quote`,
  `subprocess.list2cmdline` and `os.path.normpath` are uninterpreted
  functions of the host. Their own behaviour is library code not visible
  here.
- `join_command_args` is modelled only as the choice among the three
  joiners. No split/join round trip is stated, since `shlex` is
  uninterpreted.
- `LazilyLoadedModules` and the `modules` property are dynamic imports,
  with no logic to model.
- The `home` property is a host query (`expanduser` plus a path wrapper).
- `get_platform_name`'s `lru_cache` over `platform.system()` is not
  modelled. The raw system string is a field of the host and is normalised
  on each lookup. Caching within one `Platform` is modelled.
- `exit_with_code` is inlined into the checked methods as an exit value.
- `str.lower()` is modelled for ASCII letters only. Unicode case mapping is
  not modelled.
- `int()` accepts an optional sign and ASCII decimal digits `0`-`9`.
  Python also accepts other Unicode decimal digits, surrounding whitespace
  and `_` digit separators; the model treats these as errors.
- Byte output and its UTF-8 decoding are not modelled. A child's output is
  already text, and `stdout.decode('utf-8')` is the concatenation of its
  lines.
- `print` details such as `end=''` are not modelled. Output is an appended
  sequence of strings, one per `print` call.
- Popen keyword validation is not modelled. Keyword arguments are carried
  through to the launch record as given; for example, `capture_output`
  reaching `Popen` is not reported as an error.
- Keyword arguments are a map. Python keeps keywords in call order, and the
  serialised call depends on that order. In the model, two forwarded calls
  that differ only in keyword order give the same line.
- Argument values are `None`, booleans, integers and strings. Floats,
  lists, dicts and other objects are not modelled. The forwarding facade
  passes any value to the serialiser.
- The `int()` error message quotes the text in single quotes. The escaping
  `repr` applies to quotes and control characters in the text is not
  modelled.
- `os.defpath` and `os.pathsep` are the POSIX values `/bin:/usr/bin` and
  `:`. The SIP workaround only runs on macOS.
