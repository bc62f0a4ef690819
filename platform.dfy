/** Model of hatch's `Platform` helper: one place that decides how a command is
    formatted, launched, streamed and checked on the running operating system.

    The host is abstracted as an `Env`: the raw `platform.system()` string, the
    environment variables, and the library functions whose behaviour is not
    part of this model (`shutil.which`, `shlex.split`, `os.path.normpath`,
    `subprocess.list2cmdline`, `shlex.join`, `shlex.quote`). A spawned child is
    abstracted as the lines it prints and the status it exits with. */
module Platforms {
  import opened Py
  import opened Text

  // ---------------------------------------------------------------------------
  // Platform identity
  // ---------------------------------------------------------------------------

  /** `normalize_platform_name`: lower-case the name, and call Darwin macOS. */
  function NormalizePlatformName(platformName: string): (r: string)
    ensures forall i :: 0 <= i < |r| ==> !IsUpper(r[i])
    ensures r == "macos" <==> Lower(platformName) == "darwin" || Lower(platformName) == "macos"
    ensures r != "macos" ==> r == Lower(platformName)
  {
    var lowered := Lower(platformName);
    if lowered == "darwin" then "macos" else lowered
  }

  /** Normalising a normalised name changes nothing. */
  lemma NormalizeIdempotent(platformName: string)
    ensures NormalizePlatformName(NormalizePlatformName(platformName)) == NormalizePlatformName(platformName)
  {
    LowerIdempotent(platformName);
  }

  predicate IsWindows(name: string) { name == "windows" }

  predicate IsMacOS(name: string) { name == "macos" }

  /** `linux` is "neither Windows nor macOS", whatever the name is. */
  predicate IsLinux(name: string) { !(IsWindows(name) || IsMacOS(name)) }

  /** Exactly one of the three platform predicates holds of any name. */
  lemma ExactlyOnePlatform(name: string)
    ensures (if IsWindows(name) then 1 else 0) + (if IsMacOS(name) then 1 else 0)
          + (if IsLinux(name) then 1 else 0) == 1
    ensures IsLinux(name) <==> name != "windows" && name != "macos"
  {
  }

  /** Which platform a raw `platform.system()` answer selects. */
  lemma PlatformOfSystem(system: string)
    ensures IsMacOS(NormalizePlatformName(system)) <==> Lower(system) == "darwin" || Lower(system) == "macos"
    ensures IsWindows(NormalizePlatformName(system)) <==> Lower(system) == "windows"
  {
  }

  // ---------------------------------------------------------------------------
  // The host
  // ---------------------------------------------------------------------------

  /** `shutil.which(name, path=...)`: `None` for the path means the default
      search path. */
  type Which = (string, Option<string>) -> Option<string>

  datatype Env = Env(
    system: string,                          // platform.system()
    vars: map<string, string>,               // os.environ
    which: Which,                            // shutil.which
    split: string -> seq<string>,            // shlex.split
    normpath: string -> string,              // os.path.normpath
    list2cmdline: seq<string> -> string,     // subprocess.list2cmdline
    hasShlexJoin: bool,                      // whether shlex has `join`
    shlexJoin: seq<string> -> string,        // shlex.join
    quote: string -> string)                 // shlex.quote

  /** A `which` answer that is truthy: found and not empty. */
  predicate Resolves(o: Option<string>) {
    o.Some? && o.value != ""
  }

  // ---------------------------------------------------------------------------
  // format_for_subprocess
  // ---------------------------------------------------------------------------

  /** A command is either one string or a list of arguments. */
  datatype Command = CommandLine(line: string) | ArgList(args: seq<string>)

  /** `format_for_subprocess`: on Windows without a shell, resolve the
      executable of an argument list; elsewhere without a shell, split a string
      command with shell-lexing rules; in every other case leave it alone. */
  function FormatForSubprocess(windows: bool, env: Env, command: Command, shell: bool): (r: Result<Command, PyError>)
    ensures r.Err? <==> windows && !shell && command.ArgList? && |command.args| == 0
    ensures r.Err? ==> r.error == IndexError
    ensures windows && !shell && command.ArgList? && r.Ok? ==>
      && r.value.ArgList?
      && |r.value.args| == |command.args|
      && r.value.args[1..] == command.args[1..]
      && r.value.args[0] == (var found := env.which(command.args[0], None);
                             if Resolves(found) then found.value else command.args[0])
    ensures !windows && !shell && command.CommandLine? ==> r == Ok(ArgList(env.split(command.line)))
    ensures shell || (windows && command.CommandLine?) || (!windows && command.ArgList?) ==> r == Ok(command)
  {
    if windows then
      if !shell && command.ArgList? then
        if |command.args| == 0 then Err(IndexError)
        else
          var executable := command.args[0];
          var found := env.which(executable, None);
          Ok(ArgList([if Resolves(found) then found.value else executable] + command.args[1..]))
      else Ok(command)
    else if !shell && command.CommandLine? then Ok(ArgList(env.split(command.line)))
    else Ok(command)
  }

  // ---------------------------------------------------------------------------
  // The macOS System Integrity Protection workaround
  // ---------------------------------------------------------------------------

  const PROTECTED_PREFIXES: seq<string> := ["/System", "/usr", "/bin", "/sbin", "/var"]
  const UNPROTECTED_PREFIX: string := "/usr/local"
  const SIP_SHELLS: seq<string> := ["sh", "bash", "zsh", "fish"]
  /** `os.defpath` and `os.pathsep` on a POSIX host such as macOS. */
  const DEFPATH: string := "/bin:/usr/bin"
  const PATHSEP: char := ':'

  /** Some environment variable overrides the dynamic linker. */
  predicate LinkerOverride(vars: map<string, string>) {
    exists name :: name in vars && (StartsWith(name, "DYLD_") || StartsWith(name, "LD_"))
  }

  /** A normalised `PATH` entry outside the SIP-protected directories, or under `/usr/local`. */
  predicate Unprotected(normalized: string) {
    !StartsWithAny(normalized, PROTECTED_PREFIXES) || StartsWith(normalized, UNPROTECTED_PREFIX)
  }

  /** The entries of `paths` whose normalised form is unprotected, in their original order. */
  function UnprotectedEntries(paths: seq<string>, normpath: string -> string): (kept: seq<string>)
    ensures |kept| <= |paths|
    ensures forall p :: p in kept <==> p in paths && Unprotected(normpath(p))
  {
    if |paths| == 0 then []
    else
      var last := paths[|paths| - 1];
      UnprotectedEntries(paths[..|paths| - 1], normpath) + (if Unprotected(normpath(last)) then [last] else [])
  }

  /** Filtering keeps the original order: it distributes over concatenation. */
  lemma {:induction false} UnprotectedEntriesAppend(a: seq<string>, b: seq<string>, normpath: string -> string)
    ensures UnprotectedEntries(a + b, normpath) == UnprotectedEntries(a, normpath) + UnprotectedEntries(b, normpath)
  {
    if b == [] {
      assert a + b == a;
    } else {
      var b', last := b[..|b| - 1], b[|b| - 1];
      var tail := if Unprotected(normpath(last)) then [last] else [];
      assert (a + b)[..|a + b| - 1] == a + b';
      calc {
        UnprotectedEntries(a + b, normpath);
        UnprotectedEntries(a + b', normpath) + tail;
        { UnprotectedEntriesAppend(a, b', normpath); }
        UnprotectedEntries(a, normpath) + UnprotectedEntries(b', normpath) + tail;
        UnprotectedEntries(a, normpath) + UnprotectedEntries(b, normpath);
      }
    }
  }

  /** The loop of `populate_default_popen_kwargs` that collects the unprotected
      `PATH` entries. */
  method CollectUnprotectedPaths(paths: seq<string>, normpath: string -> string) returns (kept: seq<string>)
    ensures kept == UnprotectedEntries(paths, normpath)
  {
    kept := [];
    for i := 0 to |paths|
      invariant kept == UnprotectedEntries(paths[..i], normpath)
    {
      assert paths[..i + 1][..i] == paths[..i];
      var normalized := normpath(paths[i]);
      if !StartsWithAny(normalized, PROTECTED_PREFIXES) {
        kept := kept + [paths[i]];
      } else if StartsWith(normalized, UNPROTECTED_PREFIX) {
        kept := kept + [paths[i]];
      }
    }
    assert paths[..|paths|] == paths;
  }

  /** The `PATH` entries: `os.environ.get('PATH', os.defpath).split(os.pathsep)`. */
  function PathEntries(vars: map<string, string>): seq<string> {
    Split(Get(vars, "PATH", DEFPATH), PATHSEP)
  }

  /** The search path handed to `which`: the unprotected entries joined by `os.pathsep`. */
  function SearchPath(env: Env): string {
    Join(UnprotectedEntries(PathEntries(env.vars), env.normpath), PATHSEP)
  }

  /** When some entry survives, the search path lists exactly the surviving entries, in order. */
  lemma SearchPathEntries(env: Env)
    ensures var kept := UnprotectedEntries(PathEntries(env.vars), env.normpath);
      kept != [] ==> Split(SearchPath(env), PATHSEP) == kept
  {
    var paths := PathEntries(env.vars);
    var kept := UnprotectedEntries(paths, env.normpath);
    if kept != [] {
      forall i | 0 <= i < |kept|
        ensures PATHSEP !in kept[i]
      {
        assert kept[i] in paths;
        var j :| 0 <= j < |paths| && paths[j] == kept[i];
      }
      SplitJoin(kept, PATHSEP);
    }
  }

  /** The `which` answer for the first name that resolves on `path`, if any. */
  function FirstResolved(names: seq<string>, which: Which, path: string): (r: Option<string>)
    ensures r.Some? ==> Resolves(r)
    ensures r.Some? ==> exists i :: (0 <= i < |names| && which(names[i], Some(path)) == r
                                     && forall j :: 0 <= j < i ==> !Resolves(which(names[j], Some(path))))
    ensures r.None? <==> forall i :: 0 <= i < |names| ==> !Resolves(which(names[i], Some(path)))
  {
    if |names| == 0 then None
    else
      var found := which(names[0], Some(path));
      if Resolves(found) then found
      else
        var r := FirstResolved(names[1..], which, path);
        assert forall i :: 1 <= i < |names| ==> names[i] == names[1..][i - 1];
        r
  }

  /** The first-match loop over `sh`, `bash`, `zsh`, `fish`. */
  method FindShell(which: Which, searchPath: string) returns (executable: Option<string>)
    ensures executable == FirstResolved(SIP_SHELLS, which, searchPath)
  {
    executable := None;
    var i := 0;
    while i < |SIP_SHELLS|
      invariant 0 <= i <= |SIP_SHELLS|
      invariant FirstResolved(SIP_SHELLS[i..], which, searchPath) == FirstResolved(SIP_SHELLS, which, searchPath)
    {
      var found := which(SIP_SHELLS[i], Some(searchPath));
      if Resolves(found) {
        executable := found;
        break;
      }
      assert SIP_SHELLS[i..][1..] == SIP_SHELLS[i + 1..];
      i := i + 1;
    }
  }

  /** The conditions under which `populate_default_popen_kwargs` looks for a shell. */
  predicate SipWorkaroundApplies(kwargs: map<string, PyValue>, macos: bool, shell: bool, vars: map<string, string>) {
    "executable" !in kwargs && macos && shell && LinkerOverride(vars)
  }

  /** What `populate_default_popen_kwargs` leaves in the keyword arguments. */
  function PopulatedKwargs(kwargs: map<string, PyValue>, macos: bool, shell: bool, env: Env): (r: map<string, PyValue>)
    ensures !SipWorkaroundApplies(kwargs, macos, shell, env.vars) ==> r == kwargs
    ensures r.Keys <= kwargs.Keys + {"executable"}
    ensures forall k :: k in kwargs ==> k in r && r[k] == kwargs[k]
    ensures ("executable" in r && "executable" !in kwargs) <==>
            SipWorkaroundApplies(kwargs, macos, shell, env.vars) && FirstResolved(SIP_SHELLS, env.which, SearchPath(env)).Some?
    ensures "executable" in r && "executable" !in kwargs ==>
            r["executable"] == PyStr(FirstResolved(SIP_SHELLS, env.which, SearchPath(env)).value)
  {
    if SipWorkaroundApplies(kwargs, macos, shell, env.vars) then
      match FirstResolved(SIP_SHELLS, env.which, SearchPath(env))
      case Some(executable) => kwargs["executable" := PyStr(executable)]
      case None => kwargs
    else kwargs
  }

  /** A keyword-argument dictionary that a callee may update in place. */
  class Kwargs {
    var items: map<string, PyValue>

    constructor(items: map<string, PyValue>)
      ensures this.items == items
    {
      this.items := items;
    }
  }

  // ---------------------------------------------------------------------------
  // Cached helpers
  // ---------------------------------------------------------------------------

  /** `default_shell`: `SHELL`, then on Windows `COMSPEC`, then `cmd` or `bash`. */
  function DefaultShellFor(windows: bool, vars: map<string, string>): (shell: string)
    ensures "SHELL" in vars ==> shell == vars["SHELL"]
    ensures "SHELL" !in vars && windows && "COMSPEC" in vars ==> shell == vars["COMSPEC"]
    ensures "SHELL" !in vars && windows && "COMSPEC" !in vars ==> shell == "cmd"
    ensures "SHELL" !in vars && !windows ==> shell == "bash"
  {
    if windows then Get(vars, "SHELL", Get(vars, "COMSPEC", "cmd"))
    else Get(vars, "SHELL", "bash")
  }

  /** The two formatters `format_file_uri` chooses between. */
  datatype FileUriFormatter = WindowsFileUri | PosixFileUri {
    function Apply(path: string): (uri: string)
      ensures WindowsFileUri? ==>
        && StartsWith(uri, "file:///")
        && |uri| == 8 + |path|
        && '\\' !in uri
        && forall i :: 0 <= i < |path| ==> uri[8 + i] == if path[i] == '\\' then '/' else path[i]
      ensures PosixFileUri? ==> StartsWith(uri, "file://") && uri[7..] == path
    {
      match this
      case WindowsFileUri => Replace("file:///" + path, '\\', '/')
      case PosixFileUri => "file://" + path
    }
  }

  /** The three joiners `join_command_args` chooses between. */
  datatype ArgJoiner = List2CmdLine | ShlexJoin | QuoteEachAndJoin {
    function Apply(env: Env, args: seq<string>): string {
      match this
      case List2CmdLine => env.list2cmdline(args)
      case ShlexJoin => env.shlexJoin(args)
      case QuoteEachAndJoin => Join(seq(|args|, i requires 0 <= i < |args| => env.quote(args[i])), ' ')
    }
  }

  function JoinerFor(windows: bool, hasShlexJoin: bool): ArgJoiner {
    if windows then List2CmdLine else if hasShlexJoin then ShlexJoin else QuoteEachAndJoin
  }

  // ---------------------------------------------------------------------------
  // Processes
  // ---------------------------------------------------------------------------

  /** What a spawned child does: the lines it writes and its exit status. */
  datatype Child = Child(lines: seq<string>, returncode: int)

  /** How a child was spawned: formatted command, `shell`, the keyword arguments
      after the SIP workaround, and whether stdout and stderr share one pipe. */
  datatype Launch = Launch(args: Command, shell: bool, kwargs: map<string, PyValue>, merged: bool)

  /** `CompletedProcess`: how the child was launched and its return code. */
  datatype Completed = Completed(launch: Launch, returncode: int)

  /** The outcome of a checked call: hand the value back, or end the program. */
  datatype Exit<T> = Proceed(value: T) | ExitWith(code: int)

  /** What `exit_with_command` ends in: exit with a status, or replace the
      process image (`os.execvp(file, argv)`). */
  datatype Termination = ExitedWith(code: int) | ReplacedBy(file: string, argv: seq<string>)

  /** `run_command` streams exactly when a status is on display and output is not captured. */
  predicate Streams(displayingStatus: bool, kwargs: map<string, PyValue>) {
    displayingStatus && !Truthy(Get(kwargs, "capture_output", PyNone))
  }

  /** The spawn a `Platform` on `name` makes for a command: both `run_command`
      and `capture_process` apply the SIP workaround and then format the command. */
  function LaunchFor(name: string, env: Env, command: Command, shell: bool, kwargs: map<string, PyValue>, merged: bool): (r: Result<Launch, PyError>)
    ensures r.Err? <==> FormatForSubprocess(IsWindows(name), env, command, shell).Err?
    ensures r.Ok? ==> && r.value.args == FormatForSubprocess(IsWindows(name), env, command, shell).value
                      && r.value.kwargs == PopulatedKwargs(kwargs, IsMacOS(name), shell, env)
                      && r.value.shell == shell && r.value.merged == merged
  {
    match FormatForSubprocess(IsWindows(name), env, command, shell)
    case Err(e) => Err(e)
    case Ok(args) => Ok(Launch(args, shell, PopulatedKwargs(kwargs, IsMacOS(name), shell, env), merged))
  }

  function CompletedWith(launch: Result<Launch, PyError>, child: Child): Result<Completed, PyError> {
    match launch
    case Err(e) => Err(e)
    case Ok(l) => Ok(Completed(l, child.returncode))
  }

  // ---------------------------------------------------------------------------
  // Platform
  // ---------------------------------------------------------------------------

  class Platform {
    const env: Env
    /** `display_func`, where streamed output and failed command output go. */
    const display: Console
    /** Whether an interactive status is being displayed. */
    var displayingStatus: bool

    var nameCache: Option<string>
    /** How many times the platform name has been looked up. */
    ghost var nameLookups: nat
    var defaultShellCache: Option<string>
    var fileUriCache: Option<FileUriFormatter>
    var joinCache: Option<ArgJoiner>

    /** The name every lookup of `name` produces. */
    function PlatformName(): string {
      NormalizePlatformName(env.system)
    }

    /** Every cache, once written, holds what its property computes, and the
        name has been looked up at most once. */
    ghost predicate Valid()
      reads this
    {
      && nameLookups == (if nameCache.Some? then 1 else 0)
      && (nameCache.Some? ==> nameCache.value == PlatformName())
      && (defaultShellCache.Some? ==> defaultShellCache.value == DefaultShellFor(IsWindows(PlatformName()), env.vars))
      && (fileUriCache.Some? ==> fileUriCache.value == (if IsWindows(PlatformName()) then WindowsFileUri else PosixFileUri))
      && (joinCache.Some? ==> joinCache.value == JoinerFor(IsWindows(PlatformName()), env.hasShlexJoin))
    }

    constructor(env: Env, display: Console)
      ensures Valid()
      ensures this.env == env && this.display == display
      ensures !displayingStatus
      ensures nameCache.None? && defaultShellCache.None? && fileUriCache.None? && joinCache.None?
    {
      this.env := env;
      this.display := display;
      displayingStatus := false;
      nameCache := None;
      nameLookups := 0;
      defaultShellCache := None;
      fileUriCache := None;
      joinCache := None;
    }

    /** `name`: looked up on first read, then never again. */
    method Name() returns (name: string)
      requires Valid()
      modifies this`nameCache, this`nameLookups
      ensures Valid()
      ensures name == PlatformName() && nameCache == Some(name)
      ensures old(nameCache).Some? ==> nameLookups == old(nameLookups)
    {
      if nameCache.None? {
        nameCache := Some(NormalizePlatformName(env.system));
        nameLookups := nameLookups + 1;
      }
      name := nameCache.value;
    }

    method Windows() returns (b: bool)
      requires Valid()
      modifies this`nameCache, this`nameLookups
      ensures Valid() && nameCache.Some?
      ensures b == IsWindows(PlatformName())
    {
      var name := Name();
      b := name == "windows";
    }

    method MacOS() returns (b: bool)
      requires Valid()
      modifies this`nameCache, this`nameLookups
      ensures Valid() && nameCache.Some?
      ensures b == IsMacOS(PlatformName())
    {
      var name := Name();
      b := name == "macos";
    }

    method Linux() returns (b: bool)
      requires Valid()
      modifies this`nameCache, this`nameLookups
      ensures Valid() && nameCache.Some?
      ensures b == IsLinux(PlatformName())
    {
      var windows := Windows();
      var macos := false;
      if !windows {
        macos := MacOS();
      }
      b := !(windows || macos);
    }

    /** `default_shell`: computed on first read; every later read returns the cached value. */
    method DefaultShell() returns (shell: string)
      requires Valid()
      modifies this`defaultShellCache, this`nameCache, this`nameLookups
      ensures Valid()
      ensures shell == DefaultShellFor(IsWindows(PlatformName()), env.vars)
      ensures defaultShellCache == Some(shell)
      ensures old(defaultShellCache).Some? ==> shell == old(defaultShellCache).value && nameCache == old(nameCache)
    {
      if defaultShellCache.None? {
        var windows := Windows();
        if windows {
          defaultShellCache := Some(Get(env.vars, "SHELL", Get(env.vars, "COMSPEC", "cmd")));
        } else {
          defaultShellCache := Some(Get(env.vars, "SHELL", "bash"));
        }
      }
      shell := defaultShellCache.value;
    }

    /** `join_command_args`: chosen on first read, then cached. */
    method JoinCommandArgs() returns (joiner: ArgJoiner)
      requires Valid()
      modifies this`joinCache, this`nameCache, this`nameLookups
      ensures Valid()
      ensures joiner == JoinerFor(IsWindows(PlatformName()), env.hasShlexJoin)
      ensures joinCache == Some(joiner)
      ensures old(joinCache).Some? ==> joiner == old(joinCache).value && nameCache == old(nameCache)
    {
      if joinCache.None? {
        var windows := Windows();
        if windows {
          joinCache := Some(List2CmdLine);
        } else if env.hasShlexJoin {
          joinCache := Some(ShlexJoin);
        } else {
          joinCache := Some(QuoteEachAndJoin);
        }
      }
      joiner := joinCache.value;
    }

    /** `format_file_uri`: chosen on first read, then cached. */
    method FormatFileUri() returns (formatter: FileUriFormatter)
      requires Valid()
      modifies this`fileUriCache, this`nameCache, this`nameLookups
      ensures Valid()
      ensures formatter.WindowsFileUri? <==> IsWindows(PlatformName())
      ensures fileUriCache == Some(formatter)
      ensures old(fileUriCache).Some? ==> formatter == old(fileUriCache).value && nameCache == old(nameCache)
    {
      if fileUriCache.None? {
        var windows := Windows();
        fileUriCache := Some(if windows then WindowsFileUri else PosixFileUri);
      }
      formatter := fileUriCache.value;
    }

    /** `format_for_subprocess` on the running platform. */
    method FormatCommand(command: Command, shell: bool) returns (r: Result<Command, PyError>)
      requires Valid()
      modifies this`nameCache, this`nameLookups
      ensures Valid() && nameCache.Some?
      ensures r == FormatForSubprocess(IsWindows(PlatformName()), env, command, shell)
    {
      var windows := Windows();
      r := FormatForSubprocess(windows, env, command, shell);
    }

    /** `populate_default_popen_kwargs`: on macOS, through a shell, with a
        dynamic-linker override in the environment and no `executable` given,
        set `executable` to the first of `sh`, `bash`, `zsh`, `fish` found on
        the unprotected part of `PATH`. */
    method PopulateDefaultPopenKwargs(kwargs: Kwargs, shell: bool)
      requires Valid()
      modifies kwargs, this`nameCache, this`nameLookups
      ensures Valid()
      ensures kwargs.items == PopulatedKwargs(old(kwargs.items), IsMacOS(PlatformName()), shell, env)
      ensures "executable" in old(kwargs.items) ==> nameCache == old(nameCache)
    {
      if "executable" !in kwargs.items {
        var macos := MacOS();
        if macos && shell && LinkerOverride(env.vars) {
          var defaultPaths := Split(Get(env.vars, "PATH", DEFPATH), PATHSEP);
          var unprotectedPaths := CollectUnprotectedPaths(defaultPaths, env.normpath);
          var searchPath := Join(unprotectedPaths, PATHSEP);
          var executable := FindShell(env.which, searchPath);
          if executable.Some? {
            kwargs.items := kwargs.items["executable" := PyStr(executable.value)];
          }
        }
      }
    }

    /** `capture_process`: spawn with stdout and stderr on one pipe. The
        keyword arguments are the callee's own copy, so the caller's are untouched. */
    method CaptureProcess(command: Command, shell: bool, kwargs: map<string, PyValue>) returns (r: Result<Launch, PyError>)
      requires Valid()
      modifies this`nameCache, this`nameLookups
      ensures Valid() && nameCache.Some?
      ensures r == LaunchFor(PlatformName(), env, command, shell, kwargs, true)
    {
      var popenKwargs := new Kwargs(kwargs);
      PopulateDefaultPopenKwargs(popenKwargs, shell);
      var args := FormatCommand(command, shell);
      match args
      case Err(e) => r := Err(e);
      case Ok(formatted) => r := Ok(Launch(formatted, shell, popenKwargs.items, true));
    }

    /** `_run_command_integrated`: every line the child prints goes to the
        display as it arrives, in order. */
    method RunCommandIntegrated(command: Command, shell: bool, kwargs: map<string, PyValue>, child: Child)
      returns (r: Result<Completed, PyError>)
      requires Valid()
      modifies this`nameCache, this`nameLookups, display
      ensures Valid() && nameCache.Some?
      ensures r == CompletedWith(LaunchFor(PlatformName(), env, command, shell, kwargs, true), child)
      ensures display.lines == old(display.lines) + (if r.Ok? then child.lines else [])
    {
      var process := CaptureProcess(command, shell, kwargs);
      if process.Err? {
        return Err(process.error);
      }
      for i := 0 to |child.lines|
        modifies display
        invariant display.lines == old(display.lines) + child.lines[..i]
      {
        display.Print(child.lines[i]);
      }
      assert child.lines[..|child.lines|] == child.lines;
      r := Ok(Completed(process.value, child.returncode));
    }

    /** `run_command`: stream through the display when a status is shown and
        output is not captured; otherwise spawn and wait. */
    method RunCommand(command: Command, shell: bool, kwargs: map<string, PyValue>, child: Child)
      returns (r: Result<Completed, PyError>)
      requires Valid()
      modifies this`nameCache, this`nameLookups, display
      ensures Valid() && nameCache.Some?
      ensures r == CompletedWith(LaunchFor(PlatformName(), env, command, shell, kwargs, Streams(displayingStatus, kwargs)), child)
      ensures r.Ok? ==> (r.value.launch.merged <==> Streams(displayingStatus, kwargs))
      ensures display.lines == old(display.lines) + (if r.Ok? && Streams(displayingStatus, kwargs) then child.lines else [])
    {
      if displayingStatus && !Truthy(Get(kwargs, "capture_output", PyNone)) {
        r := RunCommandIntegrated(command, shell, kwargs, child);
        return;
      }
      var popenKwargs := new Kwargs(kwargs);
      PopulateDefaultPopenKwargs(popenKwargs, shell);
      var args := FormatCommand(command, shell);
      match args
      case Err(e) => r := Err(e);
      case Ok(formatted) => r := Ok(Completed(Launch(formatted, shell, popenKwargs.items, false), child.returncode));
    }

    /** `check_command`: a non-zero return code ends the program with that
        code; otherwise the process result is handed back unchanged. */
    method CheckCommand(command: Command, shell: bool, kwargs: map<string, PyValue>, child: Child)
      returns (r: Result<Exit<Completed>, PyError>)
      requires Valid()
      modifies this`nameCache, this`nameLookups, display
      ensures Valid()
      ensures var run := CompletedWith(LaunchFor(PlatformName(), env, command, shell, kwargs, Streams(displayingStatus, kwargs)), child);
        && (r.Err? <==> run.Err?)
        && (r.Err? ==> r.error == run.error)
        && (r.Ok? ==> (r.value.ExitWith? <==> child.returncode != 0))
        && (r.Ok? && r.value.ExitWith? ==> r.value.code == child.returncode)
        && (r.Ok? && r.value.Proceed? ==> run == Ok(r.value.value))
      ensures display.lines == old(display.lines) + (if r.Ok? && Streams(displayingStatus, kwargs) then child.lines else [])
    {
      var process := RunCommand(command, shell, kwargs, child);
      match process
      case Err(e) => r := Err(e);
      case Ok(p) =>
        if p.returncode != 0 {
          r := Ok(ExitWith(p.returncode));
        } else {
          r := Ok(Proceed(p));
        }
    }

    /** `check_command_output`: the combined output of the child; on a
        non-zero return code it is shown on the display and the program ends
        with that code. */
    method CheckCommandOutput(command: Command, shell: bool, kwargs: map<string, PyValue>, child: Child)
      returns (r: Result<Exit<string>, PyError>)
      requires Valid()
      modifies this`nameCache, this`nameLookups, display
      ensures Valid()
      ensures r.Err? <==> FormatForSubprocess(IsWindows(PlatformName()), env, command, shell).Err?
      ensures r.Ok? && child.returncode != 0 ==> r.value == ExitWith(child.returncode)
      ensures r.Ok? && child.returncode == 0 ==> r.value == Proceed(Concat(child.lines))
      ensures display.lines == old(display.lines) + (if r.Ok? && child.returncode != 0 then [Concat(child.lines)] else [])
    {
      var process := CaptureProcess(command, shell, kwargs);
      if process.Err? {
        return Err(process.error);
      }
      var stdout := Concat(child.lines);
      if child.returncode != 0 {
        display.Print(stdout);
        return Ok(ExitWith(child.returncode));
      }
      return Ok(Proceed(stdout));
    }

    /** `exit_with_command`: on Windows run the command and exit with its
        return code, whatever it is; elsewhere replace the process image. */
    method ExitWithCommand(command: seq<string>, child: Child) returns (r: Result<Termination, PyError>)
      requires Valid()
      modifies this`nameCache, this`nameLookups, display
      ensures Valid()
      ensures IsWindows(PlatformName()) ==>
        r == (if |command| == 0 then Err(IndexError) else Ok(ExitedWith(child.returncode)))
      ensures !IsWindows(PlatformName()) ==>
        r == (if |command| == 0 then Err(IndexError) else Ok(ReplacedBy(command[0], command)))
      ensures display.lines == old(display.lines) +
        (if IsWindows(PlatformName()) && |command| > 0 && displayingStatus then child.lines else [])
    {
      var windows := Windows();
      if windows {
        var process := RunCommand(ArgList(command), false, map[], child);
        match process
        case Err(e) => r := Err(e);
        case Ok(p) => r := Ok(ExitedWith(p.returncode));
      } else if |command| == 0 {
        r := Err(IndexError);
      } else {
        r := Ok(ReplacedBy(command[0], command));
      }
    }
  }
}
