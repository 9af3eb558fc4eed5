/** The web build script: it runs `wasm-pack` with the arguments for the
    configured mode, packages the page and its content, and then optionally
    serves the output while reading commands. Running `wasm-pack`, copying
    files, the HTTP server and the console are effects; the model takes the
    process's return code and the console lines as inputs and returns the
    effects it would perform, in order, as `Action`s. */
module WebBuild {
  import opened Wrappers
  import opened BuildTools

  /** The `wasm-pack` arguments: a web-target build into the package
      directory, with the mode's optimisation flag last. */
  function WasmPackArgs(config: WebBuildConfig): (args: seq<string>)
    ensures |args| == 6
    ensures args[..5] == ["build", "--target", "web", "--out-dir", config.pkgDir]
    ensures args[5] == "--dev" <==> config.mode == Dev
    ensures args[5] == "--release" <==> config.mode == Release
  {
    ["build", "--target", "web", "--out-dir", config.pkgDir] +
    [if config.mode == Dev then "--dev" else "--release"]
  }

  /** The command line that is run. */
  function WasmPackCommand(config: WebBuildConfig): seq<string> {
    ["wasm-pack"] + WasmPackArgs(config)
  }

  /** `build`: the argument list is assembled step by step, `wasm-pack` is
      run with it, and the build succeeded exactly when the process exited
      with status 0. */
  method Build(config: WebBuildConfig, returnCode: int) returns (ok: bool, command: seq<string>)
    ensures command == WasmPackCommand(config)
    ensures ok <==> returnCode == 0
  {
    var buildArgs := ["build"];
    buildArgs := buildArgs + ["--target", "web"];
    buildArgs := buildArgs + ["--out-dir", config.pkgDir];
    if config.mode == Dev {
      buildArgs := buildArgs + ["--dev"];
    } else {
      buildArgs := buildArgs + ["--release"];
    }
    command := ["wasm-pack"] + buildArgs;
    if returnCode != 0 {
      ok := false;
    } else {
      ok := true;
    }
  }

  /** `sub` occurs in `s` starting at `i`. */
  predicate OccursAt(s: string, sub: string, i: nat) {
    i + |sub| <= |s| && s[i..i + |sub|] == sub
  }

  /** The first occurrence of `sub` in `s` at or after `from`. */
  function IndexFrom(s: string, sub: string, from: nat): (r: Option<nat>)
    requires from <= |s|
    ensures r.Some? ==> from <= r.value && OccursAt(s, sub, r.value)
    ensures r.Some? ==> forall j :: from <= j < r.value ==> !OccursAt(s, sub, j)
    ensures r.None? ==> forall j :: from <= j <= |s| ==> !OccursAt(s, sub, j)
    decreases |s| - from
  {
    if OccursAt(s, sub, from) then Some(from)
    else if from == |s| then None
    else IndexFrom(s, sub, from + 1)
  }

  /** `str.replace(pattern, replacement, 1)`: the first occurrence of
      `pattern` is replaced; a string without one is returned unchanged. An
      empty pattern occurs at the very start. */
  function ReplaceFirst(s: string, pattern: string, replacement: string): (r: string)
    ensures (forall j :: 0 <= j <= |s| ==> !OccursAt(s, pattern, j)) ==> r == s
    ensures forall i :: 0 <= i <= |s| && OccursAt(s, pattern, i) &&
                        (forall j :: 0 <= j < i ==> !OccursAt(s, pattern, j)) ==>
                          r == s[..i] + replacement + s[i + |pattern|..]
  {
    match IndexFrom(s, pattern, 0)
    case Some(i) => s[..i] + replacement + s[i + |pattern|..]
    case None => s
  }

  /** Where the packaged content goes: `content` under the output
      directory. */
  function OutputContentDir(config: WebBuildConfig): string {
    PosixJoin(config.outputDir, "content")
  }

  /** The directory a walked content directory is copied to: the first
      occurrence of the content directory's name is replaced by the output
      content directory. */
  function DestDir(config: WebBuildConfig, srcDir: string): string {
    ReplaceFirst(srcDir, ContentDir(config), OutputContentDir(config))
  }

  /** Every directory the walk of `content` yields starts with `content`,
      and is mirrored below the output content directory, whatever follows
      (even a second `content`). */
  lemma DestDirMirrorsContent(config: WebBuildConfig, rest: string)
    ensures DestDir(config, "content" + rest) == OutputContentDir(config) + rest
  {
    var s := "content" + rest;
    assert s[0..|"content"|] == "content";
    assert OccursAt(s, "content", 0);
    assert s[|"content"|..] == rest;
  }

  /** A console command of the interactive loop. */
  datatype Command = Quit | BuildCommand | PackageCommand | Unknown

  /** Each command has a one-letter and a full spelling. */
  function ParseCommand(line: string): (c: Command)
    ensures c == Quit <==> line == "q" || line == "quit"
    ensures c == BuildCommand <==> line == "b" || line == "build"
    ensures c == PackageCommand <==> line == "p" || line == "package"
  {
    if line == "q" || line == "quit" then Quit
    else if line == "b" || line == "build" then BuildCommand
    else if line == "p" || line == "package" then PackageCommand
    else Unknown
  }

  /** An effect of the script, in the order it happens. */
  datatype Action =
    | RunWasmPack(command: seq<string>)
    | PackageTo(outputDir: string)
    | StartServer(port: nat, directory: string)
    | StopServer
    | PrintUnknownCommand

  /** The effect one command has in the interactive loop. */
  function CommandAction(config: WebBuildConfig, c: Command): Action {
    match c
    case Quit => StopServer
    case BuildCommand => RunWasmPack(WasmPackCommand(config))
    case PackageCommand => PackageTo(config.outputDir)
    case Unknown => PrintUnknownCommand
  }

  /** The effects of the interactive loop fed `lines`: each command in turn,
      until the first quit. */
  function SessionActions(config: WebBuildConfig, lines: seq<string>): seq<Action>
    decreases |lines|
  {
    if |lines| == 0 then []
    else if ParseCommand(lines[0]) == Quit then [StopServer]
    else [CommandAction(config, ParseCommand(lines[0]))] + SessionActions(config, lines[1..])
  }

  /** The index of the first quit, or the number of lines if there is none. */
  function QuitIndex(lines: seq<string>): (k: nat)
    ensures k <= |lines|
    ensures k < |lines| ==> ParseCommand(lines[k]) == Quit
    ensures forall j :: 0 <= j < k ==> ParseCommand(lines[j]) != Quit
  {
    if |lines| == 0 then 0
    else if ParseCommand(lines[0]) == Quit then 0
    else 1 + QuitIndex(lines[1..])
  }

  /** The loop runs one command per line up to and including the first
      quit, and ignores every line after it. */
  lemma {:induction false} SessionRunsUpToFirstQuit(config: WebBuildConfig, lines: seq<string>)
    ensures |SessionActions(config, lines)| ==
            if QuitIndex(lines) < |lines| then QuitIndex(lines) + 1 else |lines|
    ensures forall k :: 0 <= k < |SessionActions(config, lines)| ==>
              SessionActions(config, lines)[k] == CommandAction(config, ParseCommand(lines[k]))
    ensures QuitIndex(lines) < |lines| ==>
              SessionActions(config, lines) == SessionActions(config, lines[..QuitIndex(lines) + 1])
    decreases |lines|
  {
    if |lines| == 0 || ParseCommand(lines[0]) == Quit {
    } else {
      var tail := lines[1..];
      SessionRunsUpToFirstQuit(config, tail);
      var s := SessionActions(config, lines);
      assert s == [CommandAction(config, ParseCommand(lines[0]))] + SessionActions(config, tail);
      forall k | 0 <= k < |s|
        ensures s[k] == CommandAction(config, ParseCommand(lines[k]))
      {
        if k > 0 {
          assert s[k] == SessionActions(config, tail)[k - 1];
          assert tail[k - 1] == lines[k];
        }
      }
      if QuitIndex(lines) < |lines| {
        var q := QuitIndex(lines);
        assert lines[..q + 1][1..] == tail[..q];
        assert ParseCommand(lines[..q + 1][0]) != Quit;
      }
    }
  }

  /** One command's branch of the loop body: `q` stops the server, `b`
      builds (its result is ignored), `p` packages, anything else is
      reported as unknown. */
  method RunCommand(config: WebBuildConfig, command: Command) returns (action: Action)
    ensures action == CommandAction(config, command)
  {
    match command {
      case Quit =>
        action := StopServer;
      case BuildCommand =>
        var _, buildCommand := Build(config, 0);
        action := RunWasmPack(buildCommand);
      case PackageCommand =>
        action := PackageTo(config.outputDir);
      case Unknown =>
        action := PrintUnknownCommand;
    }
  }

  /** The interactive loop: read a line, act on it, and stop after `q`.
      Running out of input ends the model's loop too (the script itself
      then fails reading the console), reported as `quit == false`. */
  method CommandLoop(config: WebBuildConfig, lines: seq<string>) returns (actions: seq<Action>, quit: bool)
    ensures actions == SessionActions(config, lines)
    ensures quit <==> QuitIndex(lines) < |lines|
  {
    actions := [];
    var keepRunning := true;
    var i := 0;
    while keepRunning && i < |lines|
      invariant 0 <= i <= |lines|
      invariant keepRunning ==> actions + SessionActions(config, lines[i..]) == SessionActions(config, lines)
      invariant keepRunning ==> QuitIndex(lines) == i + QuitIndex(lines[i..])
      invariant !keepRunning ==> actions == SessionActions(config, lines)
      invariant !keepRunning ==> 0 < i && QuitIndex(lines) == i - 1
      decreases |lines| - i
    {
      var command := ParseCommand(lines[i]);
      SessionStep(config, lines, i, actions);
      var action := RunCommand(config, command);
      if command == Quit {
        keepRunning := false;
      }
      actions := actions + [action];
      i := i + 1;
    }
    if keepRunning {
      assert lines[i..] == [];
    }
    quit := !keepRunning;
  }

  /** One turn of the loop: the first remaining line decides the next
      effect; a quit completes the session, anything else leaves the rest
      of the lines to decide the rest. */
  lemma SessionStep(config: WebBuildConfig, lines: seq<string>, i: nat, actions: seq<Action>)
    requires i < |lines|
    requires actions + SessionActions(config, lines[i..]) == SessionActions(config, lines)
    requires QuitIndex(lines) == i + QuitIndex(lines[i..])
    ensures ParseCommand(lines[i]) == Quit ==>
              actions + [StopServer] == SessionActions(config, lines) && QuitIndex(lines) == i
    ensures ParseCommand(lines[i]) != Quit ==>
              (actions + [CommandAction(config, ParseCommand(lines[i]))]) + SessionActions(config, lines[i + 1..])
              == SessionActions(config, lines) &&
              QuitIndex(lines) == i + 1 + QuitIndex(lines[i + 1..])
  {
    assert lines[i..][0] == lines[i];
    assert lines[i..][1..] == lines[i + 1..];
    if ParseCommand(lines[i]) != Quit {
      var rest := SessionActions(config, lines[i + 1..]);
      var action := CommandAction(config, ParseCommand(lines[i]));
      assert (actions + [action]) + rest == actions + ([action] + rest);
    }
  }

  /** The command line, after `argparse`. */
  datatype Args = Args(outDir: string, mode: string, interactive: bool, verbose: bool,
                       skipBuild: bool, skipPackage: bool, httpPort: nat, pkgDir: string)

  /** Every option left at its default: `webpkg`, dev mode, port 9000 and
      package directory `pkg`, no flag set. */
  const DEFAULT_ARGS: Args := Args("webpkg", "dev", false, false, false, false, 9000, "pkg")

  /** `argparse` admits only the two mode names. */
  predicate ArgsAdmitted(args: Args) {
    args.mode == "dev" || args.mode == "release"
  }

  /** The configuration `main` builds from the command line. */
  function ConfigOf(args: Args): (c: WebBuildConfig)
    requires ArgsAdmitted(args)
    ensures c.mode == (if args.mode == "dev" then Dev else Release)
    ensures c.outputDir == args.outDir && c.pkgDir == PosixJoin(args.outDir, args.pkgDir)
  {
    NewWebBuildConfig(FromStr(args.mode).value, args.verbose, args.outDir, args.pkgDir)
  }

  /** The outcome of `main`: it returns early when the build fails. */
  datatype MainResult = Aborted | Finished

  /** The first step of `main`: the `wasm-pack` run, unless skipped. */
  function BuildStep(config: WebBuildConfig, args: Args): seq<Action> {
    if args.skipBuild then [] else [RunWasmPack(WasmPackCommand(config))]
  }

  /** The rest of `main`: the package step unless skipped, then, when
      interactive, the server and the effects of the console session. */
  function AfterBuild(config: WebBuildConfig, args: Args, lines: seq<string>): seq<Action> {
    (if args.skipPackage then [] else [PackageTo(args.outDir)]) +
    (if args.interactive then [StartServer(args.httpPort, args.outDir)] + SessionActions(config, lines) else [])
  }

  /** What `main` does after a successful (or skipped) build. */
  method PackageAndServe(config: WebBuildConfig, args: Args, lines: seq<string>) returns (actions: seq<Action>)
    requires config.outputDir == args.outDir
    ensures actions == AfterBuild(config, args, lines)
  {
    actions := [];
    if !args.skipPackage {
      actions := [PackageTo(config.outputDir)];
    }
    if args.interactive {
      var session, _ := CommandLoop(config, lines);
      actions := actions + [StartServer(args.httpPort, config.outputDir)] + session;
    }
  }

  /** `main`: build unless skipped, stop if that build failed, package
      unless skipped, and finally, when interactive, start the server and
      run the command loop. `buildReturnCode` is the exit status of the
      first `wasm-pack` run; the builds the loop starts do not affect the
      outcome. */
  method RunMain(args: Args, buildReturnCode: int, lines: seq<string>)
    returns (result: MainResult, actions: seq<Action>)
    requires ArgsAdmitted(args)
    ensures result == Aborted <==> !args.skipBuild && buildReturnCode != 0
    ensures result == Aborted ==> actions == [RunWasmPack(WasmPackCommand(ConfigOf(args)))]
    ensures result == Finished ==>
              actions == BuildStep(ConfigOf(args), args) + AfterBuild(ConfigOf(args), args, lines)
  {
    var config := ConfigOf(args);
    var rest;
    if args.skipBuild {
      rest := PackageAndServe(config, args, lines);
      assert [] + rest == rest;
      return Finished, rest;
    }
    var ok, command := Build(config, buildReturnCode);
    if !ok {
      return Aborted, [RunWasmPack(command)];
    }
    rest := PackageAndServe(config, args, lines);
    return Finished, [RunWasmPack(command)] + rest;
  }
}
