/** The build library of the Python web-build tools: the build mode parsed
    from its name, the build configuration, and the POSIX path joining the
    configuration relies on. */
module BuildTools {
  import opened Wrappers

  /** `BuildMode`: a development build (symbols, no optimisation) or an
      optimised release build. */
  datatype BuildMode = Dev | Release

  /** The message of the exception `from_str` raises. */
  function InvalidModeMessage(s: string): string {
    "invalid BuildMode value '" + s + "'"
  }

  /** `BuildMode.from_str`: the lower- and capitalised spellings of each
      mode are accepted; anything else raises. */
  function FromStr(s: string): (r: Result<BuildMode, string>)
    ensures r == Ok(Dev) <==> s == "dev" || s == "Dev"
    ensures r == Ok(Release) <==> s == "release" || s == "Release"
    ensures r.Err? ==> r.error == InvalidModeMessage(s)
  {
    if s == "dev" || s == "Dev" then Ok(Dev)
    else if s == "release" || s == "Release" then Ok(Release)
    else Err(InvalidModeMessage(s))
  }

  /** The spellings the unit tests exercise, and one they expect to raise. */
  lemma FromStrTestedSpellings()
    ensures FromStr("dev") == Ok(Dev) && FromStr("Dev") == Ok(Dev)
    ensures FromStr("release") == Ok(Release) && FromStr("Release") == Ok(Release)
    ensures FromStr("nope").Err?
  {
  }

  /** The canonical name of a mode, as the command line spells it. */
  function ModeName(mode: BuildMode): string {
    match mode
    case Dev => "dev"
    case Release => "release"
  }

  /** Every mode's own name parses back to it. */
  lemma FromStrModeName(mode: BuildMode)
    ensures FromStr(ModeName(mode)) == Ok(mode)
  {
  }

  /** Parsing succeeds for exactly four strings. */
  lemma FromStrAcceptsOnlyFour(s: string)
    ensures FromStr(s).Ok? <==> s in {"dev", "Dev", "release", "Release"}
  {
  }

  /** `os.path.join(a, b)` on POSIX: an absolute `b` replaces `a`; otherwise
      `b` is appended, with a `/` between unless `a` is empty or already
      ends in one. */
  function PosixJoin(a: string, b: string): (r: string)
    ensures |b| > 0 && b[0] == '/' ==> r == b
    ensures !(|b| > 0 && b[0] == '/') ==> |r| >= |a| + |b| && r[..|a|] == a
    ensures |r| >= |b| && r[|r| - |b|..] == b
  {
    if |b| > 0 && b[0] == '/' then b
    else if |a| == 0 || a[|a| - 1] == '/' then a + b
    else a + "/" + b
  }

  /** Joining a relative name onto a directory that does not end in `/`
      puts exactly one separator between them. */
  lemma PosixJoinSeparates(a: string, b: string)
    requires |a| > 0 && a[|a| - 1] != '/'
    requires |b| > 0 && b[0] != '/'
    ensures PosixJoin(a, b) == a + "/" + b
  {
  }

  /** `WebBuildConfig`: what a build and a package step need. */
  datatype WebBuildConfig = WebBuildConfig(mode: BuildMode, verbose: bool, outputDir: string, pkgDir: string)

  /** `WebBuildConfig(mode, verbose, out_dir, pkg_dir)`: the mode, the
      verbosity and the output directory are kept as given; the package
      directory is taken relative to the output directory. */
  function NewWebBuildConfig(mode: BuildMode, verbose: bool, outDir: string, pkgDir: string)
    : (c: WebBuildConfig)
    ensures c.mode == mode && c.verbose == verbose && c.outputDir == outDir
    ensures c.pkgDir == PosixJoin(outDir, pkgDir)
    ensures |pkgDir| > 0 && pkgDir[0] == '/' ==> c.pkgDir == pkgDir
    ensures !(|pkgDir| > 0 && pkgDir[0] == '/') ==> c.pkgDir[..|outDir|] == outDir
  {
    WebBuildConfig(mode, verbose, outDir, PosixJoin(outDir, pkgDir))
  }

  /** `content_dir`: the content is always read from `content`. */
  function ContentDir(c: WebBuildConfig): (d: string)
    ensures d == "content"
  {
    "content"
  }

  /** With the command line's defaults (`webpkg`, `pkg`) the package goes to
      `webpkg/pkg`. */
  lemma DefaultPackageDir(mode: BuildMode, verbose: bool)
    ensures NewWebBuildConfig(mode, verbose, "webpkg", "pkg").pkgDir == "webpkg/pkg"
  {
  }
}
