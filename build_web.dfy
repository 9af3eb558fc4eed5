/** The stand-alone web build script. Its build configuration, `build`,
    `package` and `main` are the same code as the packaged web build's
    (`WebBuild`), so only its own, stricter mode parser is modelled here. */
module BuildWeb {
  import opened Wrappers
  import BuildTools

  /** `BuildMode.from_str` of this script: only the lower-case names are
      accepted; anything else raises. */
  function FromStr(s: string): (r: Result<BuildTools.BuildMode, string>)
    ensures r == Ok(BuildTools.Dev) <==> s == "dev"
    ensures r == Ok(BuildTools.Release) <==> s == "release"
    ensures r.Err? ==> r.error == BuildTools.InvalidModeMessage(s)
  {
    if s == "dev" then Ok(BuildTools.Dev)
    else if s == "release" then Ok(BuildTools.Release)
    else Err(BuildTools.InvalidModeMessage(s))
  }

  /** The two parsers agree on every name the command line admits and on
      every string both reject, and differ only on the capitalised names,
      which this one rejects. */
  lemma FromStrAgreesWithLibrary(s: string)
    ensures s != "Dev" && s != "Release" ==> FromStr(s) == BuildTools.FromStr(s)
    ensures s == "Dev" || s == "Release" ==> FromStr(s).Err? && BuildTools.FromStr(s).Ok?
  {
  }
}
