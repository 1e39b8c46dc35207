/** Script discovery: the file-name convention for the pre- and post-build
    scripts of a solution, and the wrapping that turns a script's text into
    the command the PowerShell engine is handed. */
module Scripts {
  import opened Formatting

  /** The two script slots. */
  datatype Phase = PreBuild | PostBuild

  /** The phase's name, used both in the script file name and as the label
      of the run in the output pane. */
  function PhaseLabel(phase: Phase): string {
    match phase
    case PreBuild => "PreBuild"
    case PostBuild => "PostBuild"
  }

  /** `.PreBuild.ps1` or `.PostBuild.ps1`. */
  function PhaseSuffix(phase: Phase): string {
    "." + PhaseLabel(phase) + ".ps1"
  }

  /** `<solutionName>.PreBuild.ps1` or `<solutionName>.PostBuild.ps1`. */
  function ScriptFileName(solutionName: string, phase: Phase): string {
    solutionName + PhaseSuffix(phase)
  }

  predicate EndsWith(s: string, suffix: string) {
    |suffix| <= |s| && s[|s| - |suffix|..] == suffix
  }

  /** Recovers the solution name and the phase from a script file name;
      None for a name that follows neither convention. */
  function ParseScriptFileName(f: string): (r: Option<(string, Phase)>)
    ensures r.Some? ==> ScriptFileName(r.value.0, r.value.1) == f
  {
    if EndsWith(f, PhaseSuffix(PreBuild)) then
      var n := f[..|f| - |PhaseSuffix(PreBuild)|];
      assert f == n + f[|f| - |PhaseSuffix(PreBuild)|..];
      Some((n, PreBuild))
    else if EndsWith(f, PhaseSuffix(PostBuild)) then
      var n := f[..|f| - |PhaseSuffix(PostBuild)|];
      assert f == n + f[|f| - |PhaseSuffix(PostBuild)|..];
      Some((n, PostBuild))
    else
      None
  }

  /** The file name of a phase names that solution and that phase again. */
  lemma ParseScriptFileNameRoundTrip(solutionName: string, phase: Phase)
    ensures ParseScriptFileName(ScriptFileName(solutionName, phase)) == Some((solutionName, phase))
  {
    var f := ScriptFileName(solutionName, phase);
    var pre, post := PhaseSuffix(PreBuild), PhaseSuffix(PostBuild);
    if phase == PreBuild {
      assert f[|f| - |pre|..] == pre;
      assert f[..|f| - |pre|] == solutionName;
    } else {
      assert f[|f| - |post|..] == post;
      assert f[|f| - |pre|..] == post[1..];
      assert post[1] == 'P' != pre[0];
      assert !EndsWith(f, pre);
      assert f[..|f| - |post|] == solutionName;
    }
  }

  /** No two (solution, phase) pairs share a script file; in particular the
      pre-build and post-build scripts of one solution are distinct files. */
  lemma ScriptFileNameInjective(n1: string, p1: Phase, n2: string, p2: Phase)
    ensures ScriptFileName(n1, p1) == ScriptFileName(n2, p2) ==> n1 == n2 && p1 == p2
  {
    ParseScriptFileNameRoundTrip(n1, p1);
    ParseScriptFileNameRoundTrip(n2, p2);
  }

  const WrapOpen: string := "&{ "
  const WrapClose: string := " } -Verbose -Debug *>&1"

  /** The script text run as a script block that is passed -Verbose and
      -Debug, with every stream redirected into the output. */
  function Wrap(text: string): (w: string)
    ensures |w| == |WrapOpen| + |text| + |WrapClose|
    ensures w[|WrapOpen|..|WrapOpen| + |text|] == text
  {
    WrapOpen + text + WrapClose
  }

  /** The script text inside a wrapped command; None when `w` is not framed
      by the wrapping. */
  function Unwrap(w: string): (r: Option<string>)
    ensures r.Some? ==> |r.value| + |WrapOpen| + |WrapClose| == |w|
  {
    if |WrapOpen| + |WrapClose| <= |w| && w[..|WrapOpen|] == WrapOpen && EndsWith(w, WrapClose) then
      Some(w[|WrapOpen|..|w| - |WrapClose|])
    else
      None
  }

  /** Unwrapping a wrapped text gives the text back. */
  lemma UnwrapWrap(text: string)
    ensures Unwrap(Wrap(text)) == Some(text)
  {
    var w := Wrap(text);
    assert w[..|WrapOpen|] == WrapOpen;
    assert w[|w| - |WrapClose|..] == WrapClose;
  }

  /** Every framed command is the wrapping of the text it frames. */
  lemma WrapUnwrap(w: string)
    ensures Unwrap(w).Some? ==> Wrap(Unwrap(w).value) == w
  {
    if Unwrap(w).Some? {
      var t := Unwrap(w).value;
      assert w == w[..|WrapOpen|] + w[|WrapOpen|..|w| - |WrapClose|] + w[|w| - |WrapClose|..];
    }
  }

  /** Probing one phase's script: `files` maps the names of the files in the
      solution folder to their contents. Absent file: None; present file: its
      text, wrapped. */
  function Discover(files: map<string, string>, solutionName: string, phase: Phase): (r: Option<string>)
    ensures r.Some? <==> ScriptFileName(solutionName, phase) in files
  {
    var f := ScriptFileName(solutionName, phase);
    if f in files then Some(Wrap(files[f])) else None
  }

  /** A discovered script frames exactly the text of its file. */
  lemma DiscoverFramesFileText(files: map<string, string>, solutionName: string, phase: Phase)
    ensures var r := Discover(files, solutionName, phase);
      r.Some? ==> Unwrap(r.value) == Some(files[ScriptFileName(solutionName, phase)])
  {
    var f := ScriptFileName(solutionName, phase);
    if f in files {
      UnwrapWrap(files[f]);
    }
  }
}
