/**
 * The `install_lib` packaging command: its options, their normalisation in
 * `finalize_options`, and the lists of files it reports as inputs and outputs.
 *
 * Calls into code outside this model are parameters: `os.path.join` (`join`),
 * `os.path.splitext(os.path.normcase(f))[1]` (`extension`),
 * `imp.cache_from_source` (`cache`), the builtin `int` applied to text
 * (`parseInt`, None standing for ValueError), `os.sep` (`sep`), and what
 * `set_undefined_options` and `get_finalized_command` hand back.
 */
module InstallLibCommand {
  import opened Wrappers

  /** The extension of Python source files. */
  const PythonSourceExtension: string := ".py"

  /** The message of the PackagingOptionError raised for a bad `optimize`. */
  const OptimizeErrorMessage: string := "optimize must be 0, 1, or 2"

  /** A value of the `optimize` option: None, an int, or text as read from a command line or a config file. */
  datatype OptimizeValue = Unset | Int(n: int) | Text(s: string)

  /** The options of `install_dist` that `set_undefined_options` copies into unset options. */
  datatype InstallDistOptions = InstallDistOptions(
    buildLib: Option<string>,
    installLib: Option<string>,
    compile: Option<bool>,
    optimize: OptimizeValue,
    skipBuild: Option<bool>)

  /** What the distribution reports about the modules it holds. */
  datatype Distribution = Distribution(hasPureModules: bool, hasExtModules: bool)

  /** What a finalized build command (`build_py`, `build_ext`) reports: its outputs and its `build_lib` option. */
  datatype BuildCommand = BuildCommand(outputs: seq<string>, buildLib: string)

  /** How `finalize_options` ends: normally, or by raising PackagingOptionError. */
  datatype FinalizeOutcome = Finalized | OptionError(message: string)

  /** The result of normalising `optimize`: the option's new value, and whether it was accepted. */
  datatype OptimizeCheck = OptimizeCheck(value: OptimizeValue, accepted: bool)

  /** `set_undefined_options` for one option: an unset option takes the value of `install_dist`. */
  function FillUnset<T>(own: Option<T>, fromDist: Option<T>): (r: Option<T>)
    ensures own.Some? ==> r == own
    ensures own.None? ==> r == fromDist
    ensures r.Some? <==> own.Some? || fromDist.Some?
  {
    if own.Some? then own else fromDist
  }

  /**
   * The `optimize` steps of `finalize_options`: an unset value becomes 0; an
   * int is kept as it is; text is parsed, the option takes the parsed int, and
   * the value is accepted only when it is 0, 1 or 2. Text that does not parse
   * leaves the option as it was and is rejected.
   */
  function CheckOptimize(v: OptimizeValue, parseInt: string -> Option<int>): (r: OptimizeCheck)
    ensures v.Unset? ==> r == OptimizeCheck(Int(0), true)
    ensures v.Int? ==> r == OptimizeCheck(v, true)
    ensures v.Text? ==> (r.accepted <==> parseInt(v.s) in {Some(0), Some(1), Some(2)})
    ensures v.Text? && parseInt(v.s).Some? ==> r.value == Int(parseInt(v.s).value)
    ensures v.Text? && parseInt(v.s).None? ==> r.value == v
    ensures r.accepted ==> r.value.Int?
  {
    match v
    case Unset => OptimizeCheck(Int(0), true)
    case Int(_) => OptimizeCheck(v, true)
    case Text(s) =>
      match parseInt(s)
      case None => OptimizeCheck(v, false)
      case Some(n) => OptimizeCheck(Int(n), n == 0 || n == 1 || n == 2)
  }

  /** Python's truth value of the `compile` option: None and False are false. */
  function CompileTruthy(c: Option<bool>): (r: bool)
    ensures r <==> c.Some? && c.value
  {
    c == Some(true)
  }

  /**
   * Python's truth value of the `optimize` option: None and 0 are false, and
   * text is true unless it is empty, so the text "0" is true.
   */
  function OptimizeTruthy(v: OptimizeValue): (r: bool)
    ensures v.Unset? ==> !r
    ensures v.Int? ==> (r <==> v.n != 0)
    ensures v.Text? ==> (r <==> v.s != "")
  {
    match v
    case Unset => false
    case Int(n) => n != 0
    case Text(s) => s != ""
  }

  /**
   * Once `optimize` is accepted it is an int, so its truth value is whether it
   * is non-zero; text is left in the option only when it is rejected.
   */
  lemma CheckedOptimizeTruthy(v: OptimizeValue, parseInt: string -> Option<int>)
    ensures CheckOptimize(v, parseInt).accepted ==>
      (OptimizeTruthy(CheckOptimize(v, parseInt).value) <==> CheckOptimize(v, parseInt).value != Int(0))
    ensures CheckOptimize(v, parseInt).value.Text? ==> !CheckOptimize(v, parseInt).accepted
  {
  }

  /** Python's `s[n:]`: the characters from position `n` on, empty when `n` is past the end. */
  function SliceFrom(s: string, n: nat): (r: string)
    ensures |r| == if n <= |s| then |s| - n else 0
    ensures n <= |s| ==> s == s[..n] + r
  {
    if n <= |s| then s[n..] else ""
  }

  /** Each build file re-rooted under `outputDir`, its first `prefixLen` characters cut off, in order. */
  function Rerooted(files: seq<string>, prefixLen: nat, outputDir: string, join: (string, string) -> string): (r: seq<string>)
    ensures |r| == |files|
    ensures forall i :: 0 <= i < |files| ==> r[i] == join(outputDir, SliceFrom(files[i], prefixLen))
  {
    if files == [] then []
    else Rerooted(files[..|files| - 1], prefixLen, outputDir, join) + [join(outputDir, SliceFrom(files[|files| - 1], prefixLen))]
  }

  /** The files a build command contributes: its outputs when the distribution has modules of its kind, none otherwise. */
  function Reported(hasAny: bool, build: BuildCommand): (r: seq<string>)
    ensures hasAny ==> r == build.outputs
    ensures !hasAny ==> r == []
  {
    if hasAny then build.outputs else []
  }

  /** What `_mutate_outputs` returns: nothing when `hasAny` is false, otherwise every build file re-rooted, in order. */
  function MutatedOutputs(hasAny: bool, build: BuildCommand, sep: string, outputDir: string, join: (string, string) -> string): (r: seq<string>)
    ensures !hasAny ==> r == []
    ensures |r| == |Reported(hasAny, build)|
    ensures forall i :: 0 <= i < |r| ==>
      r[i] == join(outputDir, SliceFrom(Reported(hasAny, build)[i], |build.buildLib| + |sep|))
  {
    if hasAny then Rerooted(build.outputs, |build.buildLib| + |sep|, outputDir, join) else []
  }

  /** The bytecode names one file contributes: none unless it is a Python source file. */
  function FileBytecode(f: string, compile: bool, optimize: bool, extension: string -> string, cache: (string, bool) -> string): (r: seq<string>)
    ensures |r| == if extension(f) == PythonSourceExtension then Count(compile) + Count(optimize) else 0
    ensures forall x :: x in r <==>
      extension(f) == PythonSourceExtension && ((compile && x == cache(f, true)) || (optimize && x == cache(f, false)))
    ensures |r| == 2 ==> r == [cache(f, true), cache(f, false)]
  {
    if extension(f) != PythonSourceExtension then []
    else (if compile then [cache(f, true)] else []) + (if optimize then [cache(f, false)] else [])
  }

  /** The bytecode names of `files`, file by file in order. */
  function BytecodeNames(files: seq<string>, compile: bool, optimize: bool, extension: string -> string, cache: (string, bool) -> string): seq<string>
  {
    if files == [] then []
    else BytecodeNames(files[..|files| - 1], compile, optimize, extension, cache) + FileBytecode(files[|files| - 1], compile, optimize, extension, cache)
  }

  /** The Python source files among `files`, in order. */
  function PythonSources(files: seq<string>, extension: string -> string): seq<string>
  {
    if files == [] then []
    else PythonSources(files[..|files| - 1], extension) + (if extension(files[|files| - 1]) == PythonSourceExtension then [files[|files| - 1]] else [])
  }

  /** One for a set flag, none otherwise. */
  function Count(b: bool): nat
  {
    if b then 1 else 0
  }

  /** The list of bytecode names of a concatenation is the concatenation of the lists. */
  lemma {:induction false} BytecodeNamesAppend(a: seq<string>, b: seq<string>, compile: bool, optimize: bool, extension: string -> string, cache: (string, bool) -> string)
    ensures BytecodeNames(a + b, compile, optimize, extension, cache) ==
      BytecodeNames(a, compile, optimize, extension, cache) + BytecodeNames(b, compile, optimize, extension, cache)
  {
    if b == [] {
      assert a + b == a;
    } else {
      var b' := b[..|b| - 1];
      assert (a + b)[..|a + b| - 1] == a + b';
      assert (a + b)[|a + b| - 1] == b[|b| - 1];
      BytecodeNamesAppend(a, b', compile, optimize, extension, cache);
    }
  }

  /** Every Python source contributes one name per enabled flag, nothing else contributes. */
  lemma {:induction false} BytecodeCount(files: seq<string>, compile: bool, optimize: bool, extension: string -> string, cache: (string, bool) -> string)
    ensures |BytecodeNames(files, compile, optimize, extension, cache)| ==
      (Count(compile) + Count(optimize)) * |PythonSources(files, extension)|
    ensures |BytecodeNames(files, compile, optimize, extension, cache)| <= 2 * |PythonSources(files, extension)|
  {
    if files != [] {
      BytecodeCount(files[..|files| - 1], compile, optimize, extension, cache);
    }
  }

  /**
   * A name is listed exactly when it is the optimized-off (`cache(f, true)`)
   * name of a Python source with `compile` set or its optimized
   * (`cache(f, false)`) name with `optimize` set.
   */
  lemma {:induction false} BytecodeMembership(files: seq<string>, compile: bool, optimize: bool, extension: string -> string, cache: (string, bool) -> string, x: string)
    ensures x in BytecodeNames(files, compile, optimize, extension, cache) <==>
      exists f :: f in files && extension(f) == PythonSourceExtension &&
        ((compile && x == cache(f, true)) || (optimize && x == cache(f, false)))
  {
    if files != [] {
      var init, last := files[..|files| - 1], files[|files| - 1];
      assert files == init + [last];
      BytecodeMembership(init, compile, optimize, extension, cache, x);
      forall f | f in files ensures f in init || f == last { }
    }
  }

  /** Each file's names sit between those of the files before it and those of the files after it. */
  lemma PerFileContribution(files: seq<string>, i: nat, compile: bool, optimize: bool, extension: string -> string, cache: (string, bool) -> string)
    requires i < |files|
    ensures BytecodeNames(files, compile, optimize, extension, cache) ==
      BytecodeNames(files[..i], compile, optimize, extension, cache) +
      FileBytecode(files[i], compile, optimize, extension, cache) +
      BytecodeNames(files[i + 1..], compile, optimize, extension, cache)
  {
    assert files == files[..i + 1] + files[i + 1..];
    assert files[..i + 1][..i] == files[..i];
    BytecodeNamesAppend(files[..i + 1], files[i + 1..], compile, optimize, extension, cache);
  }

  /** Files that are not Python sources do not matter: the names are those of the Python sources alone. */
  lemma {:induction false} OnlySourcesMatter(files: seq<string>, compile: bool, optimize: bool, extension: string -> string, cache: (string, bool) -> string)
    ensures BytecodeNames(files, compile, optimize, extension, cache) ==
      BytecodeNames(PythonSources(files, extension), compile, optimize, extension, cache)
  {
    if files != [] {
      var init, last := files[..|files| - 1], files[|files| - 1];
      OnlySourcesMatter(init, compile, optimize, extension, cache);
      var sources := PythonSources(init, extension);
      if extension(last) == PythonSourceExtension {
        assert (sources + [last])[..|sources + [last]| - 1] == sources;
        assert (sources + [last])[|sources + [last]| - 1] == last;
      } else {
        assert PythonSources(files, extension) == sources + [] == sources;
        assert BytecodeNames(files, compile, optimize, extension, cache) ==
          BytecodeNames(init, compile, optimize, extension, cache) + [] ==
          BytecodeNames(init, compile, optimize, extension, cache);
      }
    }
  }

  /**
   * The files an installation into `dir` produces: the re-rooted pure-module
   * outputs, then their bytecode names when `compile` is on, then the
   * re-rooted extension outputs.
   */
  function InstalledFiles(dir: string, compile: bool, optimize: bool, dist: Distribution, buildPy: BuildCommand, buildExt: BuildCommand,
                          sep: string, join: (string, string) -> string, extension: string -> string, cache: (string, bool) -> string): seq<string>
  {
    var pureOutputs := MutatedOutputs(dist.hasPureModules, buildPy, sep, dir, join);
    var bytecodeOutputs := if compile then BytecodeNames(pureOutputs, compile, optimize, extension, cache) else [];
    pureOutputs + bytecodeOutputs + MutatedOutputs(dist.hasExtModules, buildExt, sep, dir, join)
  }

  /** The options and list-building steps of one `install_lib` command object. */
  class InstallLib {
    var installDir: Option<string>
    var buildDir: Option<string>
    var force: bool
    var compile: Option<bool>
    var optimize: OptimizeValue
    var skipBuild: Option<bool>

    /** `initialize_options`, run when the command object is created: every option unset, `force` off. */
    constructor ()
      ensures installDir == None && buildDir == None && compile == None && optimize == Unset && skipBuild == None
      ensures !force
    {
      installDir := None;
      buildDir := None;
      force := false;
      compile := None;
      optimize := Unset;
      skipBuild := None;
    }

    /**
     * `finalize_options`: unset options are taken from `install_dist`
     * (`force` is never unset, so it keeps its value); `compile` then defaults
     * to true, and `optimize` is normalised by `CheckOptimize`. A rejected
     * `optimize` raises PackagingOptionError after the fields were updated.
     */
    method FinalizeOptions(dist: InstallDistOptions, parseInt: string -> Option<int>) returns (outcome: FinalizeOutcome)
      modifies this
      ensures buildDir == FillUnset(old(buildDir), dist.buildLib)
      ensures installDir == FillUnset(old(installDir), dist.installLib)
      ensures skipBuild == FillUnset(old(skipBuild), dist.skipBuild)
      ensures force == old(force)
      ensures compile == Some(FillUnset(old(compile), dist.compile).GetOr(true))
      ensures var check := CheckOptimize(if old(optimize).Unset? then dist.optimize else old(optimize), parseInt);
        optimize == check.value && (outcome == if check.accepted then Finalized else OptionError(OptimizeErrorMessage))
    {
      // set_undefined_options('install_dist', ...)
      buildDir := FillUnset(buildDir, dist.buildLib);
      installDir := FillUnset(installDir, dist.installLib);
      compile := FillUnset(compile, dist.compile);
      if optimize.Unset? { optimize := dist.optimize; }
      skipBuild := FillUnset(skipBuild, dist.skipBuild);
      ghost var requested := optimize;
      ghost var check := CheckOptimize(requested, parseInt);

      if compile.None? { compile := Some(true); }
      if optimize.Unset? { optimize := Int(0); }

      outcome := Finalized;
      if !optimize.Int? {
        var parsed := parseInt(optimize.s);
        if parsed.None? {
          outcome := OptionError(OptimizeErrorMessage);
        } else {
          optimize := Int(parsed.value);
          if !(optimize.n == 0 || optimize.n == 1 || optimize.n == 2) {
            outcome := OptionError(OptimizeErrorMessage);
          }
        }
      }
      assert optimize == check.value && outcome == if check.accepted then Finalized else OptionError(OptimizeErrorMessage);
    }

    /** `_mutate_outputs`: the outputs of a build command re-rooted under `outputDir`. */
    method MutateOutputs(hasAny: bool, build: BuildCommand, sep: string, outputDir: string, join: (string, string) -> string)
      returns (outputs: seq<string>)
      ensures outputs == MutatedOutputs(hasAny, build, sep, outputDir, join)
    {
      if !hasAny {
        return [];
      }
      var prefixLen := |build.buildLib| + |sep|;
      outputs := [];
      for i := 0 to |build.outputs|
        invariant outputs == Rerooted(build.outputs[..i], prefixLen, outputDir, join)
      {
        assert build.outputs[..i + 1][..i] == build.outputs[..i];
        outputs := outputs + [join(outputDir, SliceFrom(build.outputs[i], prefixLen))];
      }
      assert build.outputs[..|build.outputs|] == build.outputs;
    }

    /** `_bytecode_filenames`: the bytecode names of the Python sources among `pyFilenames`, as `compile` and `optimize` ask. */
    method BytecodeFilenames(pyFilenames: seq<string>, extension: string -> string, cache: (string, bool) -> string)
      returns (bytecodeFiles: seq<string>)
      ensures bytecodeFiles == BytecodeNames(pyFilenames, CompileTruthy(compile), OptimizeTruthy(optimize), extension, cache)
    {
      bytecodeFiles := [];
      for i := 0 to |pyFilenames|
        invariant bytecodeFiles == BytecodeNames(pyFilenames[..i], CompileTruthy(compile), OptimizeTruthy(optimize), extension, cache)
      {
        assert pyFilenames[..i + 1][..i] == pyFilenames[..i];
        var pyFile := pyFilenames[i];
        if extension(pyFile) != PythonSourceExtension {
          continue;
        }
        if CompileTruthy(compile) {
          bytecodeFiles := bytecodeFiles + [cache(pyFile, true)];
        }
        if OptimizeTruthy(optimize) {
          bytecodeFiles := bytecodeFiles + [cache(pyFile, false)];
        }
      }
      assert pyFilenames[..|pyFilenames|] == pyFilenames;
    }

    /** `get_outputs`: re-rooted pure-module outputs, then their bytecode names when `compile` is set, then re-rooted extension outputs. */
    function GetOutputs(dist: Distribution, buildPy: BuildCommand, buildExt: BuildCommand, sep: string,
                        join: (string, string) -> string, extension: string -> string, cache: (string, bool) -> string): seq<string>
      reads this
      requires installDir.Some?
    {
      InstalledFiles(installDir.value, CompileTruthy(compile), OptimizeTruthy(optimize), dist, buildPy, buildExt, sep, join, extension, cache)
    }

    /** `get_inputs`: the outputs of `build_py` if there are pure modules, then those of `build_ext` if there are extension modules. */
    function GetInputs(dist: Distribution, buildPy: BuildCommand, buildExt: BuildCommand): seq<string>
    {
      Reported(dist.hasPureModules, buildPy) + Reported(dist.hasExtModules, buildExt)
    }
  }

  /**
   * `outs` has at least as many entries as `ins`; its first `nFirst` entries
   * are the first `nFirst` inputs re-rooted under `dir` with `cut1` characters
   * cut off, and its last `|ins| - nFirst` entries are the remaining inputs,
   * in order, re-rooted with `cut2` characters cut off.
   */
  predicate FollowsInputs(ins: seq<string>, outs: seq<string>, nFirst: nat, dir: string, join: (string, string) -> string, cut1: nat, cut2: nat)
  {
    && nFirst <= |ins| <= |outs|
    && (forall i :: 0 <= i < nFirst ==> outs[i] == join(dir, SliceFrom(ins[i], cut1)))
    && (forall j :: nFirst + |outs| - |ins| <= j < |outs| ==> outs[j] == join(dir, SliceFrom(ins[j - (|outs| - |ins|)], cut2)))
  }

  /**
   * `get_outputs` against `get_inputs`: the first and last parts of the
   * outputs are the inputs, one for one and in order, re-rooted under the
   * install directory; what lies between them is counted by `BytecodeOutputCount`.
   */
  lemma OutputsFollowInputs(lib: InstallLib, dist: Distribution, buildPy: BuildCommand, buildExt: BuildCommand, sep: string,
                            join: (string, string) -> string, extension: string -> string, cache: (string, bool) -> string)
    requires lib.installDir.Some?
    ensures FollowsInputs(lib.GetInputs(dist, buildPy, buildExt), lib.GetOutputs(dist, buildPy, buildExt, sep, join, extension, cache),
                          |Reported(dist.hasPureModules, buildPy)|, lib.installDir.value, join, |buildPy.buildLib| + |sep|, |buildExt.buildLib| + |sep|)
  {
    FilesFollowInputs(lib.installDir.value, CompileTruthy(lib.compile), OptimizeTruthy(lib.optimize), dist, buildPy, buildExt, sep, join, extension, cache);
  }

  /** `OutputsFollowInputs` for an installation into `dir` with the given `compile` and `optimize` settings. */
  lemma FilesFollowInputs(dir: string, compile: bool, optimize: bool, dist: Distribution, buildPy: BuildCommand, buildExt: BuildCommand,
                          sep: string, join: (string, string) -> string, extension: string -> string, cache: (string, bool) -> string)
    ensures FollowsInputs(Reported(dist.hasPureModules, buildPy) + Reported(dist.hasExtModules, buildExt),
                          InstalledFiles(dir, compile, optimize, dist, buildPy, buildExt, sep, join, extension, cache),
                          |Reported(dist.hasPureModules, buildPy)|, dir, join, |buildPy.buildLib| + |sep|, |buildExt.buildLib| + |sep|)
  {
    var pureOutputs := MutatedOutputs(dist.hasPureModules, buildPy, sep, dir, join);
    Correspond(dist, buildPy, buildExt, sep, dir, join, if compile then BytecodeNames(pureOutputs, compile, optimize, extension, cache) else []);
  }

  /**
   * `get_outputs` lists as many names beyond `get_inputs` as there are
   * bytecode names: one per enabled flag and Python source among the
   * re-rooted pure-module outputs when `compile` is set, none otherwise. So
   * the two lists correspond one to one exactly when no bytecode name is listed.
   */
  lemma BytecodeOutputCount(lib: InstallLib, dist: Distribution, buildPy: BuildCommand, buildExt: BuildCommand, sep: string,
                            join: (string, string) -> string, extension: string -> string, cache: (string, bool) -> string)
    requires lib.installDir.Some?
    ensures
      var ins := lib.GetInputs(dist, buildPy, buildExt);
      var outs := lib.GetOutputs(dist, buildPy, buildExt, sep, join, extension, cache);
      var nPure := |Reported(dist.hasPureModules, buildPy)|;
      |outs| - |ins| == if CompileTruthy(lib.compile)
                        then (1 + Count(OptimizeTruthy(lib.optimize))) * |PythonSources(outs[..nPure], extension)|
                        else 0
  {
    FilesBytecodeCount(lib.installDir.value, CompileTruthy(lib.compile), OptimizeTruthy(lib.optimize), dist, buildPy, buildExt, sep, join, extension, cache);
  }

  /** `BytecodeOutputCount` for an installation into `dir` with the given `compile` and `optimize` settings. */
  lemma FilesBytecodeCount(dir: string, compile: bool, optimize: bool, dist: Distribution, buildPy: BuildCommand, buildExt: BuildCommand,
                           sep: string, join: (string, string) -> string, extension: string -> string, cache: (string, bool) -> string)
    ensures
      var outs := InstalledFiles(dir, compile, optimize, dist, buildPy, buildExt, sep, join, extension, cache);
      var nPure := |Reported(dist.hasPureModules, buildPy)|;
      |outs| - |Reported(dist.hasPureModules, buildPy) + Reported(dist.hasExtModules, buildExt)| ==
        if compile then (1 + Count(optimize)) * |PythonSources(outs[..nPure], extension)| else 0
  {
    var pureOutputs := MutatedOutputs(dist.hasPureModules, buildPy, sep, dir, join);
    var bytecode := if compile then BytecodeNames(pureOutputs, compile, optimize, extension, cache) else [];
    var extOutputs := MutatedOutputs(dist.hasExtModules, buildExt, sep, dir, join);
    assert (pureOutputs + bytecode + extOutputs)[..|pureOutputs|] == pureOutputs;
    BytecodeCount(pureOutputs, compile, optimize, extension, cache);
  }

  /** With `compile` off, `get_outputs` lists no bytecode names at all, whatever `optimize` says. */
  lemma NoCompileNoBytecode(lib: InstallLib, dist: Distribution, buildPy: BuildCommand, buildExt: BuildCommand, sep: string,
                            join: (string, string) -> string, extension: string -> string, cache: (string, bool) -> string)
    requires lib.installDir.Some? && !CompileTruthy(lib.compile)
    ensures lib.GetOutputs(dist, buildPy, buildExt, sep, join, extension, cache) ==
      MutatedOutputs(dist.hasPureModules, buildPy, sep, lib.installDir.value, join) +
      MutatedOutputs(dist.hasExtModules, buildExt, sep, lib.installDir.value, join)
  {
  }

  /**
   * The re-rooted pure-module outputs, then any list `mid`, then the re-rooted
   * extension outputs follow the pure-module and extension inputs.
   */
  lemma Correspond(dist: Distribution, buildPy: BuildCommand, buildExt: BuildCommand, sep: string,
                   dir: string, join: (string, string) -> string, mid: seq<string>)
    ensures FollowsInputs(Reported(dist.hasPureModules, buildPy) + Reported(dist.hasExtModules, buildExt),
                          MutatedOutputs(dist.hasPureModules, buildPy, sep, dir, join) + mid + MutatedOutputs(dist.hasExtModules, buildExt, sep, dir, join),
                          |Reported(dist.hasPureModules, buildPy)|, dir, join, |buildPy.buildLib| + |sep|, |buildExt.buildLib| + |sep|)
  {
    ConcatFollows(Reported(dist.hasPureModules, buildPy), Reported(dist.hasExtModules, buildExt),
                  MutatedOutputs(dist.hasPureModules, buildPy, sep, dir, join), mid, MutatedOutputs(dist.hasExtModules, buildExt, sep, dir, join),
                  dir, join, |buildPy.buildLib| + |sep|, |buildExt.buildLib| + |sep|);
  }

  /** Two lists re-rooted element by element, with `mid` inserted between the re-rooted lists, follow the two lists. */
  lemma ConcatFollows(ins1: seq<string>, ins2: seq<string>, outs1: seq<string>, mid: seq<string>, outs2: seq<string>,
                      dir: string, join: (string, string) -> string, cut1: nat, cut2: nat)
    requires |outs1| == |ins1| && |outs2| == |ins2|
    requires forall i :: 0 <= i < |ins1| ==> outs1[i] == join(dir, SliceFrom(ins1[i], cut1))
    requires forall i :: 0 <= i < |ins2| ==> outs2[i] == join(dir, SliceFrom(ins2[i], cut2))
    ensures FollowsInputs(ins1 + ins2, outs1 + mid + outs2, |ins1|, dir, join, cut1, cut2)
  {
    var ins, outs := ins1 + ins2, outs1 + mid + outs2;
    forall j | |ins1| + |outs| - |ins| <= j < |outs|
      ensures outs[j] == join(dir, SliceFrom(ins[j - (|outs| - |ins|)], cut2))
    {
      assert outs[j] == outs2[j - |ins1| - |mid|];
      assert ins[j - (|outs| - |ins|)] == ins2[j - |ins1| - |mid|];
    }
  }

  /**
   * The names `get_outputs` lists between the re-rooted pure-module outputs and
   * the extension outputs are bytecode names of the re-rooted Python sources.
   */
  lemma BytecodeOutputsNamePureSources(lib: InstallLib, dist: Distribution, buildPy: BuildCommand, buildExt: BuildCommand, sep: string,
                                       join: (string, string) -> string, extension: string -> string, cache: (string, bool) -> string, i: int)
    requires lib.installDir.Some?
    requires
      var outs := lib.GetOutputs(dist, buildPy, buildExt, sep, join, extension, cache);
      |Reported(dist.hasPureModules, buildPy)| <= i < |outs| - |Reported(dist.hasExtModules, buildExt)|
    ensures
      var outs := lib.GetOutputs(dist, buildPy, buildExt, sep, join, extension, cache);
      var nPure := |Reported(dist.hasPureModules, buildPy)|;
      && CompileTruthy(lib.compile)
      && exists f :: f in outs[..nPure] && extension(f) == PythonSourceExtension &&
           (outs[i] == cache(f, true) || (OptimizeTruthy(lib.optimize) && outs[i] == cache(f, false)))
  {
    var dir := lib.installDir.value;
    var pureOutputs := MutatedOutputs(dist.hasPureModules, buildPy, sep, dir, join);
    var nPure := |pureOutputs|;
    var outs := lib.GetOutputs(dist, buildPy, buildExt, sep, join, extension, cache);
    var bytecode := BytecodeNames(pureOutputs, CompileTruthy(lib.compile), OptimizeTruthy(lib.optimize), extension, cache);
    assert outs[..nPure] == pureOutputs;
    assert CompileTruthy(lib.compile);
    assert outs[i] == bytecode[i - nPure];
    BytecodeMembership(pureOutputs, CompileTruthy(lib.compile), OptimizeTruthy(lib.optimize), extension, cache, outs[i]);
  }
}
