/** The preprocessor job of data-ingestion/preprocessor.py: fetch a build of the
    preprocessing tool from the object store, stage and extract it, then run
    the tool's entry script on an application's binaries with the bundled Java
    runtime first on the search path, and record the job's outcome.

    The object store, the shell, the tool itself and the helpers of the
    worker package are oracles: their answers are parameters. The process
    state they act on (environment, working directory, files, directories) is
    the class `Host`; the job's own state is the class `Preprocessor`. */
module PreprocessorJob {
  import opened Text
  import opened Options

  type Bytes = seq<bv8>

  /** The marker `get_preproc_path` searches for and strips (line 126). */
  const JarMarker := "/lib/preprocessor.jar"

  /** The entry script run from the tool root (line 180). */
  const ToolScript := "./PreflightPreprocessor.sh"

  /** The three flags of the command line, in their fixed order (lines 181-183). */
  const RootFlag := "--app_binary_root"
  const OutputFlag := "--output_file_path"
  const EnvFlag := "--environments_path"

  /** `os.pathsep` on POSIX. */
  const PathSep := ":"

  // ---------------------------------------------------------------------------
  // Errors and oracle answers
  // ---------------------------------------------------------------------------

  /** Every assertion or exception that ends an operation early. */
  datatype Failure =
    | ScsNotImplemented      // line 55
    | OutdirNotDir           // line 58
    | SuffixConflict         // lines 62, 65
    | StagedFileMissing      // line 67
    | StagingEmpty           // line 93
    | ToolRootNotDir         // line 129
    | PreprocPathNotDir      // line 140
    | BinaryPathMissing      // line 144, an Exception rather than an assertion
    | JavaMissing            // line 151
    | BinaryRootMissing      // line 157, None or missing key
    | BinaryRootNotDir       // line 158
    | MainFilesNotList       // line 159, not a list or missing key
    | EnvDirEmpty            // line 160, falsy or missing key
    | PathUnset              // line 199, KeyError on os.environ['PATH']

  datatype Result<T> = Ok(value: T) | Err(failure: Failure)

  /** What `s3_bucket` did: the name of the file it stored, and the files it wrote. */
  datatype StoreReply = StoreReply(found: string, written: map<string, Bytes>)

  /** What happened inside the protected region of lines 201-230: the tool
      exited with a code, leaving the files as `after`; or an exception escaped
      before the tool ran; or the tool exited with 0, leaving `after`, and an
      exception escaped later, either at or before the write-back of line 216
      (`pastRestore` false) or after it, in the output search (`pastRestore`
      true). */
  datatype ToolRun =
    | Exited(code: int, after: map<string, Bytes>)
    | Threw
    | ExitedThenThrew(after: map<string, Bytes>, pastRestore: bool)

  /** How the tool was invoked: the command line, the search path it saw, and
      the directory it ran in. */
  datatype ToolCall = ToolCall(command: string, searchPath: string, workDir: string)

  datatype SubmitOutcome =
    | Refused(failure: Failure)                      // nothing was run
    | Interrupted(call: ToolCall)                    // exception inside the try, before the tool ran
    | InterruptedAfterRun(call: ToolCall)            // exception inside the try, after a successful run
    | ToolFailed(call: ToolCall)                     // non-zero exit code
    | Completed(call: ToolCall, searchedOutputs: bool)

  datatype JobStatus = Ready | Failed | Finished

  datatype Extractor = Unzip | Untar | NoExtractor

  datatype MainFiles = FileList(names: seq<string>) | NotAList

  /** The request dictionary passed to `submit_preflight`. A key missing from
      the dictionary is modelled as its `None` (or `NotAList`) value: the
      source then raises `KeyError` at lines 157, 159 or 160 instead of the
      assertion's `AssertionError`, at the same line and before any change,
      and both are reported here under the same `Failure`. */
  datatype RequestInfo = RequestInfo(binaryRoot: Option<string>, mainBinaryFiles: MainFiles, envDir: Option<string>)

  /** The tuple returned by `get_preflight_paths`. */
  datatype PreflightPaths = PreflightPaths(binaryRoot: string, compileXml: string, javaBin: string)

  // ---------------------------------------------------------------------------
  // Paths
  // ---------------------------------------------------------------------------

  /** `os.path.join(a, b)` for two components. */
  function PathJoin(a: string, b: string): string {
    if StartsWith(b, "/") then b
    else if a == [] || EndsWith(a, "/") then a + b
    else a + "/" + b
  }

  /** `os.path.isdir(p)` with `cwd` as the working directory: a relative path
      is looked up below it, and the empty path is never a directory. */
  predicate DirAt(dirs: set<string>, cwd: string, p: string) {
    p != [] && PathJoin(cwd, p) in dirs
  }

  /** `os.path.isfile(p)` with `cwd` as the working directory. */
  predicate FileAt(files: map<string, Bytes>, cwd: string, p: string) {
    p != [] && PathJoin(cwd, p) in files
  }

  /** `os.path.exists(p)` with `cwd` as the working directory. */
  predicate ExistsAt(files: map<string, Bytes>, dirs: set<string>, cwd: string, p: string) {
    FileAt(files, cwd, p) || DirAt(dirs, cwd, p)
  }

  /** `p` lies somewhere below directory `d`. */
  predicate Below(p: string, d: string) {
    |p| > |d| + 1 && p[..|d| + 1] == d + "/"
  }

  /** The longest prefix of `s` without a separator: the first component of a
      relative path. */
  function FirstComponent(s: string): (r: string)
    ensures |r| <= |s| && r == s[..|r|] && '/' !in r
    ensures |r| < |s| ==> s[|r|] == '/'
  {
    if s == [] || s[0] == '/' then [] else [s[0]] + FirstComponent(s[1..])
  }

  /** `os.listdir(d)` over a file system whose entries are `paths`: the first
      component below `d` of every entry below `d`, so that a directory holding
      only nested entries is listed by its subdirectories. */
  function Listing(paths: set<string>, d: string): set<string> {
    set p | p in paths && Below(p, d) :: FirstComponent(p[|d| + 1..])
  }

  /** A directory lists as empty exactly when nothing lies below it. */
  lemma ListingEmpty(paths: set<string>, d: string)
    ensures Listing(paths, d) == {} <==> forall p <- paths :: !Below(p, d)
  {
    if p :| p in paths && Below(p, d) {
      assert FirstComponent(p[|d| + 1..]) in Listing(paths, d);
    }
  }

  /** An entry `d/name/...` puts `name` in the listing of `d`, however deep
      below `name` it lies. */
  lemma NestedEntryListed(paths: set<string>, d: string, name: string, rest: string)
    requires d + "/" + name + rest in paths
    requires name != [] && '/' !in name && (rest == [] || rest[0] == '/')
    ensures name in Listing(paths, d)
  {
    var p := d + "/" + name + rest;
    assert p[..|d| + 1] == d + "/";
    assert p[|d| + 1..] == name + rest;
    FirstComponentOf(name, rest);
  }

  lemma {:induction false} FirstComponentOf(name: string, rest: string)
    requires '/' !in name && (rest == [] || rest[0] == '/')
    ensures FirstComponent(name + rest) == name
    decreases |name|
  {
    if name != [] {
      assert name[0] in name;
      assert (name + rest)[1..] == name[1..] + rest;
      assert forall c :: c in name[1..] ==> c in name;
      FirstComponentOf(name[1..], rest);
    } else {
      assert name + rest == rest;
    }
  }

  /** Joining a relative name without whitespace onto a path without
      whitespace gives a path without whitespace. */
  lemma PathJoinNoSpace(a: string, b: string)
    requires NoSpace(a) && NoSpace(b) && b != []
    ensures PathJoin(a, b) != [] && NoSpace(PathJoin(a, b))
  {
    var r := PathJoin(a, b);
    if !StartsWith(b, "/") && !(a == [] || EndsWith(a, "/")) {
      assert r == a + ("/" + b);
      assert forall i :: 0 <= i < |r| ==> r[i] == if i < |a| then a[i] else if i == |a| then '/' else b[i - |a| - 1];
    }
  }

  // ---------------------------------------------------------------------------
  // Extra arguments (lines 33-37)
  // ---------------------------------------------------------------------------

  /** `s[1:-1]` when `s[0] == s[-1] == '"'`, else `s`. */
  function Unquote(s: string): string {
    if s != [] && s[0] == '"' && s[|s| - 1] == '"' then
      (if |s| == 1 then [] else s[1..|s| - 1])
    else s
  }

  /** The quotes come off only when they stand at both ends. */
  lemma UnquoteShape(s: string)
    ensures |s| >= 2 && s[0] == '"' && s[|s| - 1] == '"' ==> "\"" + Unquote(s) + "\"" == s
    ensures (s == [] || s[0] != '"' || s[|s| - 1] != '"') ==> Unquote(s) == s
  {
    if |s| >= 2 && s[0] == '"' && s[|s| - 1] == '"' {
      assert s == [s[0]] + s[1..|s| - 1] + [s[|s| - 1]];
    }
  }

  /** The argument list `__init__` derives from the extra-argument string. */
  function NormaliseExtraArgs(arg: Option<string>): (args: seq<string>)
    ensures arg.None? || arg.value == [] ==> args == []
    ensures forall a <- args :: a != [] && NoSpace(a)
  {
    if arg.None? || arg.value == [] then []
    else
      var t := ReplaceAll(Unquote(arg.value), "\\\"", "\"");
      if t == [] then [] else Words(Strip(t))
  }

  /** Normalising drops the surrounding quotes, turns each `\"` into `"` and
      then loses only whitespace: the tokens, concatenated, are that text with
      its whitespace removed. */
  lemma ExtraArgsKeepText(s: string)
    requires s != []
    ensures Concat(NormaliseExtraArgs(Some(s))) == Squeeze(ReplaceAll(Unquote(s), "\\\"", "\""))
  {
    var t := ReplaceAll(Unquote(s), "\\\"", "\"");
    if t != [] {
      WordsOfStrip(t);
      WordsKeepText(t);
    }
  }

  // ---------------------------------------------------------------------------
  // Archive name and extraction dispatch (lines 59-75)
  // ---------------------------------------------------------------------------

  /** The staged archive name derived from the requested name and the name the
      store reports; `None` is the assertion failure on a conflicting suffix. */
  function ArchiveName(requested: string, found: string): Option<string> {
    if EndsWith(found, ".tar.gz") && !EndsWith(requested, ".tar.gz") then
      if EndsWith(requested, ".zip") then None else Some(requested + ".tar.gz")
    else if EndsWith(found, ".zip") && !EndsWith(requested, ".zip") then
      if EndsWith(requested, ".tar.gz") then None else Some(requested + ".zip")
    else Some(requested)
  }

  /** No name ends in both archive suffixes. */
  lemma SuffixesExclusive(s: string)
    ensures !(EndsWith(s, ".tar.gz") && EndsWith(s, ".zip"))
  {
    if EndsWith(s, ".tar.gz") {
      assert s[|s| - 1] == ".tar.gz"[6];
    }
    if EndsWith(s, ".zip") {
      assert s[|s| - 1] == ".zip"[3];
    }
  }

  lemma AppendedSuffix(s: string, suffix: string)
    ensures EndsWith(s + suffix, suffix)
  {
    assert (s + suffix)[|s + suffix| - |suffix|..] == suffix;
  }

  /** `outname` as lines 59-66 rebuild it: at most one suffix is appended, the
      one the store's file carries. */
  method InferArchiveName(outname: string, found: string) returns (r: Option<string>)
    ensures r == ArchiveName(outname, found)
  {
    SuffixesExclusive(found);
    var name := outname;
    if EndsWith(found, ".tar.gz") && !EndsWith(name, ".tar.gz") {
      if EndsWith(name, ".zip") {
        return None;
      }
      name := name + ".tar.gz";
      AppendedSuffix(outname, ".tar.gz");
    }
    if EndsWith(found, ".zip") && !EndsWith(name, ".zip") {
      if EndsWith(name, ".tar.gz") {
        return None;
      }
      name := name + ".zip";
    }
    return Some(name);
  }

  /** What the archive name promises: the store's suffix is appended exactly
      when the requested name lacks it, a name carrying the other suffix is
      refused, and a name that already fits is kept. Either way the staged
      name ends in the suffix of the file the store returned. */
  lemma ArchiveNameSpec(requested: string, found: string)
    ensures EndsWith(found, ".tar.gz") && !EndsWith(requested, ".tar.gz") && !EndsWith(requested, ".zip")
      ==> ArchiveName(requested, found) == Some(requested + ".tar.gz")
    ensures EndsWith(found, ".zip") && !EndsWith(requested, ".zip") && !EndsWith(requested, ".tar.gz")
      ==> ArchiveName(requested, found) == Some(requested + ".zip")
    ensures ArchiveName(requested, found).None? <==>
      ((EndsWith(found, ".tar.gz") && EndsWith(requested, ".zip")) ||
       (EndsWith(found, ".zip") && EndsWith(requested, ".tar.gz")))
    ensures (!EndsWith(found, ".tar.gz") && !EndsWith(found, ".zip")) ||
            (EndsWith(found, ".tar.gz") && EndsWith(requested, ".tar.gz")) ||
            (EndsWith(found, ".zip") && EndsWith(requested, ".zip"))
      ==> ArchiveName(requested, found) == Some(requested)
    ensures ArchiveName(requested, found).Some? && EndsWith(found, ".tar.gz")
      ==> EndsWith(ArchiveName(requested, found).value, ".tar.gz")
    ensures ArchiveName(requested, found).Some? && EndsWith(found, ".zip")
      ==> EndsWith(ArchiveName(requested, found).value, ".zip")
  {
    SuffixesExclusive(found);
    SuffixesExclusive(requested);
    AppendedSuffix(requested, ".tar.gz");
    AppendedSuffix(requested, ".zip");
  }

  /** Lines 70-75: the extractor is picked by the bare ending "zip" (no dot
      needed), then "tar.gz"; anything else is only logged. */
  function ExtractorFor(name: string): Extractor {
    if EndsWith(name, "zip") then Unzip
    else if EndsWith(name, "tar.gz") then Untar
    else NoExtractor
  }

  lemma DottedSuffix(s: string)
    ensures EndsWith(s, ".zip") ==> EndsWith(s, "zip")
    ensures EndsWith(s, ".tar.gz") ==> EndsWith(s, "tar.gz")
    ensures EndsWith(s, ".tar.gz") ==> !EndsWith(s, "zip")
  {
    if EndsWith(s, ".zip") {
      assert s[|s| - 3..] == s[|s| - 4..][1..];
    }
    if EndsWith(s, ".tar.gz") {
      assert s[|s| - 6..] == s[|s| - 7..][1..];
      assert s[|s| - 1] == 'z';
    }
  }

  /** Dispatch follows the store: a staged zip is unzipped, a staged tarball is
      untarred, and a name without either suffix is extracted only if it
      happens to end in "zip" or "tar.gz" undotted. */
  lemma DispatchFollowsStore(requested: string, found: string)
    requires ArchiveName(requested, found).Some?
    ensures EndsWith(found, ".zip") ==> ExtractorFor(ArchiveName(requested, found).value) == Unzip
    ensures EndsWith(found, ".tar.gz") ==> ExtractorFor(ArchiveName(requested, found).value) == Untar
    ensures !EndsWith(found, ".zip") && !EndsWith(found, ".tar.gz") ==>
      ExtractorFor(ArchiveName(requested, found).value) == ExtractorFor(requested)
  {
    ArchiveNameSpec(requested, found);
    DottedSuffix(ArchiveName(requested, found).value);
  }

  lemma UndottedZipIsUnzipped()
    ensures ExtractorFor("buildzip") == Unzip
    ensures ExtractorFor("build.tgz") == NoExtractor
  {
    assert "buildzip"[5..] == "zip";
    assert "build.tgz"[6..] != "zip";
    assert "build.tgz"[3..] != "tar.gz";
  }

  /** `outname` after line 59 and the suffix repair of lines 61-66. */
  function StagedName(cwd: string, outname: string, found: string): Option<string> {
    ArchiveName(PathJoin(cwd, outname), found)
  }

  /** The staging checks of lines 55-67 in their order: the staged archive's
      name, or the first check that fails. `files` is the file system after
      the download. */
  function Stage(files: map<string, Bytes>, dirs: set<string>, cwd: string, outname: string,
                 outdir: string, isScs: bool, found: string): Result<string>
  {
    if isScs then Err(ScsNotImplemented)
    else if !DirAt(dirs, cwd, outdir) then Err(OutdirNotDir)
    else
      var staged := StagedName(cwd, outname, found);
      if staged.None? then Err(SuffixConflict)
      else if !FileAt(files, cwd, staged.value) then Err(StagedFileMissing)
      else Ok(staged.value)
  }

  /** Each staging failure, stated as the condition that causes it; staging
      succeeds exactly when the staged archive is a file, and yields its name. */
  lemma StageSpec(files: map<string, Bytes>, dirs: set<string>, cwd: string, outname: string,
                  outdir: string, isScs: bool, found: string)
    ensures Stage(files, dirs, cwd, outname, outdir, isScs, found) == Err(ScsNotImplemented) <==> isScs
    ensures Stage(files, dirs, cwd, outname, outdir, isScs, found) == Err(OutdirNotDir) <==>
      !isScs && !DirAt(dirs, cwd, outdir)
    ensures Stage(files, dirs, cwd, outname, outdir, isScs, found) == Err(SuffixConflict) <==>
      !isScs && DirAt(dirs, cwd, outdir) && StagedName(cwd, outname, found).None?
    ensures Stage(files, dirs, cwd, outname, outdir, isScs, found) == Err(StagedFileMissing) <==>
      !isScs && DirAt(dirs, cwd, outdir) && StagedName(cwd, outname, found).Some? &&
      !FileAt(files, cwd, StagedName(cwd, outname, found).value)
    ensures Stage(files, dirs, cwd, outname, outdir, isScs, found).Ok? <==>
      !isScs && DirAt(dirs, cwd, outdir) && StagedName(cwd, outname, found).Some? &&
      FileAt(files, cwd, StagedName(cwd, outname, found).value)
    ensures Stage(files, dirs, cwd, outname, outdir, isScs, found).Ok? ==>
      Stage(files, dirs, cwd, outname, outdir, isScs, found).value == StagedName(cwd, outname, found).value
  {
  }

  // ---------------------------------------------------------------------------
  // Tool root (lines 123-130)
  // ---------------------------------------------------------------------------

  /** `preproc_jar.replace("/lib/preprocessor.jar", "")`. */
  function ToolRoot(jar: string): string {
    ReplaceAll(jar, JarMarker, "")
  }

  /** The root is shorter than the jar path by exactly the marker's length
      per occurrence of the marker. */
  lemma ToolRootLength(jar: string)
    ensures |ToolRoot(jar)| == |jar| - Occurrences(jar, JarMarker) * |JarMarker|
  {
    ReplaceLength(jar, JarMarker, "");
  }

  /** The usual case: a jar path `<dir>/lib/preprocessor.jar` whose directory
      does not itself hold the marker gives back `<dir>`. */
  lemma ToolRootOfJar(dir: string)
    requires forall i :: 0 <= i < |dir| ==> !StartsWith((dir + JarMarker)[i..], JarMarker)
    ensures ToolRoot(dir + JarMarker) == dir
  {
    ReplaceTrailing(dir, JarMarker, "");
    assert dir + "" == dir;
  }

  /** A path without the marker is its own root. */
  lemma ToolRootWithoutMarker(jar: string)
    requires !Contains(jar, JarMarker)
    ensures ToolRoot(jar) == jar
  {
    ReplaceAbsent(jar, JarMarker, "");
  }

  // ---------------------------------------------------------------------------
  // Preconditions and the command line (lines 157-188)
  // ---------------------------------------------------------------------------

  /** The first of the checks at lines 157-160 that fails, in their order. */
  function PreconditionFailure(dirs: set<string>, cwd: string, req: RequestInfo): Option<Failure> {
    if req.binaryRoot.None? then Some(BinaryRootMissing)
    else if !DirAt(dirs, cwd, req.binaryRoot.value) then Some(BinaryRootNotDir)
    else if req.mainBinaryFiles.NotAList? then Some(MainFilesNotList)
    else if req.envDir.None? || req.envDir.value == [] then Some(EnvDirEmpty)
    else None
  }

  /** The directory the job changes into at line 169: the tool root, resolved
      against the working directory of the call. */
  function ToolDir(cwd: string, foundJar: string): string {
    PathJoin(cwd, ToolRoot(foundJar))
  }

  /** Why `submit_preflight` stops before running the tool, if it does: the
      first failing check of lines 157-160, then line 129 from the original
      directory, then lines 140, 143 and 151 from inside the tool root, then
      the lookup of `PATH` at line 199. */
  function SubmitRefusal(env: map<string, string>, cwd: string, files: map<string, Bytes>, dirs: set<string>,
                         req: RequestInfo, foundJar: string, javaBin: string): Option<Failure>
  {
    var pre := PreconditionFailure(dirs, cwd, req);
    if pre.Some? then pre
    else if !DirAt(dirs, cwd, ToolRoot(foundJar)) then Some(ToolRootNotDir)
    else
      var tool := ToolDir(cwd, foundJar);
      if !DirAt(dirs, tool, ToolRoot(foundJar)) then Some(PreprocPathNotDir)
      else if !ExistsAt(files, dirs, tool, req.binaryRoot.value) then Some(BinaryPathMissing)
      else if !ExistsAt(files, dirs, tool, javaBin) then Some(JavaMissing)
      else if "PATH" !in env then Some(PathUnset)
      else None
  }

  /** Each refusal, stated as the condition that causes it: its own check
      fails and every earlier check passes. The tool runs exactly when all of
      them pass. */
  lemma SubmitRefusalSpec(env: map<string, string>, cwd: string, files: map<string, Bytes>, dirs: set<string>,
                          req: RequestInfo, foundJar: string, javaBin: string)
    ensures SubmitRefusal(env, cwd, files, dirs, req, foundJar, javaBin) == Some(BinaryRootMissing) <==>
      req.binaryRoot.None?
    ensures SubmitRefusal(env, cwd, files, dirs, req, foundJar, javaBin) == Some(BinaryRootNotDir) <==>
      req.binaryRoot.Some? && !DirAt(dirs, cwd, req.binaryRoot.value)
    ensures SubmitRefusal(env, cwd, files, dirs, req, foundJar, javaBin) == Some(MainFilesNotList) <==>
      req.binaryRoot.Some? && DirAt(dirs, cwd, req.binaryRoot.value) && req.mainBinaryFiles.NotAList?
    ensures SubmitRefusal(env, cwd, files, dirs, req, foundJar, javaBin) == Some(EnvDirEmpty) <==>
      req.binaryRoot.Some? && DirAt(dirs, cwd, req.binaryRoot.value) && req.mainBinaryFiles.FileList? &&
      (req.envDir.None? || req.envDir.value == [])
    ensures SubmitRefusal(env, cwd, files, dirs, req, foundJar, javaBin) == Some(ToolRootNotDir) <==>
      PreconditionFailure(dirs, cwd, req).None? && !DirAt(dirs, cwd, ToolRoot(foundJar))
    ensures SubmitRefusal(env, cwd, files, dirs, req, foundJar, javaBin) == Some(PreprocPathNotDir) <==>
      PreconditionFailure(dirs, cwd, req).None? && DirAt(dirs, cwd, ToolRoot(foundJar)) &&
      !DirAt(dirs, ToolDir(cwd, foundJar), ToolRoot(foundJar))
    ensures SubmitRefusal(env, cwd, files, dirs, req, foundJar, javaBin) == Some(BinaryPathMissing) <==>
      PreconditionFailure(dirs, cwd, req).None? && DirAt(dirs, cwd, ToolRoot(foundJar)) &&
      DirAt(dirs, ToolDir(cwd, foundJar), ToolRoot(foundJar)) &&
      !ExistsAt(files, dirs, ToolDir(cwd, foundJar), req.binaryRoot.value)
    ensures SubmitRefusal(env, cwd, files, dirs, req, foundJar, javaBin) == Some(JavaMissing) <==>
      PreconditionFailure(dirs, cwd, req).None? && DirAt(dirs, cwd, ToolRoot(foundJar)) &&
      DirAt(dirs, ToolDir(cwd, foundJar), ToolRoot(foundJar)) &&
      ExistsAt(files, dirs, ToolDir(cwd, foundJar), req.binaryRoot.value) &&
      !ExistsAt(files, dirs, ToolDir(cwd, foundJar), javaBin)
    ensures SubmitRefusal(env, cwd, files, dirs, req, foundJar, javaBin) == Some(PathUnset) <==>
      PreconditionFailure(dirs, cwd, req).None? && DirAt(dirs, cwd, ToolRoot(foundJar)) &&
      DirAt(dirs, ToolDir(cwd, foundJar), ToolRoot(foundJar)) &&
      ExistsAt(files, dirs, ToolDir(cwd, foundJar), req.binaryRoot.value) &&
      ExistsAt(files, dirs, ToolDir(cwd, foundJar), javaBin) && "PATH" !in env
    ensures SubmitRefusal(env, cwd, files, dirs, req, foundJar, javaBin).None? <==>
      req.binaryRoot.Some? && DirAt(dirs, cwd, req.binaryRoot.value) && req.mainBinaryFiles.FileList? &&
      req.envDir.Some? && req.envDir.value != [] &&
      DirAt(dirs, cwd, ToolRoot(foundJar)) &&
      DirAt(dirs, ToolDir(cwd, foundJar), ToolRoot(foundJar)) &&
      ExistsAt(files, dirs, ToolDir(cwd, foundJar), req.binaryRoot.value) &&
      ExistsAt(files, dirs, ToolDir(cwd, foundJar), javaBin) && "PATH" in env
  {
  }

  /** An absolute tool root is found again from inside itself, so line 140
      repeats the check of line 129. */
  lemma AbsoluteToolRoot(dirs: set<string>, cwd: string, foundJar: string)
    requires StartsWith(ToolRoot(foundJar), "/")
    ensures ToolDir(cwd, foundJar) == ToolRoot(foundJar)
    ensures DirAt(dirs, ToolDir(cwd, foundJar), ToolRoot(foundJar)) <==> DirAt(dirs, cwd, ToolRoot(foundJar))
  {
  }

  /** A relative tool root is looked up a second time below itself once the
      job is inside it: a root `tool` under `/w` passes line 129 and fails
      line 140, which looks for `/w/tool/tool`. */
  lemma RelativeToolRootRefused(foundJar: string)
    requires ToolRoot(foundJar) == "tool"
    ensures DirAt({"/w/tool"}, "/w", ToolRoot(foundJar))
    ensures !DirAt({"/w/tool"}, ToolDir("/w", foundJar), ToolRoot(foundJar))
  {
    assert "tool"[..1] != "/" && "/w"[1..] != "/" && "/w/tool"[6..] != "/";
    assert ToolDir("/w", foundJar) == "/w/tool";
    assert PathJoin("/w/tool", "tool") == "/w/tool/tool";
  }

  /** `is_scs` (lines 165-166); computed and handed to `get_preproc_path`,
      which ignores it. */
  function IsScs(storeDir: string, binaryRoot: string): bool {
    Contains(Lower(storeDir), "scs_test_worker") || Contains(Lower(binaryRoot), "scs_test_worker")
  }

  /** The command line of lines 179-188; `verbose` is whether the logger is
      enabled for DEBUG. */
  function PreflightCommand(binaryRoot: string, compileXml: string, envDir: string,
                            extra: seq<string>, verbose: bool): string
  {
    var cmd := CommandHead(binaryRoot, compileXml, envDir) + " " + Join(extra, " ");
    if verbose then cmd else cmd + " > /dev/null 2>&1"
  }

  /** The argument vector the shell sees: the three flags in their fixed order,
      then the extra arguments, then the redirection when not verbose. */
  function PreflightArgv(binaryRoot: string, compileXml: string, envDir: string,
                         extra: seq<string>, verbose: bool): seq<string>
  {
    [ToolScript, RootFlag, binaryRoot, OutputFlag, compileXml, EnvFlag, envDir] + extra + (if verbose then [] else [">", "/dev/null", "2>&1"])
  }

  /** A flag and its value appended to a command line add exactly those two
      words. */
  lemma FlagWords(a: string, flag: string, value: string)
    requires flag != [] && NoSpace(flag) && value != [] && NoSpace(value)
    ensures Words(a + (" " + flag + " ") + value) == Words(a) + [flag, value]
  {
    assert a + (" " + flag + " ") + value == (a + (" " + flag)) + (" " + value);
    WordsAppendWord(a, flag);
    WordsAppendWord(a + (" " + flag), value);
  }

  /** The redirection appended when DEBUG logging is off is three words. */
  lemma RedirectWords(a: string, redirect: string)
    requires redirect == " > /dev/null 2>&1"
    ensures Words(a + redirect) == Words(a) + [">", "/dev/null", "2>&1"]
  {
    var x, y, z := ">", "/dev/null", "2>&1";
    assert redirect == (" " + x) + (" " + y) + (" " + z);
    assert a + redirect == ((a + (" " + x)) + (" " + y)) + (" " + z);
    assert NoSpace(x) && NoSpace(y) && NoSpace(z);
    WordsAppendWord(a, x);
    WordsAppendWord(a + (" " + x), y);
    WordsAppendWord((a + (" " + x)) + (" " + y), z);
  }

  /** The script and its three flags, before the extra arguments. */
  function CommandHead(binaryRoot: string, compileXml: string, envDir: string): string {
    ToolScript + " " +
      (" " + RootFlag + " ") + binaryRoot +
      (" " + OutputFlag + " ") + compileXml +
      (" " + EnvFlag + " ") + envDir
  }

  /** A word, a space, then three flags with their values: seven words. */
  lemma {:induction false} FlagsWords(w: string, f1: string, v1: string, f2: string, v2: string,
                                      f3: string, v3: string)
    requires w != [] && NoSpace(w)
    requires f1 != [] && NoSpace(f1) && v1 != [] && NoSpace(v1)
    requires f2 != [] && NoSpace(f2) && v2 != [] && NoSpace(v2)
    requires f3 != [] && NoSpace(f3) && v3 != [] && NoSpace(v3)
    ensures Words(w + " " + (" " + f1 + " ") + v1 + (" " + f2 + " ") + v2 + (" " + f3 + " ") + v3)
         == [w, f1, v1, f2, v2, f3, v3]
  {
    var a0 := w + " ";
    var a1 := a0 + (" " + f1 + " ") + v1;
    var a2 := a1 + (" " + f2 + " ") + v2;
    WordThenSpace(w);
    FlagWords(a0, f1, v1);
    FlagWords(a1, f2, v2);
    FlagWords(a2, f3, v3);
  }

  lemma CommandHeadWords(binaryRoot: string, compileXml: string, envDir: string)
    requires binaryRoot != [] && NoSpace(binaryRoot)
    requires compileXml != [] && NoSpace(compileXml)
    requires envDir != [] && NoSpace(envDir)
    ensures Words(CommandHead(binaryRoot, compileXml, envDir))
         == [ToolScript, RootFlag, binaryRoot, OutputFlag, compileXml, EnvFlag, envDir]
  {
    assert NoSpace(ToolScript) && NoSpace(RootFlag) && NoSpace(OutputFlag) && NoSpace(EnvFlag);
    FlagsWords(ToolScript, RootFlag, binaryRoot, OutputFlag, compileXml, EnvFlag, envDir);
  }

  /** Splitting the command line on whitespace gives exactly the argument
      vector, provided the paths hold no whitespace; the extra arguments never
      do, since they come from a whitespace split. */
  lemma CommandWords(binaryRoot: string, compileXml: string, envDir: string,
                     extra: seq<string>, verbose: bool)
    requires binaryRoot != [] && NoSpace(binaryRoot)
    requires compileXml != [] && NoSpace(compileXml)
    requires envDir != [] && NoSpace(envDir)
    requires forall a <- extra :: a != [] && NoSpace(a)
    ensures Words(PreflightCommand(binaryRoot, compileXml, envDir, extra, verbose))
         == PreflightArgv(binaryRoot, compileXml, envDir, extra, verbose)
  {
    var head := CommandHead(binaryRoot, compileXml, envDir);
    var j := Join(extra, " ");
    var cmd := head + " " + j;
    CommandHeadWords(binaryRoot, compileXml, envDir);
    assert cmd == head + (" " + j);
    WordsAppendBeforeSpace(head, " " + j);
    assert (" " + j)[1..] == j;
    WordsOfJoin(extra);
    assert Words(cmd) == Words(head) + extra;
    if !verbose {
      RedirectWords(cmd, " > /dev/null 2>&1");
    }
  }

  // ---------------------------------------------------------------------------
  // The relocated payload (lines 203-216)
  // ---------------------------------------------------------------------------

  /** The bytes read at lines 204-207, if the payload is a file as seen from
      `cwd`. */
  function Captured(files: map<string, Bytes>, cwd: string, appPath: string): Option<Bytes> {
    if FileAt(files, cwd, appPath) then Some(files[PathJoin(cwd, appPath)]) else None
  }

  /** Lines 215-216: the captured bytes are written back only if they are
      non-empty and the tool left no file at the payload's path. */
  function RestorePayload(after: map<string, Bytes>, cwd: string, appPath: string, captured: Option<Bytes>): map<string, Bytes> {
    if captured.Some? && captured.value != [] && !FileAt(after, cwd, appPath) then
      after[PathJoin(cwd, appPath) := captured.value]
    else after
  }

  /** A non-empty payload that the tool removed comes back byte for byte; a
      payload the tool left in place, an empty payload and a payload that was
      never there are not restored; every other path keeps what the tool left. */
  lemma PayloadRestored(before: map<string, Bytes>, after: map<string, Bytes>, cwd: string, appPath: string)
    ensures var target := PathJoin(cwd, appPath);
      FileAt(before, cwd, appPath) && before[target] != [] && !FileAt(after, cwd, appPath) ==>
        RestorePayload(after, cwd, appPath, Captured(before, cwd, appPath)) == after[target := before[target]]
    ensures FileAt(after, cwd, appPath) ==>
      RestorePayload(after, cwd, appPath, Captured(before, cwd, appPath)) == after
    ensures !FileAt(before, cwd, appPath) ==>
      RestorePayload(after, cwd, appPath, Captured(before, cwd, appPath)) == after
    ensures FileAt(before, cwd, appPath) && before[PathJoin(cwd, appPath)] == [] ==>
      RestorePayload(after, cwd, appPath, Captured(before, cwd, appPath)) == after
    ensures forall p :: p != PathJoin(cwd, appPath) ==>
      && (p in RestorePayload(after, cwd, appPath, Captured(before, cwd, appPath)) <==> p in after)
      && (p in after ==> RestorePayload(after, cwd, appPath, Captured(before, cwd, appPath))[p] == after[p])
  {
  }

  /** A change of working directory happened before this failure, and was
      not undone. */
  predicate AfterChdir(f: Failure) {
    f == PreprocPathNotDir || f == BinaryPathMissing || f == JavaMissing || f == PathUnset
  }

  // ---------------------------------------------------------------------------
  // Process state
  // ---------------------------------------------------------------------------

  /** The process-wide state the job reads and changes: `os.environ`, the
      working directory, and the file system (regular files with their bytes,
      and directories). */
  class Host {
    var env: map<string, string>
    var cwd: string
    var files: map<string, Bytes>
    var dirs: set<string>

    constructor (env: map<string, string>, cwd: string, files: map<string, Bytes>, dirs: set<string>)
      ensures this.env == env && this.cwd == cwd && this.files == files && this.dirs == dirs
    {
      this.env := env;
      this.cwd := cwd;
      this.files := files;
      this.dirs := dirs;
    }

    predicate IsFile(p: string) reads this { FileAt(files, cwd, p) }

    predicate IsDir(p: string) reads this { DirAt(dirs, cwd, p) }

    predicate Exists(p: string) reads this { ExistsAt(files, dirs, cwd, p) }

    /** `os.listdir(d)`. */
    function ListDir(d: string): set<string>
      reads this
    {
      Listing(files.Keys + dirs, PathJoin(cwd, d))
    }
  }

  // ---------------------------------------------------------------------------
  // The job
  // ---------------------------------------------------------------------------

  class Preprocessor {
    const branch: string
    const revision: string
    const storeDir: string
    var storeName: string
    /** The companion payload path; caller-supplied (see README). */
    const appPath: string
    var jobStatus: JobStatus
    const extraArgs: seq<string>

    /** `__init__` (lines 26-37); `cwd` is the working directory `abspath`
        resolves against. */
    constructor (branch: string, revision: string, storeDir: string, storeName: string,
                 extraPreprocessorArgs: Option<string>, cwd: string, appPath: string)
      ensures this.branch == branch && this.revision == revision
      ensures this.storeDir == PathJoin(cwd, storeDir) && this.storeName == storeName
      ensures this.appPath == appPath
      ensures jobStatus == Ready
      ensures extraArgs == NormaliseExtraArgs(extraPreprocessorArgs)
    {
      this.branch := branch;
      this.revision := revision;
      this.storeDir := PathJoin(cwd, storeDir);
      this.storeName := storeName;
      this.appPath := appPath;
      jobStatus := Ready;
      extraArgs := NormaliseExtraArgs(extraPreprocessorArgs);
    }

    /** `(branch, revision)`, the pair `__hash__` hashes. */
    function Identity(): (string, string) {
      (branch, revision)
    }

    /** `__eq__` (lines 95-99): equal hashes of the identity pairs; `hash` is
        Python's string-tuple hash, fixed for the process. */
    predicate SameJob(other: Preprocessor, hash: ((string, string)) -> int) {
      hash(Identity()) == hash(other.Identity())
    }

    /** `fetch_and_extract_build` (lines 52-84). `reply` is what `s3_bucket`
        stored; `unpacked` and `unpackedDirs` are the files and directories
        the extracting shell command creates. */
    method FetchAndExtractBuild(host: Host, branch: string, revision: string, outname: string,
                                outdir: string, isScs: bool, reply: StoreReply,
                                unpacked: map<string, Bytes>, unpackedDirs: set<string>)
      returns (r: Result<Extractor>)
      modifies this`storeName, host`files, host`dirs
      ensures r.Err? <==>
        Stage(old(host.files) + reply.written, old(host.dirs), host.cwd, outname, outdir, isScs, reply.found).Err?
      ensures r.Err? ==>
        r.failure == Stage(old(host.files) + reply.written, old(host.dirs), host.cwd, outname, outdir, isScs, reply.found).failure
      ensures r.Err? ==> storeName == old(storeName) && host.dirs == old(host.dirs)
      ensures r == Err(ScsNotImplemented) || r == Err(OutdirNotDir) ==> host.files == old(host.files)
      ensures r == Err(SuffixConflict) || r == Err(StagedFileMissing) ==> host.files == old(host.files) + reply.written
      ensures r.Ok? ==>
        && storeName ==
             Stage(old(host.files) + reply.written, old(host.dirs), host.cwd, outname, outdir, isScs, reply.found).value
        && r.value == ExtractorFor(storeName)
        && host.files == (if r.value == NoExtractor then old(host.files) + reply.written
                          else old(host.files) + reply.written + unpacked)
        && host.dirs == (if r.value == NoExtractor then old(host.dirs) else old(host.dirs) + unpackedDirs)
    {
      if isScs {
        return Err(ScsNotImplemented);
      }
      if !host.IsDir(outdir) {
        return Err(OutdirNotDir);
      }
      var name := PathJoin(host.cwd, outname);
      host.files := host.files + reply.written;
      var staged := InferArchiveName(name, reply.found);
      if staged.None? {
        return Err(SuffixConflict);
      }
      if !host.IsFile(staged.value) {
        return Err(StagedFileMissing);
      }
      storeName := staged.value;
      var extractor := ExtractorFor(storeName);
      if extractor != NoExtractor {
        host.files := host.files + unpacked;
        host.dirs := host.dirs + unpackedDirs;
      }
      return Ok(extractor);
    }

    /** `fetch_and_extract_preprocessor` (lines 86-93): the staging failures
        pass through unchanged; after a successful extraction the store
        directory must list something. On success the staged archive is a
        file and the store directory exists and is not empty. */
    method FetchAndExtractPreprocessor(host: Host, reply: StoreReply, unpacked: map<string, Bytes>,
                                       unpackedDirs: set<string>)
      returns (r: Result<Extractor>)
      modifies this`storeName, host`files, host`dirs
      ensures var staged := Stage(old(host.files) + reply.written, old(host.dirs), host.cwd,
                                  old(storeName), storeDir, false, reply.found);
        staged.Err? ==>
          && r == Err(staged.failure)
          && storeName == old(storeName)
          && host.dirs == old(host.dirs)
          && host.files == (if staged.failure == OutdirNotDir then old(host.files) else old(host.files) + reply.written)
      ensures var staged := Stage(old(host.files) + reply.written, old(host.dirs), host.cwd,
                                  old(storeName), storeDir, false, reply.found);
        staged.Ok? ==>
          && storeName == staged.value
          && (r == Err(StagingEmpty) <==> host.ListDir(storeDir) == {})
          && (r.Ok? ==> r.value == ExtractorFor(storeName))
          && host.files == (if ExtractorFor(storeName) == NoExtractor then old(host.files) + reply.written
                            else old(host.files) + reply.written + unpacked)
          && host.dirs == (if ExtractorFor(storeName) == NoExtractor then old(host.dirs)
                           else old(host.dirs) + unpackedDirs)
      ensures r.Err? ==> r.failure in {OutdirNotDir, SuffixConflict, StagedFileMissing, StagingEmpty}
      ensures r.Ok? ==> host.IsFile(storeName) && host.IsDir(storeDir) && host.ListDir(storeDir) != {}
    {
      r := FetchAndExtractBuild(host, branch, revision, storeName, storeDir, false, reply, unpacked, unpackedDirs);
      if r.Err? {
        return;
      }
      if host.ListDir(storeDir) == {} {
        return Err(StagingEmpty);
      }
    }

    /** `get_preproc_path` (lines 123-130): the found jar path without the
        marker, which must be a directory. `foundJar` is what `find_file`
        returned; `isScs` is ignored, as in the source. */
    function GetPreprocPath(host: Host, foundJar: string, isScs: bool): (r: Result<string>)
      reads host
      ensures r.Ok? <==> host.IsDir(ToolRoot(foundJar))
      ensures r.Ok? ==> r.value == ToolRoot(foundJar)
      ensures r.Err? ==> r.failure == ToolRootNotDir
    {
      var root := ToolRoot(foundJar);
      if host.IsDir(root) then Ok(root) else Err(ToolRootNotDir)
    }

    /** `get_preflight_paths` (lines 133-153), with every path looked up from
        the current working directory; `javaBin` is what `find_java` returned. */
    function GetPreflightPaths(host: Host, binaryRoot: string, preprocPath: string, javaBin: string): (r: Result<PreflightPaths>)
      reads host
      ensures r.Ok? <==> host.IsDir(preprocPath) && host.Exists(binaryRoot) && host.Exists(javaBin)
      ensures r.Ok? ==> r.value == PreflightPaths(binaryRoot, PathJoin(binaryRoot, "compile.xml"), javaBin)
      ensures !host.IsDir(preprocPath) ==> r == Err(PreprocPathNotDir)
      ensures host.IsDir(preprocPath) && !host.Exists(binaryRoot) ==> r == Err(BinaryPathMissing)
      ensures host.IsDir(preprocPath) && host.Exists(binaryRoot) && !host.Exists(javaBin) ==> r == Err(JavaMissing)
    {
      if !host.IsDir(preprocPath) then Err(PreprocPathNotDir)
      else if !host.Exists(binaryRoot) then Err(BinaryPathMissing)
      else if !host.Exists(javaBin) then Err(JavaMissing)
      else Ok(PreflightPaths(binaryRoot, PathJoin(binaryRoot, "compile.xml"), javaBin))
    }

    /** `submit_preflight` (lines 155-233). `foundJar` and `javaBin` answer
        `find_file` and `find_java`, `verbose` is whether DEBUG logging is on,
        `outputPattern` is the value of `PP_OUTPUT_TARBALL` and `run` is what
        running the command did. */
    method SubmitPreflight(host: Host, req: RequestInfo, foundJar: string, javaBin: string,
                           verbose: bool, outputPattern: string, run: ToolRun)
      returns (out: SubmitOutcome)
      modifies this`jobStatus, host
      // PATH, and the whole environment, are as before on every exit.
      ensures host.env == old(host.env)
      ensures host.dirs == old(host.dirs)
      // The tool runs exactly when every check passes; otherwise the first
      // failing check is reported and nothing but the directory has changed.
      ensures out.Refused? <==>
        SubmitRefusal(old(host.env), old(host.cwd), old(host.files), old(host.dirs), req, foundJar, javaBin).Some?
      ensures out.Refused? ==>
        out.failure == SubmitRefusal(old(host.env), old(host.cwd), old(host.files), old(host.dirs), req, foundJar, javaBin).value
      ensures out.Refused? ==> jobStatus == old(jobStatus) && host.files == old(host.files)
      ensures out.Refused? ==>
        host.cwd == (if AfterChdir(out.failure) then ToolDir(old(host.cwd), foundJar) else old(host.cwd))
      // Once the tool is about to run, its command, search path and directory are fixed.
      ensures !out.Refused? ==>
        && PreconditionFailure(old(host.dirs), old(host.cwd), req).None?
        && "PATH" in old(host.env)
        && out.call == ToolCall(
             PreflightCommand(req.binaryRoot.value, PathJoin(req.binaryRoot.value, "compile.xml"),
                              req.envDir.value, extraArgs, verbose),
             javaBin + PathSep + old(host.env)["PATH"],
             ToolDir(old(host.cwd), foundJar))
      ensures out.Interrupted? <==> !out.Refused? && run.Threw?
      ensures out.ToolFailed? <==> !out.Refused? && run.Exited? && run.code != 0
      ensures out.InterruptedAfterRun? <==> !out.Refused? && run.ExitedThenThrew?
      ensures out.Completed? <==> !out.Refused? && run.Exited? && run.code == 0
      ensures out.Interrupted? ==>
        jobStatus == old(jobStatus) && host.files == old(host.files) && host.cwd == ToolDir(old(host.cwd), foundJar)
      // An exception after the run skips line 230 and line 233.
      ensures out.InterruptedAfterRun? ==>
        && jobStatus == old(jobStatus)
        && host.cwd == ToolDir(old(host.cwd), foundJar)
        && host.files == (if run.pastRestore then
                            RestorePayload(run.after, ToolDir(old(host.cwd), foundJar), appPath,
                                           Captured(old(host.files), ToolDir(old(host.cwd), foundJar), appPath))
                          else run.after)
      ensures out.ToolFailed? ==>
        jobStatus == Failed && host.files == run.after && host.cwd == ToolDir(old(host.cwd), foundJar)
      ensures out.Completed? ==>
        && jobStatus == Finished
        && host.cwd == old(host.cwd)
        && host.files == RestorePayload(run.after, ToolDir(old(host.cwd), foundJar), appPath,
                                        Captured(old(host.files), ToolDir(old(host.cwd), foundJar), appPath))
        && out.searchedOutputs == (outputPattern != [])
    {
      var refused := PreconditionFailure(host.dirs, host.cwd, req);
      if refused.Some? {
        return Refused(refused.value);
      }
      var root := req.binaryRoot.value;
      var envDir := req.envDir.value;
      var isScs := IsScs(storeDir, root);
      var preprocPath := GetPreprocPath(host, foundJar, isScs);
      if preprocPath.Err? {
        return Refused(preprocPath.failure);
      }
      var initDir := host.cwd;
      host.cwd := PathJoin(host.cwd, preprocPath.value);
      var paths := GetPreflightPaths(host, root, preprocPath.value, javaBin);
      if paths.Err? {
        return Refused(paths.failure);
      }
      var command := PreflightCommand(paths.value.binaryRoot, paths.value.compileXml, envDir, extraArgs, verbose);
      if "PATH" !in host.env {
        return Refused(PathUnset);
      }
      out := RunPreflight(host, command, paths.value.javaBin, outputPattern, run);
      if out.Completed? {
        host.cwd := initDir;
      }
    }

    /** Lines 198-232: put the Java runtime first on PATH, run the command in
        the current directory, record the outcome, and put PATH back whatever
        happens. */
    method RunPreflight(host: Host, command: string, javaBin: string, outputPattern: string, run: ToolRun)
      returns (out: SubmitOutcome)
      requires "PATH" in host.env
      modifies this`jobStatus, host`env, host`files
      ensures host.env == old(host.env)
      ensures !out.Refused?
      ensures out.call == ToolCall(command, javaBin + PathSep + old(host.env)["PATH"], host.cwd)
      ensures out.Interrupted? <==> run.Threw?
      ensures out.ToolFailed? <==> run.Exited? && run.code != 0
      ensures out.InterruptedAfterRun? <==> run.ExitedThenThrew?
      ensures out.Completed? <==> run.Exited? && run.code == 0
      ensures out.Interrupted? ==> jobStatus == old(jobStatus) && host.files == old(host.files)
      ensures out.InterruptedAfterRun? ==>
        && jobStatus == old(jobStatus)
        && host.files == (if run.pastRestore then
                            RestorePayload(run.after, host.cwd, appPath, Captured(old(host.files), host.cwd, appPath))
                          else run.after)
      ensures out.ToolFailed? ==> jobStatus == Failed && host.files == run.after
      ensures out.Completed? ==>
        && jobStatus == Finished
        && host.files == RestorePayload(run.after, host.cwd, appPath, Captured(old(host.files), host.cwd, appPath))
        && out.searchedOutputs == (outputPattern != [])
    {
      var initialPath := host.env["PATH"];
      host.env := host.env["PATH" := javaBin + PathSep + initialPath];
      var call := ToolCall(command, host.env["PATH"], host.cwd);
      // try:
      var captured := Captured(host.files, host.cwd, appPath);
      match run
      case Threw =>
        host.env := host.env["PATH" := initialPath];     // finally
        return Interrupted(call);
      case ExitedThenThrew(after, pastRestore) =>
        host.files := after;
        if pastRestore && captured.Some? && captured.value != [] && !host.IsFile(appPath) {
          host.files := host.files[PathJoin(host.cwd, appPath) := captured.value];
        }
        host.env := host.env["PATH" := initialPath];     // finally
        return InterruptedAfterRun(call);
      case Exited(code, after) =>
        host.files := after;
        if code != 0 {
          jobStatus := Failed;
          host.env := host.env["PATH" := initialPath];   // finally
          return ToolFailed(call);
        }
        if captured.Some? && captured.value != [] && !host.IsFile(appPath) {
          host.files := host.files[PathJoin(host.cwd, appPath) := captured.value];
        }
        jobStatus := Finished;
        host.env := host.env["PATH" := initialPath];     // finally
        return Completed(call, outputPattern != []);
    }
  }

  /** Equality of jobs is decided by branch and revision alone: two jobs with
      the same pair are equal whatever their stores, names and statuses, and
      with a collision-free hash only such jobs are equal. */
  lemma SameJobByIdentity(p: Preprocessor, q: Preprocessor, hash: ((string, string)) -> int)
    ensures p.branch == q.branch && p.revision == q.revision ==> p.SameJob(q, hash)
    ensures (forall a, b :: hash(a) == hash(b) ==> a == b) ==>
      (p.SameJob(q, hash) <==> p.branch == q.branch && p.revision == q.revision)
  {
  }
}
