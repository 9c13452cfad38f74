/**
 * The artifact cache: App.builds maps a source path to its last successful
 * build. Build is get-or-build; RemoveBuild invalidates one entry; OnChange is
 * the policy the watcher's reports are handed to (rebuild a file that still
 * exists, forget it otherwise or when the rebuild fails).
 */
module Builds {
  import opened Types
  import opened Strings

  /** Synthetic sources served from the embedded filesystem carry this prefix. */
  const BuiltinPrefix := "/builtin:"

  /** Where builtin sources live inside the embedded filesystem. */
  const EmbedDir := "embed/builtin/"

  /** Pages with this suffix are served raw instead of compiled. */
  const IndexHtmlSuffix := "/index.html"

  const JoinSeparator := "\n"

  const DirectoryErrorText := "can't build a directory"

  const UnknownErrorText := "Unknown error"

  predicate IsBuiltin(filename: string) {
    HasPrefix(filename, BuiltinPrefix)
  }

  // ---- The compiler boundary (esbuild's api.Build, abstracted) ----

  /** Either an entry file on disk or source text handed over on stdin. */
  datatype Source = EntryPoint(path: string) | Stdin(contents: Bytes, sourcefile: string)

  /** What a build depends on: the file being built (the resolve callback keys on it), its source, minification. */
  datatype CompileInput = CompileInput(filename: string, source: Source, minify: bool)

  datatype Message = Message(text: string)

  datatype OutputFile = OutputFile(path: string, contents: Bytes)

  datatype CompileResult = CompileResult(errors: seq<Message>, outputs: seq<OutputFile>)

  type Compiler = CompileInput -> CompileResult

  // ---- Errors ----

  datatype BuildError =
    | StatFailed(cause: OsError)       // os.Lstat failed
    | IsDirectory                      // the path names a directory
    | ReadFailed(cause: OsError)       // reading index.html or the embedded source failed
    | CompileFailed(text: string)      // the compiler reported errors
    | Unknown                          // the compiler reported neither errors nor outputs

  /**
   * The text of err.Error(). The core's own errors and the compiler's joined
   * messages read exactly as in the source; an OS error keeps its own text,
   * and "does not exist" gets a placeholder wording, not Go's
   * "lstat <path>: no such file or directory".
   */
  function ErrorText(e: BuildError): (text: string)
    ensures e == IsDirectory ==> text == DirectoryErrorText
    ensures e == Unknown ==> text == UnknownErrorText
    ensures e.CompileFailed? ==> text == e.text
    ensures (e.StatFailed? || e.ReadFailed?) && e.cause.OtherOsError? ==> text == e.cause.text
  {
    match e
    case IsDirectory => DirectoryErrorText
    case CompileFailed(text) => text
    case Unknown => UnknownErrorText
    case StatFailed(NotExist) => "no such file or directory"
    case ReadFailed(NotExist) => "no such file or directory"
    case StatFailed(OtherOsError(text)) => text
    case ReadFailed(OtherOsError(text)) => text
  }

  function ErrorTexts(errors: seq<Message>): (texts: seq<string>)
    ensures |texts| == |errors|
    ensures forall i :: 0 <= i < |errors| ==> texts[i] == errors[i].text
  {
    seq(|errors|, i requires 0 <= i < |errors| => errors[i].text)
  }

  /**
   * How a compiler result becomes a cache entry or an error: any error makes
   * the build fail with all messages joined by newlines; otherwise the first
   * output is the artifact; with neither, the build fails as unknown.
   */
  function CompileOutcome(result: CompileResult, modtime: Time): (r: Result<FileContent, BuildError>)
    ensures |result.errors| > 0 <==> r.Err? && r.error.CompileFailed?
    ensures r.Err? && r.error.CompileFailed? ==>
      r.error.text == Join(ErrorTexts(result.errors), JoinSeparator)
    ensures r.Ok? <==> |result.errors| == 0 && |result.outputs| > 0
    ensures r.Ok? ==> r.value == FileContent(modtime, result.outputs[0].contents)
    ensures r == Err(Unknown) <==> |result.errors| == 0 && |result.outputs| == 0
  {
    if |result.errors| > 0 then Err(CompileFailed(Join(ErrorTexts(result.errors), JoinSeparator)))
    else if |result.outputs| > 0 then Ok(FileContent(modtime, result.outputs[0].contents))
    else Err(Unknown)
  }

  /** The error messages of a failed build come back line by line when none spans lines. */
  lemma CompileErrorsRecoverable(result: CompileResult, modtime: Time)
    requires |result.errors| > 0
    requires forall i :: 0 <= i < |result.errors| ==> '\n' !in result.errors[i].text
    ensures CompileOutcome(result, modtime).Err?
    ensures Split(ErrorText(CompileOutcome(result, modtime).error), '\n') == ErrorTexts(result.errors)
  {
    JoinSplitRoundTrip(ErrorTexts(result.errors), '\n');
  }

  // ---- What one build produces, independent of the cache ----

  /**
   * The outcome of building filename from scratch against the filesystem fs
   * and the embedded files. This is everything App.Build does on a cache miss
   * except the store.
   */
  function Produce(filename: string, fs: FileSystem, embedded: map<string, Bytes>, minify: bool, compile: Compiler)
    : (r: Result<FileContent, BuildError>)
    // a real file must stat; a failing stat or a directory is an error
    ensures !IsBuiltin(filename) && Lstat(fs, filename).Failed? ==> r == Err(StatFailed(Lstat(fs, filename).err))
    ensures r == Err(IsDirectory) <==>
      !IsBuiltin(filename) && Lstat(fs, filename).Info? && Lstat(fs, filename).info.isDir
    // the artifact carries the stat's modtime, or zero for a builtin
    ensures r.Ok? && IsBuiltin(filename) ==> r.value.modtime == ZeroTime
    ensures r.Ok? && !IsBuiltin(filename) ==>
      Lstat(fs, filename).Info? && !Lstat(fs, filename).info.isDir &&
      r.value.modtime == Lstat(fs, filename).info.modtime
    // index.html is served as its raw bytes
    ensures r.Ok? && HasSuffix(filename, IndexHtmlSuffix) ==> ReadFile(fs, filename) == Ok(r.value.content)
    // a page that passes the stat is built iff it can be read, and a read error is returned as it is
    ensures HasSuffix(filename, IndexHtmlSuffix) && (IsBuiltin(filename) || (Lstat(fs, filename).Info? && !Lstat(fs, filename).info.isDir)) ==>
      && (r.Ok? <==> ReadFile(fs, filename).Ok?)
      && (r.Err? ==> r == Err(ReadFailed(ReadFile(fs, filename).error)))
    // everything else that passes the stat is compiled from its source, or fails as the source lookup did
    ensures !HasSuffix(filename, IndexHtmlSuffix) && (IsBuiltin(filename) || (Lstat(fs, filename).Info? && !Lstat(fs, filename).info.isDir)) ==>
      var source := BuildSource(filename, embedded);
      var modtime := if IsBuiltin(filename) then ZeroTime else Lstat(fs, filename).info.modtime;
      && (source.Err? ==> r == Err(source.error))
      && (source.Ok? ==> r == CompileOutcome(compile(CompileInput(filename, source.value, minify)), modtime))
  {
    var builtin := IsBuiltin(filename);
    var stat := Lstat(fs, filename);
    if !builtin && stat.Failed? then Err(StatFailed(stat.err))
    else if !builtin && stat.info.isDir then Err(IsDirectory)
    else
      var modtime := if builtin then ZeroTime else stat.info.modtime;
      if HasSuffix(filename, IndexHtmlSuffix) then
        match ReadFile(fs, filename)
        case Err(e) => Err(ReadFailed(e))
        case Ok(data) => Ok(FileContent(modtime, data))
      else
        var source := BuildSource(filename, embedded);
        if source.Err? then Err(source.error)
        else CompileOutcome(compile(CompileInput(filename, source.value, minify)), modtime)
  }

  /** The compiler's input: the embedded text of a builtin, or the file itself. */
  function BuildSource(filename: string, embedded: map<string, Bytes>): (r: Result<Source, BuildError>)
    ensures !IsBuiltin(filename) ==> r == Ok(EntryPoint(filename))
    ensures IsBuiltin(filename) && r.Ok? ==>
      var name := TrimPrefix(filename, BuiltinPrefix);
      BuiltinPrefix + name == filename && EmbedDir + name in embedded && r.value == Stdin(embedded[EmbedDir + name], name)
    ensures IsBuiltin(filename) ==> (r.Ok? <==> EmbedDir + TrimPrefix(filename, BuiltinPrefix) in embedded)
    ensures r.Err? ==> r.error == ReadFailed(NotExist)
  {
    if IsBuiltin(filename) then
      var name := TrimPrefix(filename, BuiltinPrefix);
      if EmbedDir + name in embedded then Ok(Stdin(embedded[EmbedDir + name], name))
      else Err(ReadFailed(NotExist))
    else Ok(EntryPoint(filename))
  }

  /** A builtin never consults the filesystem unless it is an index.html page. */
  lemma BuiltinSkipsStat(filename: string, fs1: FileSystem, fs2: FileSystem, embedded: map<string, Bytes>,
                         minify: bool, compile: Compiler)
    requires IsBuiltin(filename) && !HasSuffix(filename, IndexHtmlSuffix)
    ensures Produce(filename, fs1, embedded, minify, compile) == Produce(filename, fs2, embedded, minify, compile)
  {
  }

  /** An index.html page never reaches the compiler. */
  lemma IndexHtmlSkipsCompiler(filename: string, fs: FileSystem, embedded: map<string, Bytes>,
                               minify: bool, compile1: Compiler, compile2: Compiler)
    requires HasSuffix(filename, IndexHtmlSuffix)
    ensures Produce(filename, fs, embedded, minify, compile1) == Produce(filename, fs, embedded, minify, compile2)
  {
  }

  /**
   * The cache after the watcher reported filename: a rebuild that succeeded
   * replaces the entry, otherwise the entry is dropped; no other key changes.
   */
  function ChangePolicy(builds: map<string, FileContent>, filename: string, stillExists: bool,
                        rebuilt: Result<FileContent, BuildError>): (m: map<string, FileContent>)
    ensures forall k :: k != filename ==> (k in m <==> k in builds)
    ensures forall k :: k != filename && k in m ==> m[k] == builds[k]
    ensures filename in m <==> stillExists && rebuilt.Ok?
    ensures filename in m ==> m[filename] == rebuilt.value
  {
    if stillExists && rebuilt.Ok? then builds[filename := rebuilt.value] else builds - {filename}
  }

  class App {
    const dev: bool
    const embedded: map<string, Bytes>
    var builds: map<string, FileContent>

    constructor (dev: bool, embedded: map<string, Bytes>)
      ensures this.dev == dev && this.embedded == embedded && builds == map[]
    {
      this.dev := dev;
      this.embedded := embedded;
      builds := map[];
    }

    /**
     * Get-or-build. Without rebuild a cached entry is returned as it is;
     * otherwise the file is built and, only if that succeeds, stored.
     */
    method Build(filename: string, rebuild: bool, fs: FileSystem, compile: Compiler)
      returns (r: Result<FileContent, BuildError>)
      modifies this
      ensures !rebuild && filename in old(builds) ==> r == Ok(old(builds)[filename]) && builds == old(builds)
      ensures rebuild || filename !in old(builds) ==>
        && r == Produce(filename, fs, embedded, !dev, compile)
        && builds == (if r.Ok? then old(builds)[filename := r.value] else old(builds))
    {
      if !rebuild && filename in builds {
        return Ok(builds[filename]);
      }

      var builtin := IsBuiltin(filename);
      var modtime := ZeroTime;
      if !builtin {
        var stat := Lstat(fs, filename);
        if stat.Failed? {
          return Err(StatFailed(stat.err));
        }
        if stat.info.isDir {
          return Err(IsDirectory);
        }
        modtime := stat.info.modtime;
      }

      if HasSuffix(filename, IndexHtmlSuffix) {
        var data := ReadFile(fs, filename);
        if data.Err? {
          return Err(ReadFailed(data.error));
        }
        r := Ok(FileContent(modtime, data.value));
        builds := builds[filename := r.value];
        return;
      }

      var source: Source;
      if builtin {
        var name := TrimPrefix(filename, BuiltinPrefix);
        if EmbedDir + name !in embedded {
          return Err(ReadFailed(NotExist));
        }
        source := Stdin(embedded[EmbedDir + name], name);
      } else {
        source := EntryPoint(filename);
      }

      var result := compile(CompileInput(filename, source, !dev));
      var l := |result.errors|;
      if l > 0 {
        var texts := new string[l];
        for i := 0 to l
          modifies texts
          invariant texts[..i] == ErrorTexts(result.errors)[..i]
        {
          texts[i] := result.errors[i].text;
        }
        assert texts[..] == ErrorTexts(result.errors);
        return Err(CompileFailed(Join(texts[..], JoinSeparator)));
      }

      if |result.outputs| > 0 {
        r := Ok(FileContent(modtime, result.outputs[0].contents));
        builds := builds[filename := r.value];
        return;
      }

      r := Err(Unknown);
    }

    /** Forgets filename; nothing happens when it is not cached. */
    method RemoveBuild(filename: string)
      modifies this
      ensures builds == old(builds) - {filename}
    {
      builds := builds - {filename};
    }

    /** The callback the watcher's loop hands each report to. */
    method OnChange(filename: string, stillExists: bool, fs: FileSystem, compile: Compiler)
      modifies this
      ensures builds == ChangePolicy(old(builds), filename, stillExists, Produce(filename, fs, embedded, !dev, compile))
    {
      if stillExists {
        var r := Build(filename, true, fs, compile);
        if r.Err? {
          RemoveBuild(filename);
        }
      } else {
        RemoveBuild(filename);
      }
    }
  }
}
