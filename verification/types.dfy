/**
 * Values shared by the build cache and the watcher: timestamps, byte strings,
 * cached artifacts (FileContent), and an abstract snapshot of the filesystem
 * that stands in for os.Lstat and ioutil.ReadFile.
 */
module Types {

  datatype Option<T> = None | Some(value: T)

  datatype Result<T, E> = Ok(value: T) | Err(error: E)

  /** A modification time; 0 plays the role of Go's zero time.Time. */
  type Time = nat

  const ZeroTime: Time := 0

  newtype byte = x: int | 0 <= x < 256

  type Bytes = seq<byte>

  /** One cached build output: the source's modtime at build time and the built bytes. */
  datatype FileContent = FileContent(modtime: Time, content: Bytes)

  /** The two ways the operating system can fail a stat or a read. */
  datatype OsError = NotExist | OtherOsError(text: string)

  datatype FileInfo = FileInfo(isDir: bool, modtime: Time)

  datatype StatResult = Info(info: FileInfo) | Failed(err: OsError)

  /**
   * A snapshot of the filesystem: what Lstat answers for each path (a path
   * that is not listed does not exist) and the bytes a read returns (a path
   * that is not listed cannot be read).
   */
  datatype FileSystem = FileSystem(stats: map<string, StatResult>, files: map<string, Bytes>)

  function Lstat(fs: FileSystem, path: string): (r: StatResult)
    ensures path !in fs.stats ==> r == Failed(NotExist)
  {
    if path in fs.stats then fs.stats[path] else Failed(NotExist)
  }

  function ReadFile(fs: FileSystem, path: string): (r: Result<Bytes, OsError>)
    ensures r.Ok? <==> path in fs.files
  {
    if path in fs.files then Ok(fs.files[path]) else Err(NotExist)
  }
}
