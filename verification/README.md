# esma build cache and polling watcher, in Dafny

This project models the core of the esma dev server, written in Go. That core has two parts.

**The artifact cache** (`server/app.go`). `App.builds` maps a source path to its last successful
build: the bytes plus the source's modification time. `App.Build` is get-or-build:

- A cache hit is returned unless a rebuild is forced.
- Otherwise the file is stat'ed. Synthetic `/builtin:` sources skip the stat.
- Directories are rejected.
- `index.html` pages are served raw.
- Everything else goes to esbuild. The compiler's errors are joined into one message. Only a
  success is stored.

The watcher's reports go to a change callback with this policy: rebuild a file that still
exists; forget the entry when the file is gone or the rebuild fails. The esbuild resolve callback
leaves the entry itself, and CSS imported while building CSS, to esbuild's default resolution. It
marks every other import external, and rewrites a CSS import to its `?module` form.

**The polling watcher** (`server/watcher.go`, adapted from esbuild's watch mode). One step
(`tryToFindDirtyPath`) does the following:

- If the scan pool is empty, it refills it with the non-builtin cache keys and shuffles them
  (Fisher–Yates). It sets the per-step quota to `max(ceil(n/20), 64)`.
- It re-checks every recently changed path.
- It takes one quota of paths off the tail of the pool.
- It reports the first path whose modtime changed or whose file is gone.

The loop body hands the report to the cache and then resynchronises the scanner with the cache
(`setWatchData`).

Files:

- `types.dfy` (module `Types`): times (0 is Go's zero time), bytes, `FileContent`, `Option` and `Result`. It also holds a value snapshot of the filesystem that stands in for `os.Lstat` and `ioutil.ReadFile`.
- `strings.dfy` (module `Strings`): `HasPrefix`, `HasSuffix`, `TrimPrefix`, `Join`, `SplitByFirstByte` and `Split`, with the join/split round trip.
- `resolver.dfy` (module `Resolver`): the resolve callback of `App.Build`.
- `app.dfy` (module `Builds`): the compiler boundary, the build outcome `Produce`, the change policy, and the class `App` (field `builds`, methods `Build`, `RemoveBuild`, `OnChange`).
- `watcher.dfy` (module `Watch`): dirtiness, the quota and drain bounds, Fisher–Yates on an array, and the recent-list operations. It also holds the class `Watcher` (fields `recentItems`, `itemsToScan`, `itemsPerIteration`; methods `Refill`, `TryToFindDirtyPath`, `SetWatchData`, `Poll`).

Abstractions:

- **Filesystem.** A `FileSystem` value holds what `Lstat` answers per path and what a read returns. An unlisted path does not exist.
- **Compiler.** The compiler is a total function from `CompileInput` to `CompileResult` (error messages and output files).
- **Randomness.** The shuffle's random numbers come from an injected `pick: nat -> nat`. Step `i` draws `pick(i) % (i + 1)`, in place of `rand.Int31n(i + 1)`.
- **Map iteration order.** Go iterates a map in random order. The refill loop picks keys with `:|`, so the model leaves the order open. `Refill` returns that order as a ghost value.

Notes on the code's behaviour:

- The code has no per-key single-flight build. Two concurrent misses on one key both compile, and the second store wins.
- Errors are not classified into a taxonomy. `Build` returns the raw `os.Lstat` error, the text "can't build a directory", the raw `ioutil.ReadFile` error of an `index.html` page, the raw error of reading a builtin's embedded source, the compiler messages joined by "\n", or "Unknown error".
- A stat error other than "does not exist" does not count as a removal. `checkModtime` treats that path as clean.
- The change policy is an eager rebuild. A failed rebuild removes the entry.

## Model

| member | source | states |
|---|---|---|
| `Strings.HasPrefix` | server/app.go:40 | true means the string is the prefix followed by its remainder; false means no remainder completes it |
| `Strings.HasSuffix` | server/app.go:58 | true means the string is some beginning followed by the suffix; false means no beginning completes it |
| `Strings.Join` | server/app.go:133 | a single text is returned as is; with more, the result starts with the first text and the separator; `JoinSplitRoundTrip` shows that splitting inverts it |
| `Strings.SplitByFirstByte` | server/app.go:83 | the first part has no separator; when the separator occurs, first + separator + rest is the input; otherwise the result is (input, "") |
| `Strings.SplitAtFirst` | server/app.go:83 | the split point is unique: a separator-free prefix followed by the separator is exactly what the split returns |
| `Strings.TrimPrefix` | server/app.go:113 | with the prefix present, prefix + result is the input; otherwise the input is returned unchanged |
| `Strings.JoinSplitRoundTrip` | server/app.go:129-133 | splitting the joined error texts on the separator gives back the list, when no text contains the separator |
| `Resolver.Resolve` | server/app.go:79-92 | the entry itself and CSS imported while building CSS get the default non-external result; every other import is external, with a rewritten path exactly when its path before the first '?' ends in `.css` |
| `Resolver.ResolvedCssRoundTrip` | server/app.go:83-89 | the rewritten CSS path splits at its first '?' into the original path and "module", followed by "&" and the original query when there was one |
| `Builds.CompileOutcome` | server/app.go:128-151 | errors present iff the build fails with the texts joined by "\n"; success iff no errors and an output exists, with the first output's contents and the given modtime; neither gives "Unknown error" |
| `Builds.CompileErrorsRecoverable` | server/app.go:128-135 | a failed build's error text splits back into the individual compiler messages, one per message and in order |
| `Builds.ErrorText` | server/app.go:46-150 | the directory error reads "can't build a directory", the empty build "Unknown error", a compiler failure its joined messages, and an OS error its own text |
| `Builds.BuildSource` | server/app.go:111-126 | a non-builtin compiles its file as the entry point; a builtin has a source iff `embed/builtin/<name>` is embedded, and then compiles it on stdin; a missing embedded file is a read error |
| `Builds.Produce` | server/app.go:40-151 | a failing stat is returned as the error; the build fails with the directory error iff a non-builtin path is a directory; a successful artifact has zero modtime for a builtin and the stat's modtime otherwise; an index.html page that passes the stat is built iff it can be read, with its raw bytes, and a read error is returned; any other path that passes the stat fails as its source lookup did, or is exactly the compiler's outcome on the file's source, with that modtime |
| `Builds.BuiltinSkipsStat` | server/app.go:40-56 | a builtin that is not an index.html page builds the same on any filesystem |
| `Builds.IndexHtmlSkipsCompiler` | server/app.go:58-72 | an index.html page builds the same whatever the compiler does |
| `Builds.ChangePolicy` | server/app.go:159-169 | no key other than the reported one changes; the reported key stays iff the file exists and its rebuild succeeded, and then holds the rebuilt artifact |
| `Builds.App.constructor` | server/server.go:86-91 | a new app starts with an empty cache |
| `Builds.App.Build` | server/app.go:29-152 | without rebuild, a cached entry is returned and the cache is untouched; otherwise the result is the build outcome, stored under the filename only on success |
| `Builds.App.RemoveBuild` | server/app.go:251-256 | deletes exactly that key; a no-op when absent |
| `Builds.App.OnChange` | server/app.go:159-169 | the cache afterwards is the change policy applied to the forced rebuild's outcome |
| `Watch.CheckModtime` | server/watcher.go:129-145 | only a cached path is dirty; a cached path whose file is gone is (true, zero); one whose modtime differs is (true, new modtime); an equal modtime or another stat error is (false, zero) |
| `Watch.FirstDirty` | server/watcher.go:95-102 | the index of a dirty path with every earlier path clean, or none iff all are clean |
| `Watch.FindFirstDirty` | server/watcher.go:113-124 | the scanning loop stops at exactly the first dirty path |
| `Watch.PerIteration` | server/watcher.go:86-91 | the quota is at least 64, drains n paths in 20 steps, and is the least such value above 64 |
| `Watch.RemainingCount` | server/watcher.go:105-108 | one step takes min(quota, pool size) paths and leaves the rest |
| `Watch.PoolAfterIsPrefix` | server/watcher.go:105-110 | after k steps the pool is its first max(n - k*quota, 0) paths |
| `Watch.DrainsWithinMaxIntervals` | server/watcher.go:19 | a refilled pool of any size is empty after 20 steps without a recent hit |
| `Watch.SmallPoolDrainsInOneStep` | server/watcher.go:16 | a pool of at most 64 paths is emptied in one step |
| `Watch.ThousandPathScenario` | server/watcher.go:86-91 | 1000 paths give a quota of 64 and last exactly 16 steps |
| `Watch.Draw` | server/watcher.go:81 | the drawn index lies in [0, i] |
| `Watch.SwapPermutes` | server/watcher.go:82 | a swap keeps the length and the multiset |
| `Watch.ShuffleDownPermutes` | server/watcher.go:80-83 | the shuffle's swaps from index i down keep the multiset |
| `Watch.FisherYatesPermutes` | server/watcher.go:80-84 | whatever the draws, the shuffled pool is a permutation of the collected keys |
| `Watch.Shuffle` | server/watcher.go:80-83 | the in-place loop leaves the array equal to the Fisher–Yates shuffle of its old contents |
| `Watch.CollectScanItems` | server/watcher.go:70-78 | the collected items are exactly the cached paths without the `/builtin:` prefix, each once |
| `Watch.Rotate` | server/watcher.go:98-99 | moving a recent item to the back keeps length and multiset, keeps earlier items, shifts later ones down |
| `Watch.PushRecent` | server/watcher.go:116-121 | the result is the newest min(len+1, 16) entries of the list with the path appended, ending in the path |
| `Watch.FilterLive` | server/watcher.go:33-44 | the kept items are exactly those still cached; the list is unchanged when all are cached; it never grows |
| `Watch.FilterLiveCounts` | server/watcher.go:35-43 | each still-cached path is kept as often as it occurs, every other path is dropped |
| `Watch.FilterLiveSingle` | server/watcher.go:37-42 | a single path is kept iff it is still cached |
| `Watch.FilterLiveConcat` | server/watcher.go:35-44 | filtering distributes over concatenation, so the kept paths keep their original order |
| `Watch.HandledPathIsClean` | server/watcher.go:54-59 | after the loop hands a dirty non-builtin path to the cache, that path is clean against the same filesystem |
| `Watch.Watcher.constructor` | server/app.go:155-158 | a new watcher has empty recent list and pool |
| `Watch.Watcher.SetWatchData` | server/watcher.go:30-45 | the pool is emptied and the recent list becomes its still-cached items, in order |
| `Watch.Watcher.Refill` | server/watcher.go:69-92 | the pool is the Fisher–Yates shuffle of the collected non-builtin keys, and the quota is computed from the pool size |
| `Watch.Watcher.TryToFindDirtyPath` | server/watcher.go:68-127 | (through `ScanStep`) the pool is refilled only when empty; the first dirty recent item wins, is rotated to the back, and the pool is not popped; otherwise the tail quota is popped, the first dirty popped path is reported and pushed onto the recent list, or ("", zero) is returned with the recent list unchanged; the recent list stays within 16 |
| `Watch.Watcher.Poll` | server/watcher.go:53-59 | the step is a scan step of the old state; with no report the cache is untouched and the scanner keeps the step's recent list and pool; a report names a dirty cached path with its modtime, applies the change policy with exists = (modtime != zero), empties the pool and filters the step's recent list to the still-cached paths |

Notes on what the contracts show:

- **Drain bound.** `DrainsWithinMaxIntervals` covers runs of steps without a report. Every report
  empties the pool through `SetWatchData`, so the next step starts a new sweep.
- **The "" sentinel.** The source uses "" to mean "nothing found". The model keeps this, as
  `TryToFindDirtyPath` states.

## Left out

- Concurrency is not modelled: the `sync.RWMutex`, the goroutine in `watcher.start`, `time.Sleep`, and the atomic `shouldStop` flag with `watcher.stop`. `Watcher.Poll` is one iteration of the loop. The source has no per-key single-flight, so none is claimed.
- `watcher.start` takes the change callback as a parameter. `Poll` calls `App.OnChange` directly, because `App.Watch` is the only caller and that is the callback it passes.
- The filesystem is one snapshot per step. The source stats each path at its own instant.
- `Builds.ErrorText`: OS error wording is not modelled. A failed stat or read keeps only "does not exist" or another error with its text, and "does not exist" reads "no such file or directory" as a placeholder for Go's "lstat <path>: no such file or directory".
- `rand.Seed`, `rand.Int31n` and `time.Now` are not modelled. The injected `pick` replaces them, and the model does not state that the draws are uniform.
- `api.Build`, its options and the plugin wiring are not modelled. The options (target, format, bundle, outdir) become an opaque compiler function of the file, its source and the minify flag. The resolve callback is modelled on its own in `Resolver`.
- `Resolver.Resolve` returns the literal record for a non-CSS import: external, with an empty path. How esbuild reads an empty path (it keeps the import path) is outside the model.
- `log.Debugf` and the `os.Stdout` write of a failed rebuild's error are not modelled. They are logging.
- `FileContent.Error` is not modelled, because the source never sets or reads it.
- `App.Handle` is not modelled. It is the HTTP serving layer. `server/server.go`, `main.go`, `server/consts.go` and `embed/builtin/css.ts` are wiring and templates, not part of this model.
- Paths are strings of characters, not bytes. Times are naturals compared with `==`, in place of `time.Time.Equal`.
