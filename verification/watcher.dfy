/**
 * The polling watcher. Each step re-stats a handful of cached paths: all the
 * recently changed ones, then one quota taken from the tail of a shuffled pool
 * of every non-builtin cache key. The pool is refilled once it runs dry, and
 * the quota is sized so that a full pool drains within
 * MaxIntervalsBeforeUpdate steps. The first path found changed or gone is
 * reported, and the loop hands it to App.OnChange.
 */
module Watch {
  import opened Types
  import opened Strings
  import opened Builds

  /** How many recently changed paths are re-checked every step. */
  const MaxRecentItemCount: nat := 16

  /** The least number of pool paths checked in one step. */
  const MinItemCountPerIter: nat := 64

  /** A full pool is drained within this many steps. */
  const MaxIntervalsBeforeUpdate: nat := 20

  /** The keys the watcher scans: every cached path except the builtins. */
  function NonBuiltinKeys(builds: map<string, FileContent>): (keys: set<string>)
    ensures forall p :: p in keys <==> p in builds && !IsBuiltin(p)
  {
    set p | p in builds && !IsBuiltin(p)
  }

  // ---- Dirtiness ----

  /**
   * Whether path needs attention, and the modtime to report: a cached path
   * whose file is gone is dirty with the zero time; a cached path whose file
   * has another modtime is dirty with that modtime; anything else is clean.
   */
  function CheckModtime(builds: map<string, FileContent>, fs: FileSystem, path: string): (r: (bool, Time))
    ensures r.0 ==> path in builds
    ensures path in builds && Lstat(fs, path) == Failed(NotExist) ==> r == (true, ZeroTime)
    ensures path in builds && Lstat(fs, path).Info? && Lstat(fs, path).info.modtime != builds[path].modtime
      ==> r == (true, Lstat(fs, path).info.modtime)
    ensures path in builds && Lstat(fs, path).Info? && Lstat(fs, path).info.modtime == builds[path].modtime
      ==> r == (false, ZeroTime)
    ensures Lstat(fs, path).Failed? && Lstat(fs, path).err.OtherOsError? ==> r == (false, ZeroTime)
    ensures !r.0 ==> r.1 == ZeroTime
  {
    if path in builds then
      match Lstat(fs, path)
      case Failed(NotExist) => (true, ZeroTime)
      case Info(fi) => if fi.modtime != builds[path].modtime then (true, fi.modtime) else (false, ZeroTime)
      case Failed(OtherOsError(_)) => (false, ZeroTime)
    else (false, ZeroTime)
  }

  predicate Dirty(builds: map<string, FileContent>, fs: FileSystem, path: string) {
    CheckModtime(builds, fs, path).0
  }

  /** The index of the first dirty path, if any. */
  function FirstDirty(builds: map<string, FileContent>, fs: FileSystem, paths: seq<string>): (r: Option<nat>)
    ensures r.Some? ==> r.value < |paths| && Dirty(builds, fs, paths[r.value])
    ensures r.Some? ==> forall j :: 0 <= j < r.value ==> !Dirty(builds, fs, paths[j])
    ensures r.None? <==> forall j :: 0 <= j < |paths| ==> !Dirty(builds, fs, paths[j])
  {
    if paths == [] then None
    else if Dirty(builds, fs, paths[0]) then Some(0)
    else match FirstDirty(builds, fs, paths[1..])
      case None => None
      case Some(i) => Some(i + 1)
  }

  /** The loop of tryToFindDirtyPath over a list of paths: stop at the first dirty one. */
  method FindFirstDirty(builds: map<string, FileContent>, fs: FileSystem, paths: seq<string>)
    returns (found: Option<nat>)
    ensures found == FirstDirty(builds, fs, paths)
  {
    for i := 0 to |paths|
      invariant forall j :: 0 <= j < i ==> !Dirty(builds, fs, paths[j])
    {
      var (ok, _) := CheckModtime(builds, fs, paths[i]);
      if ok {
        return Some(i);
      }
    }
    return None;
  }

  // ---- The pool and its quota ----

  /** Paths per step after a refill: ceil(n / 20), but at least 64. */
  function PerIteration(n: nat): (q: nat)
    ensures q >= MinItemCountPerIter
    ensures q * MaxIntervalsBeforeUpdate >= n
    ensures q == MinItemCountPerIter || (q - 1) * MaxIntervalsBeforeUpdate < n
  {
    var perIter := (n + MaxIntervalsBeforeUpdate - 1) / MaxIntervalsBeforeUpdate;
    if perIter < MinItemCountPerIter then MinItemCountPerIter else perIter
  }

  /** How many pool paths stay behind when a step takes up to q from the tail. */
  function RemainingCount(len: nat, q: nat): (k: nat)
    ensures k <= len
    ensures len - k == if q < len then q else len
  {
    if len > q then len - q else 0
  }

  /** The pool after k steps that each take a quota of q and hit no recent item. */
  function PoolAfter(pool: seq<string>, q: nat, k: nat): seq<string>
  {
    if k == 0 then pool
    else
      var p := PoolAfter(pool, q, k - 1);
      p[..RemainingCount(|p|, q)]
  }

  /** k steps leave the first max(n - k*q, 0) paths of the pool. */
  lemma {:induction false} PoolAfterIsPrefix(pool: seq<string>, q: nat, k: nat)
    ensures var left := if |pool| > k * q then |pool| - k * q else 0;
      PoolAfter(pool, q, k) == pool[..left]
  {
    if k > 0 {
      PoolAfterIsPrefix(pool, q, k - 1);
      assert k * q == (k - 1) * q + q;
    }
  }

  /** A refilled pool of any size is empty after MaxIntervalsBeforeUpdate steps. */
  lemma DrainsWithinMaxIntervals(pool: seq<string>)
    ensures PoolAfter(pool, PerIteration(|pool|), MaxIntervalsBeforeUpdate) == []
  {
    PoolAfterIsPrefix(pool, PerIteration(|pool|), MaxIntervalsBeforeUpdate);
  }

  /** A pool of at most MinItemCountPerIter paths is checked in a single step. */
  lemma SmallPoolDrainsInOneStep(pool: seq<string>)
    requires |pool| <= MinItemCountPerIter
    ensures PoolAfter(pool, PerIteration(|pool|), 1) == []
  {
    PoolAfterIsPrefix(pool, PerIteration(|pool|), 1);
  }

  /** 1000 paths: 64 per step, so the pool lasts 16 steps, within the bound of 20. */
  lemma ThousandPathScenario(pool: seq<string>)
    requires |pool| == 1000
    ensures PerIteration(|pool|) == 64
    ensures PoolAfter(pool, 64, 15) != []
    ensures PoolAfter(pool, 64, 16) == []
  {
    PoolAfterIsPrefix(pool, 64, 15);
    PoolAfterIsPrefix(pool, 64, 16);
  }

  // ---- Fisher-Yates ----

  function Swap<T>(s: seq<T>, i: nat, j: nat): seq<T>
    requires i < |s| && j < |s|
  {
    s[i := s[j]][j := s[i]]
  }

  lemma SwapPermutes<T>(s: seq<T>, i: nat, j: nat)
    requires i < |s| && j < |s|
    ensures |Swap(s, i, j)| == |s|
    ensures multiset(Swap(s, i, j)) == multiset(s)
  {
  }

  /** The index rand.Int31n(i + 1) draws at step i of the shuffle. */
  function Draw(pick: nat -> nat, i: nat): (j: nat)
    ensures j <= i
  {
    pick(i) % (i + 1)
  }

  /** The swaps the shuffle makes for i, i-1, ..., 1. */
  function ShuffleDown<T>(s: seq<T>, pick: nat -> nat, i: nat): seq<T>
    requires i < |s|
    decreases i
  {
    if i == 0 then s
    else ShuffleDown(Swap(s, i, Draw(pick, i)), pick, i - 1)
  }

  function FisherYates<T>(s: seq<T>, pick: nat -> nat): seq<T> {
    if |s| == 0 then s else ShuffleDown(s, pick, |s| - 1)
  }

  lemma {:induction false} ShuffleDownPermutes<T>(s: seq<T>, pick: nat -> nat, i: nat)
    requires i < |s|
    ensures |ShuffleDown(s, pick, i)| == |s|
    ensures multiset(ShuffleDown(s, pick, i)) == multiset(s)
    decreases i
  {
    if i > 0 {
      var swapped := Swap(s, i, Draw(pick, i));
      SwapPermutes(s, i, Draw(pick, i));
      ShuffleDownPermutes(swapped, pick, i - 1);
    }
  }

  /** Whatever the random choices, the shuffle only reorders its input. */
  lemma FisherYatesPermutes<T>(s: seq<T>, pick: nat -> nat)
    ensures |FisherYates(s, pick)| == |s|
    ensures multiset(FisherYates(s, pick)) == multiset(s)
  {
    if |s| > 0 {
      ShuffleDownPermutes(s, pick, |s| - 1);
    }
  }

  /** The in-place Fisher-Yates loop of tryToFindDirtyPath. */
  method Shuffle<T>(a: array<T>, pick: nat -> nat)
    modifies a
    ensures a[..] == FisherYates(old(a[..]), pick)
  {
    var i := a.Length - 1;
    while i > 0
      invariant -1 <= i < a.Length
      invariant i < 0 ==> a.Length == 0 && a[..] == old(a[..])
      invariant i >= 0 ==> ShuffleDown(a[..], pick, i) == FisherYates(old(a[..]), pick)
    {
      var j := Draw(pick, i);
      ghost var before := a[..];
      a[i], a[j] := a[j], a[i];
      assert a[..] == Swap(before, i, j);
      i := i - 1;
    }
  }

  /** The refill loop over the cache's keys, in whatever order the map yields them. */
  method CollectScanItems(builds: map<string, FileContent>) returns (items: seq<string>)
    ensures multiset(items) == multiset(NonBuiltinKeys(builds))
  {
    items := [];
    var rest := builds.Keys;
    while rest != {}
      invariant rest <= builds.Keys
      invariant multiset(items) == multiset(NonBuiltinKeys(builds) - rest)
      decreases |rest|
    {
      var path :| path in rest;
      if !IsBuiltin(path) {
        assert NonBuiltinKeys(builds) - (rest - {path}) == (NonBuiltinKeys(builds) - rest) + {path};
        items := items + [path];
      } else {
        assert NonBuiltinKeys(builds) - (rest - {path}) == NonBuiltinKeys(builds) - rest;
      }
      rest := rest - {path};
    }
    assert NonBuiltinKeys(builds) - rest == NonBuiltinKeys(builds);
  }

  // ---- The recent list ----

  /** Moves s[i] to the end, keeping the order of the others. */
  function Rotate(s: seq<string>, i: nat): (r: seq<string>)
    requires i < |s|
    ensures |r| == |s| && multiset(r) == multiset(s)
    ensures r[|r| - 1] == s[i]
    ensures r[..i] == s[..i] && r[i..|r| - 1] == s[i + 1..]
  {
    var r := s[..i] + s[i + 1..] + [s[i]];
    assert s == s[..i] + [s[i]] + s[i + 1..];
    r
  }

  /** Appends p, dropping the oldest entry when the list would exceed its capacity. */
  function PushRecent(s: seq<string>, p: string): (r: seq<string>)
    ensures |s| <= MaxRecentItemCount ==>
      && |r| == (if |s| < MaxRecentItemCount then |s| + 1 else MaxRecentItemCount)
      && r == (s + [p])[|s| + 1 - |r|..]
      && r[|r| - 1] == p
  {
    var t := s + [p];
    if |t| > MaxRecentItemCount then t[1..][..MaxRecentItemCount] else t
  }

  /** The recent paths still cached, in their original order. */
  function FilterLive(s: seq<string>, keys: set<string>): (r: seq<string>)
    ensures |r| <= |s|
    ensures forall x :: x in r <==> x in s && x in keys
    ensures (forall x :: x in s ==> x in keys) ==> r == s
  {
    if s == [] then []
    else
      var init := FilterLive(s[..|s| - 1], keys);
      assert s == s[..|s| - 1] + [s[|s| - 1]];
      if s[|s| - 1] in keys then init + [s[|s| - 1]] else init
  }

  /** Every still-cached path is kept as often as it occurs; the others are dropped. */
  lemma {:induction false} FilterLiveCounts(s: seq<string>, keys: set<string>)
    ensures forall x :: multiset(FilterLive(s, keys))[x] == (if x in keys then multiset(s)[x] else 0)
    decreases |s|
  {
    if s != [] {
      var init := s[..|s| - 1];
      assert s == init + [s[|s| - 1]];
      FilterLiveCounts(init, keys);
    }
  }

  /** A single path is kept iff it is still cached. */
  lemma FilterLiveSingle(x: string, keys: set<string>)
    ensures FilterLive([x], keys) == (if x in keys then [x] else [])
  {
    assert [x][..0] == [];
  }

  /**
   * Filtering distributes over concatenation, so the kept paths stay in
   * their original relative order.
   */
  lemma {:induction false} FilterLiveConcat(s1: seq<string>, s2: seq<string>, keys: set<string>)
    ensures FilterLive(s1 + s2, keys) == FilterLive(s1, keys) + FilterLive(s2, keys)
    decreases |s2|
  {
    if s2 == [] {
      assert s1 + s2 == s1;
    } else {
      var init := s2[..|s2| - 1];
      var last := s2[|s2| - 1];
      assert (s1 + s2)[..|s1 + s2| - 1] == s1 + init;
      assert (s1 + s2)[|s1 + s2| - 1] == last;
      FilterLiveConcat(s1, init, keys);
    }
  }

  /**
   * Once the loop has handed a dirty path to the cache, the same path is
   * clean against the same filesystem: either it was rebuilt with the
   * modtime the watcher saw, or it left the cache.
   */
  lemma HandledPathIsClean(builds: map<string, FileContent>, fs: FileSystem, path: string,
                           embedded: map<string, Bytes>, minify: bool, compile: Compiler)
    requires !IsBuiltin(path)
    requires Dirty(builds, fs, path)
    ensures var modtime := CheckModtime(builds, fs, path).1;
      !Dirty(ChangePolicy(builds, path, modtime != ZeroTime, Produce(path, fs, embedded, minify, compile)), fs, path)
  {
  }

  /**
   * What one scan step does, from the recent list, pool and quota before it
   * (oldRecent, oldPool, oldQuota) to the pool it worked on, the new quota,
   * the report (path, modtime) and the new recent list and pool. The pool is
   * the old one, or a fresh permutation of the non-builtin keys when the old
   * one was empty. A dirty recent path wins and is moved to the back of the
   * recent list; otherwise one quota is taken off the pool's tail and its
   * first dirty path is appended to the recent list. ("", zero) means nothing
   * was found.
   */
  ghost predicate ScanStep(builds: map<string, FileContent>, fs: FileSystem,
                           oldRecent: seq<string>, oldPool: seq<string>, oldQuota: nat,
                           pool: seq<string>, quota: nat, path: string, modtime: Time,
                           recent: seq<string>, toScan: seq<string>)
  {
    && PoolChoice(builds, oldPool, oldQuota, pool, quota)
    && (path != "" ==> path in builds && CheckModtime(builds, fs, path) == (true, modtime))
    && match FirstDirty(builds, fs, oldRecent)
      case Some(i) =>
        && path == oldRecent[i]
        && modtime == CheckModtime(builds, fs, path).1
        && recent == Rotate(oldRecent, i)
        && toScan == pool
      case None =>
        var k := RemainingCount(|pool|, quota);
        && toScan == pool[..k]
        && toScan == PoolAfter(pool, quota, 1)
        && match FirstDirty(builds, fs, pool[k..])
          case Some(j) =>
            && path == pool[k + j]
            && modtime == CheckModtime(builds, fs, path).1
            && recent == PushRecent(oldRecent, path)
          case None =>
            && path == "" && modtime == ZeroTime
            && recent == oldRecent
  }

  /** How the pool and quota a step works on follow from the old ones. */
  ghost predicate PoolChoice(builds: map<string, FileContent>, oldPool: seq<string>, oldQuota: nat,
                             pool: seq<string>, quota: nat)
  {
    && (oldPool != [] ==> pool == oldPool && quota == oldQuota)
    && (oldPool == [] ==> multiset(pool) == multiset(NonBuiltinKeys(builds)) && quota == PerIteration(|pool|))
  }

  /** The step that finds a dirty recent path. */
  lemma RecentHitStep(builds: map<string, FileContent>, fs: FileSystem,
                      oldRecent: seq<string>, oldPool: seq<string>, oldQuota: nat,
                      pool: seq<string>, quota: nat, i: nat)
    requires PoolChoice(builds, oldPool, oldQuota, pool, quota)
    requires FirstDirty(builds, fs, oldRecent) == Some(i)
    ensures i < |oldRecent|
    ensures ScanStep(builds, fs, oldRecent, oldPool, oldQuota, pool, quota,
                     oldRecent[i], CheckModtime(builds, fs, oldRecent[i]).1, Rotate(oldRecent, i), pool)
  {
  }

  /** The step that finds no dirty recent path and checks the tail of the pool. */
  lemma PoolStep(builds: map<string, FileContent>, fs: FileSystem,
                 oldRecent: seq<string>, oldPool: seq<string>, oldQuota: nat,
                 pool: seq<string>, quota: nat, found: Option<nat>)
    requires PoolChoice(builds, oldPool, oldQuota, pool, quota)
    requires FirstDirty(builds, fs, oldRecent).None?
    requires found == FirstDirty(builds, fs, pool[RemainingCount(|pool|, quota)..])
    ensures found.Some? ==> RemainingCount(|pool|, quota) + found.value < |pool|
    ensures found.Some? ==>
      var path := pool[RemainingCount(|pool|, quota) + found.value];
      ScanStep(builds, fs, oldRecent, oldPool, oldQuota, pool, quota,
               path, CheckModtime(builds, fs, path).1, PushRecent(oldRecent, path),
               pool[..RemainingCount(|pool|, quota)])
    ensures found.None? ==>
      ScanStep(builds, fs, oldRecent, oldPool, oldQuota, pool, quota,
               "", ZeroTime, oldRecent, pool[..RemainingCount(|pool|, quota)])
  {
    var k := RemainingCount(|pool|, quota);
    assert PoolAfter(pool, quota, 1) == pool[..k];
    if found.Some? {
      assert pool[k..][found.value] == pool[k + found.value];
    }
  }

  class Watcher {
    const app: App
    var recentItems: seq<string>
    var itemsToScan: seq<string>
    var itemsPerIteration: nat

    /** The recent list stays within its capacity, and a non-empty pool has its quota set. */
    ghost predicate Valid()
      reads this
    {
      && |recentItems| <= MaxRecentItemCount
      && (itemsToScan != [] ==> itemsPerIteration >= MinItemCountPerIter)
    }

    constructor (app: App)
      ensures Valid()
      ensures this.app == app && recentItems == [] && itemsToScan == [] && itemsPerIteration == 0
    {
      this.app := app;
      recentItems := [];
      itemsToScan := [];
      itemsPerIteration := 0;
    }

    /** Forgets the pool and drops the recent paths the cache no longer holds. */
    method SetWatchData()
      modifies this
      ensures itemsToScan == []
      ensures recentItems == FilterLive(old(recentItems), app.builds.Keys)
      ensures itemsPerIteration == old(itemsPerIteration)
    {
      itemsToScan := [];
      var items := recentItems;
      var end := 0;
      for i := 0 to |items|
        invariant |items| == |recentItems|
        invariant end <= i
        invariant items[..end] == FilterLive(recentItems[..i], app.builds.Keys)
        invariant items[i..] == recentItems[i..]
      {
        var path := items[i];
        assert recentItems[..i + 1][..i] == recentItems[..i];
        assert items[i + 1..] == items[i..][1..];
        if path in app.builds {
          ghost var before := items;
          items := items[end := path];
          end := end + 1;
          assert items[i + 1..] == before[i + 1..];
        }
      }
      assert recentItems[..|recentItems|] == recentItems;
      recentItems := items[..end];
    }

    /** Fills the pool with the shuffled non-builtin keys and sizes the quota. */
    method Refill(pick: nat -> nat) returns (ghost collected: seq<string>)
      modifies this
      ensures multiset(collected) == multiset(NonBuiltinKeys(app.builds))
      ensures itemsToScan == FisherYates(collected, pick)
      ensures multiset(itemsToScan) == multiset(NonBuiltinKeys(app.builds))
      ensures itemsPerIteration == PerIteration(|itemsToScan|)
      ensures recentItems == old(recentItems)
    {
      var items := CollectScanItems(app.builds);
      collected := items;
      var a := new string[|items|](i requires 0 <= i < |items| => items[i]);
      assert a[..] == items;
      Shuffle(a, pick);
      FisherYatesPermutes(items, pick);
      itemsToScan := a[..];
      itemsPerIteration := PerIteration(|itemsToScan|);
    }

    /** One scan step of the polling loop (see ScanStep). */
    method TryToFindDirtyPath(fs: FileSystem, pick: nat -> nat)
      returns (path: string, modtime: Time, ghost pool: seq<string>)
      requires Valid()
      modifies this
      ensures Valid()
      ensures ScanStep(app.builds, fs, old(recentItems), old(itemsToScan), old(itemsPerIteration),
                       pool, itemsPerIteration, path, modtime, recentItems, itemsToScan)
    {
      if itemsToScan == [] {
        pool := Refill(pick);
      }
      pool := itemsToScan;
      assert PoolChoice(app.builds, old(itemsToScan), old(itemsPerIteration), pool, itemsPerIteration);
      assert itemsPerIteration >= MinItemCountPerIter || pool == [];

      var recent := FindFirstDirty(app.builds, fs, recentItems);
      if recent.Some? {
        var i := recent.value;
        RecentHitStep(app.builds, fs, recentItems, old(itemsToScan), old(itemsPerIteration),
                      pool, itemsPerIteration, i);
        path := recentItems[i];
        modtime := CheckModtime(app.builds, fs, path).1;
        recentItems := recentItems[..i] + recentItems[i + 1..] + [path];
        return;
      }

      var remainingCount := RemainingCount(|itemsToScan|, itemsPerIteration);
      var toCheck := itemsToScan[remainingCount..];
      itemsToScan := itemsToScan[..remainingCount];

      var hit := FindFirstDirty(app.builds, fs, toCheck);
      PoolStep(app.builds, fs, recentItems, old(itemsToScan), old(itemsPerIteration),
               pool, itemsPerIteration, hit);
      if hit.Some? {
        path := toCheck[hit.value];
        modtime := CheckModtime(app.builds, fs, path).1;
        recentItems := recentItems + [path];
        if |recentItems| > MaxRecentItemCount {
          recentItems := recentItems[1..][..MaxRecentItemCount];
        }
        return;
      }

      path, modtime := "", ZeroTime;
    }

    /**
     * The body of the watch loop: look for a dirty path and, if one is
     * found, hand it to the cache (a zero modtime means the file is gone) and
     * resynchronise the scanner with the cache. The ghost results are the
     * pool the step worked on and the recent list and pool the step left.
     */
    method Poll(fs: FileSystem, compile: Compiler, pick: nat -> nat)
      returns (path: string, modtime: Time, ghost pool: seq<string>, ghost stepRecent: seq<string>,
               ghost stepToScan: seq<string>)
      requires Valid()
      modifies this, app
      ensures Valid()
      ensures ScanStep(old(app.builds), fs, old(recentItems), old(itemsToScan), old(itemsPerIteration),
                       pool, itemsPerIteration, path, modtime, stepRecent, stepToScan)
      // no report: the cache is untouched and the scanner keeps the step's state
      ensures path == "" ==>
        && app.builds == old(app.builds)
        && recentItems == stepRecent
        && itemsToScan == stepToScan
      // a report: the path was dirty, the cache applies the change policy, the scanner resynchronises
      ensures path != "" ==>
        && CheckModtime(old(app.builds), fs, path) == (true, modtime)
        && app.builds == ChangePolicy(old(app.builds), path, modtime != ZeroTime,
                                      Produce(path, fs, app.embedded, !app.dev, compile))
        && itemsToScan == []
        && recentItems == FilterLive(stepRecent, app.builds.Keys)
        && forall x :: x in recentItems ==> x in app.builds
    {
      path, modtime, pool := TryToFindDirtyPath(fs, pick);
      stepRecent, stepToScan := recentItems, itemsToScan;
      if path != "" {
        var stillExists := modtime != ZeroTime;
        app.OnChange(path, stillExists, fs, compile);
        SetWatchData();
      }
    }
  }
}
