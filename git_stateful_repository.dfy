/** A model of R10K::Git::StatefulRepository: one working directory pinned to
    a ref, checked out from a mirror cache shared by every working directory
    drawn from the same remote.

    The filesystem, git and the cache are observed through abstract state:
    the cache is a record of what `exist?`, `resolve` and `ref_type` answer;
    the working directory holds what `status` reads (the deploy record and
    a `.git`) together with what reset and clean change (the checked-out
    tree and stray untracked files); and every state-changing call `sync`
    makes (refresh, remove, mkdir, reset, clean) is appended to an effect
    log. Queries and the reads inside `status` are not logged. */
module Git {
  import opened Wrappers
  import opened Seqs

  /** A resolved commit id. */
  type Sha = string

  /** What the cache's `ref_type` reports for a ref. */
  datatype RefType = Commit | Tag | Branch | Unknown

  /** The mirror cache as this class observes it: whether the mirror is on
      disk, what each ref resolves to, and what kind of ref each one is. */
  datatype Cache = Cache(present: bool, refs: map<string, Sha>, refTypes: map<string, RefType>)

  /** The outcome of refreshing the cache (`@cache.sync`): the cache it
      leaves behind, or a transport failure. */
  datatype FetchResult = Fetched(after: Cache) | FetchFailed

  /** Reading `.r10k-deploy.json`: any failure to open or parse the file is
      Unreadable; a parsed document gives its "signature" value, None when
      that key is missing, null or not a string. */
  datatype ReadResult = Unreadable | Parsed(signature: Option<Sha>)

  /** The working directory. `checkout` is the revision whose tree the
      tracked files hold (None for a fresh, empty directory) and `strays`
      says whether untracked files other than the deploy record lie there. */
  datatype Worktree =
    | NoDirectory
    | Directory(record: ReadResult, hasDotGit: bool, checkout: Option<Sha>, strays: bool)

  datatype SyncStatus = Absent | Mismatched | Outdated | InSync

  /** The calls `sync` makes on the cache, the filesystem and git. */
  datatype GitEffect = Fetch | RemoveEntry | MakeDir | HardReset(sha: Sha) | Clean

  datatype SyncError = FetchError | UnresolvableRef(ref: string, gitDir: string)

  /** `@cache.resolve(ref)`: the commit the ref names in the mirror, if any. */
  function Resolve(c: Cache, ref: string): Option<Sha>
  {
    if ref in c.refs then Some(c.refs[ref]) else None
  }

  /** `@cache.ref_type(ref)`; a ref the mirror does not know is Unknown. */
  function RefTypeOf(c: Cache, ref: string): RefType
  {
    if ref in c.refTypes then c.refTypes[ref] else Unknown
  }

  /** `sync_cache?`: the refresh may be skipped only for a ref that already
      resolves in an existing mirror and names a commit or a tag, since
      those cannot move. */
  function SyncCacheNeeded(c: Cache, ref: string): (needed: bool)
    ensures !needed <==> c.present && Resolve(c, ref).Some? && RefTypeOf(c, ref) in {Commit, Tag}
    ensures RefTypeOf(c, ref) in {Branch, Unknown} ==> needed
  {
    if !c.present then true
    else if Resolve(c, ref).None? then true
    else if RefTypeOf(c, ref) !in {Commit, Tag} then true
    else false
  }

  /** `status(target_sha)`: the four-way classification of the working
      directory against a target commit (None when no target is given). */
  function Status(w: Worktree, target: Option<Sha>): (s: SyncStatus)
    ensures s == Absent <==> w.NoDirectory?
    ensures s == Mismatched <==> w.Directory? && (w.record.Unreadable? || w.hasDotGit)
    ensures s == Outdated <==>
      w.Directory? && w.record.Parsed? && !w.hasDotGit && (target.None? || w.record.signature != target)
    ensures s == InSync <==>
      w.Directory? && w.record.Parsed? && !w.hasDotGit && target.Some? && w.record.signature == target
  {
    if w.NoDirectory? then Absent
    else if w.record.Unreadable? then Mismatched
    else if w.hasDotGit then Mismatched
    else if target.None? || w.record.signature != target then Outdated
    else InSync
  }

  /** The directory `mkdir_p` leaves after `remove_entry_secure`: empty, so
      there is no deploy record to read and no `.git`. */
  const EmptyDirectory: Worktree := Directory(Unreadable, false, None, false)

  /** `git reset --hard sha` with the cache as git dir: the tracked files
      become those of `sha`; untracked files and `.git` are left alone. */
  function AfterReset(w: Worktree, sha: Sha): (w': Worktree)
    requires w.Directory?
    ensures w'.Directory? && w'.checkout == Some(sha)
    ensures w'.record == w.record && w'.hasDotGit == w.hasDotGit && w'.strays == w.strays
  {
    w.(checkout := Some(sha))
  }

  /** `git clean --force`: untracked files go, and the deploy record is one
      of them, since the call excludes nothing. */
  function AfterClean(w: Worktree): (w': Worktree)
    requires w.Directory?
    ensures w'.Directory? && w'.record == Unreadable && !w'.strays
    ensures w'.checkout == w.checkout && w'.hasDotGit == w.hasDotGit
  {
    w.(record := Unreadable, strays := false)
  }

  /** The working directory once a deploy record carrying `signature` has
      been written into it (as the module-deploy action does after a sync). */
  function WithRecord(w: Worktree, signature: Sha): (w': Worktree)
    requires w.Directory?
    ensures w'.Directory? && w'.record == Parsed(Some(signature))
    ensures w'.hasDotGit == w.hasDotGit && w'.checkout == w.checkout && w'.strays == w.strays
  {
    w.(record := Parsed(Some(signature)))
  }

  /** Everything one call of `sync` produces: the cache, `head` and the
      working directory it leaves, the calls it makes in order, and whether
      it returns or raises. */
  datatype SyncRun = SyncRun(
    cache: Cache, head: Option<Sha>, worktree: Worktree, effects: seq<GitEffect>, outcome: Outcome<SyncError>)

  /** The specification of `sync` for a repository on `ref` whose git dir
      is `gitDir`, starting from cache `c`, head `head` and working
      directory `w`; `fetch` is what a refresh would do. */
  function SyncSpec(ref: string, gitDir: string, c: Cache, head: Option<Sha>, w: Worktree, fetch: FetchResult): (r: SyncRun)
    // a sync that raises does not touch the working directory
    ensures r.outcome.Fail? ==> r.worktree == w
  {
    var refresh := SyncCacheNeeded(c, ref);
    if refresh && fetch.FetchFailed? then
      SyncRun(c, head, w, [Fetch], Fail(FetchError))
    else
      var c' := if refresh then fetch.after else c;
      var pre := if refresh then [Fetch] else [];
      var resolved := Resolve(c', ref);
      if resolved.None? then
        SyncRun(c', None, w, pre, Fail(UnresolvableRef(ref, gitDir)))
      else if Status(w, resolved) == InSync then
        SyncRun(c', resolved, w, pre, Pass)
      else
        var u := UpdateSpec(w, resolved.value);
        SyncRun(c', resolved, u.worktree, pre + u.ops, Pass)
  }

  /** What `sync` does to a working directory that is not insync with
      `sha`, and the calls it makes doing it. */
  datatype Update = Update(worktree: Worktree, ops: seq<GitEffect>)

  /** Recreate the directory if the argument-less `status` says absent or
      mismatched, then reset it hard to `sha` and clean it. */
  function UpdateSpec(w: Worktree, sha: Sha): Update
  {
    var recreate := Status(w, None) in {Absent, Mismatched};
    var w1 := if recreate then EmptyDirectory else w;
    var ops := (if recreate then [RemoveEntry, MakeDir] else []) + [HardReset(sha), Clean];
    Update(AfterClean(AfterReset(w1, sha)), ops)
  }

  class StatefulRepository {
    const ref: string
    const gitDir: string
    var cache: Cache
    var worktree: Worktree
    var head: Option<Sha>
    var effects: seq<GitEffect>

    /** `initialize`: the cache is the shared one for the remote, handed in
        from the cache registry; `head` starts out nil. */
    constructor (ref: string, gitDir: string, cache: Cache, worktree: Worktree)
      ensures this.ref == ref && this.gitDir == gitDir
      ensures this.cache == cache && this.worktree == worktree
      ensures head == None && effects == []
    {
      this.ref := ref;
      this.gitDir := gitDir;
      this.cache := cache;
      this.worktree := worktree;
      head := None;
      effects := [];
    }

    /** `sync`: refresh the cache if needed, resolve the ref into `head`,
        and bring the working directory to that commit. */
    method Sync(fetch: FetchResult) returns (r: Outcome<SyncError>)
      modifies this
      ensures var s := SyncSpec(ref, gitDir, old(cache), old(head), old(worktree), fetch);
        cache == s.cache && head == s.head && worktree == s.worktree &&
        effects == old(effects) + s.effects && r == s.outcome
    {
      ghost var pre: seq<GitEffect> := [];
      if SyncCacheNeeded(cache, ref) {
        pre := [Fetch];
        effects := effects + [Fetch];
        if fetch.FetchFailed? {
          return Fail(FetchError);
        }
        cache := fetch.after;
      }

      head := Resolve(cache, ref);
      var sha := head;
      if sha.None? {
        return Fail(UnresolvableRef(ref, gitDir));
      }

      if Status(worktree, sha) == InSync {
        return Pass;
      }

      // r10k asks `status` twice here; nothing changes in between, so
      // both calls give the same answer.
      ghost var w0 := worktree;
      var current := Status(worktree, None);
      if current == Absent || current == Mismatched {
        RemoveEntrySecure();
        MkdirP();
      }
      ResetHard(sha.value);
      CleanForce();
      assert effects == (old(effects) + pre) + UpdateSpec(w0, sha.value).ops;
      ConcatAssoc(old(effects), pre, UpdateSpec(w0, sha.value).ops);
      r := Pass;
    }

    /** `FileUtils.remove_entry_secure(@worktree, true)`: removes the
        directory, and does not fail when it is not there. */
    method RemoveEntrySecure()
      modifies this
      ensures worktree == NoDirectory && effects == old(effects) + [RemoveEntry]
      ensures cache == old(cache) && head == old(head)
    {
      worktree := NoDirectory;
      effects := effects + [RemoveEntry];
    }

    /** `FileUtils.mkdir_p(@worktree)` on a path with nothing left in it. */
    method MkdirP()
      requires worktree == NoDirectory
      modifies this
      ensures worktree == EmptyDirectory && effects == old(effects) + [MakeDir]
      ensures cache == old(cache) && head == old(head)
    {
      worktree := EmptyDirectory;
      effects := effects + [MakeDir];
    }

    method ResetHard(sha: Sha)
      requires worktree.Directory?
      modifies this
      ensures worktree == AfterReset(old(worktree), sha) && effects == old(effects) + [HardReset(sha)]
      ensures cache == old(cache) && head == old(head)
    {
      worktree := AfterReset(worktree, sha);
      effects := effects + [HardReset(sha)];
    }

    method CleanForce()
      requires worktree.Directory?
      modifies this
      ensures worktree == AfterClean(old(worktree)) && effects == old(effects) + [Clean]
      ensures cache == old(cache) && head == old(head)
    {
      worktree := AfterClean(worktree);
      effects := effects + [Clean];
    }
  }

  // ---------------------------------------------------------------------
  // Properties of the classifier

  /** The argument-less `status` that `sync` asks before recreating the
      directory says absent or mismatched exactly when `status(sha)` does,
      and with the same value; it never says insync. */
  lemma ArglessStatusAgrees(w: Worktree, sha: Sha)
    ensures Status(w, None) in {Absent, Mismatched} <==> Status(w, Some(sha)) in {Absent, Mismatched}
    ensures Status(w, None) in {Absent, Mismatched} ==> Status(w, None) == Status(w, Some(sha))
    ensures Status(w, None) != InSync
  {
  }

  /** A `.git` in the working directory wins over a record that parsed and
      names the target. */
  lemma DotGitForcesMismatch(w: Worktree, target: Option<Sha>)
    requires w.Directory? && w.hasDotGit
    ensures Status(w, target) == Mismatched
  {
  }

  // ---------------------------------------------------------------------
  // Properties of sync

  /** The cache is refreshed exactly when `sync_cache?` holds, and the
      refresh comes before anything else. */
  lemma RefreshIffNeeded(ref: string, gitDir: string, c: Cache, head: Option<Sha>, w: Worktree, f: FetchResult)
    ensures var s := SyncSpec(ref, gitDir, c, head, w, f);
      (Fetch in s.effects <==> SyncCacheNeeded(c, ref)) &&
      (SyncCacheNeeded(c, ref) ==> s.effects[0] == Fetch) &&
      (forall i :: 0 < i < |s.effects| ==> s.effects[i] != Fetch)
  {
  }

  /** The shape of every run of `sync`: the cache changes only by a refresh
      that `sync_cache?` asked for; a run that returns leaves `head` at the
      ref's resolution in that cache; a directory that changes becomes a
      clean checkout of `head` with no deploy record. */
  lemma SyncShape(ref: string, gitDir: string, c: Cache, head: Option<Sha>, w: Worktree, f: FetchResult)
    ensures var s := SyncSpec(ref, gitDir, c, head, w, f);
      (s.cache != c ==> SyncCacheNeeded(c, ref) && f == Fetched(s.cache)) &&
      (s.outcome.Pass? ==> s.head.Some? && s.head == Resolve(s.cache, ref)) &&
      (s.worktree != w ==> s.worktree == Directory(Unreadable, false, s.head, false))
  {
  }

  /** The update of a directory that is not insync always ends in a clean
      checkout of `sha` without a deploy record; it recreates the directory
      exactly when `status(sha)` is absent or mismatched, and it always ends
      with the reset and then the clean. */
  lemma UpdateShape(w: Worktree, sha: Sha)
    ensures UpdateSpec(w, sha).worktree == Directory(Unreadable, false, Some(sha), false)
    ensures RemoveEntry in UpdateSpec(w, sha).ops <==> Status(w, Some(sha)) in {Absent, Mismatched}
    ensures var ops := UpdateSpec(w, sha).ops; |ops| >= 2 && ops[|ops| - 2..] == [HardReset(sha), Clean]
  {
    ArglessStatusAgrees(w, sha);
  }

  /** A failed refresh raises FetchError and leaves everything else as it was. */
  lemma FetchFailureChangesNothing(ref: string, gitDir: string, c: Cache, head: Option<Sha>, w: Worktree)
    requires SyncCacheNeeded(c, ref)
    ensures SyncSpec(ref, gitDir, c, head, w, FetchFailed) == SyncRun(c, head, w, [Fetch], Fail(FetchError))
  {
  }

  /** Unless the refresh fails, `head` becomes the resolution of the ref in
      the cache as the refresh left it, and `sync` raises
      UnresolvableRefError, carrying the ref and the git dir, exactly when
      that resolution is nil; it then does nothing to the working directory. */
  lemma HeadIsPostRefreshResolution(ref: string, gitDir: string, c: Cache, head: Option<Sha>, w: Worktree, f: FetchResult)
    requires !(SyncCacheNeeded(c, ref) && f.FetchFailed?)
    ensures var s := SyncSpec(ref, gitDir, c, head, w, f);
      var c' := if SyncCacheNeeded(c, ref) then f.after else c;
      s.cache == c' && s.head == Resolve(c', ref) &&
      (s.outcome == Fail(UnresolvableRef(ref, gitDir)) <==> s.head.None?) &&
      (s.head.None? ==> s.worktree == w && s.effects <= [Fetch])
  {
  }

  /** A ref that needs no refresh already resolves, so `sync` cannot fail. */
  lemma SkippedRefreshCannotFail(ref: string, gitDir: string, c: Cache, head: Option<Sha>, w: Worktree, f: FetchResult)
    requires !SyncCacheNeeded(c, ref)
    ensures var s := SyncSpec(ref, gitDir, c, head, w, f);
      s.outcome == Pass && s.cache == c && s.head == Resolve(c, ref) && s.head.Some?
  {
  }

  /** When `status(sha)` is insync, `sync` neither removes, creates, resets
      nor cleans anything: there is no defensive reset. */
  lemma InSyncTouchesNothing(ref: string, gitDir: string, c: Cache, head: Option<Sha>, w: Worktree, f: FetchResult)
    requires !(SyncCacheNeeded(c, ref) && f.FetchFailed?)
    requires var s := SyncSpec(ref, gitDir, c, head, w, f); s.head.Some? && Status(w, s.head) == InSync
    ensures var s := SyncSpec(ref, gitDir, c, head, w, f);
      s.outcome == Pass && s.worktree == w && s.effects <= [Fetch]
  {
  }

  /** The directory is removed and recreated exactly when `status(sha)` is
      absent or mismatched; an outdated directory is kept, and only reset
      then clean run on it. */
  lemma RecreateIffAbsentOrMismatched(ref: string, gitDir: string, c: Cache, head: Option<Sha>, w: Worktree, f: FetchResult)
    requires var s := SyncSpec(ref, gitDir, c, head, w, f); s.head.Some? && s.outcome == Pass
    ensures var s := SyncSpec(ref, gitDir, c, head, w, f);
      var pre := if SyncCacheNeeded(c, ref) then [Fetch] else [];
      var sha := s.head.value;
      (RemoveEntry in s.effects <==> Status(w, Some(sha)) in {Absent, Mismatched}) &&
      (Status(w, Some(sha)) in {Absent, Mismatched} ==>
        s.effects == pre + [RemoveEntry, MakeDir, HardReset(sha), Clean]) &&
      (Status(w, Some(sha)) == Outdated ==>
        s.effects == pre + [HardReset(sha), Clean] &&
        s.worktree == w.(checkout := Some(sha), record := Unreadable, strays := false))
  {
    var s := SyncSpec(ref, gitDir, c, head, w, f);
    var sha := s.head.value;
    var pre := if SyncCacheNeeded(c, ref) then [Fetch] else [];
    ArglessStatusAgrees(w, sha);
    if Status(w, Some(sha)) == InSync {
      assert s.effects == pre;
    } else {
      var u := UpdateSpec(w, sha);
      assert s.effects == pre + u.ops && s.worktree == u.worktree;
      assert RemoveEntry in s.effects <==> RemoveEntry in u.ops;
    }
  }

  /** After a sync that had to update the directory, the directory holds
      the target commit, no `.git` and no stray file, and also no deploy
      record: `git clean --force` removed it. Until a record is written
      again, every classification says mismatched. */
  lemma UpdatedTreeLosesRecord(ref: string, gitDir: string, c: Cache, head: Option<Sha>, w: Worktree, f: FetchResult, target: Option<Sha>)
    requires var s := SyncSpec(ref, gitDir, c, head, w, f);
      s.outcome == Pass && Status(w, s.head) != InSync
    ensures var s := SyncSpec(ref, gitDir, c, head, w, f);
      s.worktree == Directory(Unreadable, false, s.head, false) && Status(s.worktree, target) == Mismatched
  {
  }

  /** Writing a deploy record after a successful sync makes the directory
      insync with `head` exactly when the record's signature is `head`,
      and a later sync that needs no refresh then leaves it untouched. */
  lemma RecordAfterSyncIsInSync(ref: string, gitDir: string, c: Cache, head: Option<Sha>, w: Worktree, f: FetchResult, signature: Sha, f2: FetchResult)
    requires SyncSpec(ref, gitDir, c, head, w, f).outcome == Pass
    ensures var s := SyncSpec(ref, gitDir, c, head, w, f);
      s.head.Some? && s.worktree.Directory? && !s.worktree.hasDotGit &&
      (Status(WithRecord(s.worktree, signature), s.head) == InSync <==> s.head == Some(signature))
    ensures var s := SyncSpec(ref, gitDir, c, head, w, f);
      s.head == Some(signature) && !SyncCacheNeeded(s.cache, ref) ==>
        var s2 := SyncSpec(ref, gitDir, s.cache, s.head, WithRecord(s.worktree, signature), f2);
        s2.outcome == Pass && s2.effects == [] && s2.worktree == WithRecord(s.worktree, signature)
  {
  }

  /** Two syncs in a row on a ref that needs no refresh the second time end
      with the same working directory, head and cache, even though the
      second may rebuild the directory whose record the first one cleaned. */
  lemma SyncAgainConverges(ref: string, gitDir: string, c: Cache, head: Option<Sha>, w: Worktree, f1: FetchResult, f2: FetchResult)
    requires var s1 := SyncSpec(ref, gitDir, c, head, w, f1);
      s1.outcome == Pass && !SyncCacheNeeded(s1.cache, ref)
    ensures var s1 := SyncSpec(ref, gitDir, c, head, w, f1);
      var s2 := SyncSpec(ref, gitDir, s1.cache, s1.head, s1.worktree, f2);
      s2.outcome == Pass && s2.worktree == s1.worktree && s2.head == s1.head && s2.cache == s1.cache
  {
  }

  /** A stray untracked file in a directory whose record names the target
      survives `sync`, since an insync directory is not cleaned. */
  lemma StrayFileSurvivesInSync(ref: string, gitDir: string, c: Cache, head: Option<Sha>, sha: Sha, f: FetchResult)
    requires !SyncCacheNeeded(c, ref) && Resolve(c, ref) == Some(sha)
    ensures var w := Directory(Parsed(Some(sha)), false, Some(sha), true);
      SyncSpec(ref, gitDir, c, head, w, f).worktree == w
  {
  }

  /** A branch is refreshed even when it resolves in an existing mirror; a
      tag that already resolves there is not. */
  lemma BranchRefreshedTagNot(sha: Sha)
    ensures SyncCacheNeeded(Cache(true, map["main" := sha], map["main" := Branch]), "main")
    ensures !SyncCacheNeeded(Cache(true, map["v1.0.0" := sha], map["v1.0.0" := Tag]), "v1.0.0")
  {
  }
}
