# r10k module deploy: the Git state machine and the deploy traversal

This project models two pieces of r10k in Dafny and proves properties of them.

- **`R10K::Git::StatefulRepository`** (module `Git`, `git_stateful_repository.dfy`).
  It pins one working directory to a ref and checks it out from a mirror cache that every working directory on the same remote shares.
  - `status` sorts the directory into absent, mismatched, outdated or insync.
  - `sync_cache?` decides whether the mirror must be refreshed.
  - `sync` refreshes the mirror if needed and resolves the ref into `head`. It then leaves an insync directory alone. Otherwise it recreates an absent or mismatched directory, runs `git reset --hard` and then runs `git clean --force`.

  The mirror is a record of what `exist?`, `resolve` and `ref_type` answer. The working directory holds what `status` reads, the deploy record and a `.git`, together with what reset and clean change: the checked-out tree and any stray untracked files. Every state-changing call `sync` makes on the mirror, the filesystem or git (refresh, remove, mkdir, reset, clean) is appended to an effect log; the queries `exist?`, `resolve`, `ref_type` and the reads inside `status` are not logged. `sync` is a method on a class whose fields are the mirror, the working directory, `head` and the log. It is proved equal to the function `SyncSpec`, and the properties of `sync` are lemmas about `SyncSpec`.

- **`R10K::Action::Deploy::Module`** (module `Deploy`, `deploy_module.dfy`).
  This action walks a deployment, then its sources, environments, each environment's Puppetfile and that Puppetfile's modules. It skips environments other than the one `--environment` names. It syncs only the modules named on the command line and writes a `.r10k-deploy.json` record inside the directory of each module whose sync returned.

  The deployment tree is a value. Whether a Puppetfile's `load` or a module's `sync` raises is part of that tree. What the traversal does is appended to an event log:
  - loads, and loads that raised;
  - sync calls, and syncs that raised;
  - records written, with their contents.

  `Time.new` reads an abstract clock that ticks at every reading. The action is a class. Its `visit_*` methods are proved against functions of the tree and of the clock. Lemmas relate those functions to an independent reference: `SelectedModules`, the modules the filters let through, in tree order.

`wrappers.dfy` holds the `Option`, `Result` and `Outcome` datatypes. `seqs.dfy` holds a fact about sequence concatenation.

## Behaviour of r10k the model keeps

- An insync directory gets no defensive reset or clean (`lib/r10k/git/stateful_repository.rb:45-47`). A repeated `sync` is idempotent only in the sense proved by `Git.SyncAgainConverges`.
- `git clean --force` excludes nothing (`lib/r10k/git/stateful_repository.rb:58`). The deploy record therefore does not survive an update, unless the checked-out tree ignores it. The directory is mismatched until a record is written again (`Git.UpdatedTreeLosesRecord`).
- `head` is assigned before the unresolvable-ref check (`lib/r10k/git/stateful_repository.rb:39-43`). A failed resolution therefore leaves `head` nil.
- The record's `signature` is `mod.version` (`lib/r10k/action/deploy/module.rb:75`), not the commit that `sync` resolved.

## Model

| member | source | states |
|---|---|---|
| Git.Status | lib/r10k/git/stateful_repository.rb:62-85 | Absent exactly when there is no directory. Mismatched exactly when the deploy record cannot be read or parsed, or a `.git` is present. Outdated exactly when the record parsed, there is no `.git`, and the target is nil or differs from the signature. Insync exactly when the signature equals a given target. |
| Git.SyncCacheNeeded | lib/r10k/git/stateful_repository.rb:88-93 | The refresh may be skipped exactly when the mirror exists, the ref resolves in it, and the ref is a commit or a tag. Branches and unknown refs are always refreshed. |
| Git.SyncSpec | lib/r10k/git/stateful_repository.rb:36-60 | The run of `sync` from a given cache, `head`, directory and refresh result. A run that raises leaves the directory as it was. |
| Git.SyncShape | lib/r10k/git/stateful_repository.rb:36-60 | The cache changes only by a refresh `sync_cache?` asked for. A run that returns leaves `head` at the ref's resolution in that cache. A directory that changes becomes a clean checkout of `head` with no record. |
| Git.UpdateShape | lib/r10k/git/stateful_repository.rb:49-58 | The update of a directory that is not insync ends in a checkout of the target with no record, no `.git` and no stray files. It recreates the directory exactly when `status(sha)` is absent or mismatched, and always ends with the reset and then the clean. |
| Git.AfterReset | lib/r10k/git/stateful_repository.rb:55 | `reset --hard` replaces the checked-out tree with the target's. It keeps the deploy record, any `.git` and stray files. |
| Git.AfterClean | lib/r10k/git/stateful_repository.rb:58 | `clean --force` removes the untracked files the model tracks (the stray files and the deploy record, which is not excluded). It keeps the checked-out tree and any `.git`. |
| Git.WithRecord | lib/r10k/action/deploy/module.rb:71-81 | Writing a record makes it parse with the given signature. Nothing else in the directory changes. |
| Git.StatefulRepository.constructor | lib/r10k/git/stateful_repository.rb:26-34 | The repository starts on the given ref and shared cache, with `head` nil and no effects. |
| Git.StatefulRepository.Sync | lib/r10k/git/stateful_repository.rb:36-60 | The new cache, `head`, working directory and outcome are those of `SyncSpec`. The calls made are appended to the effect log in order. |
| Git.StatefulRepository.RemoveEntrySecure | lib/r10k/git/stateful_repository.rb:50 | The directory is gone, whether or not it was there (assuming the removal succeeds; see Left out). |
| Git.StatefulRepository.MkdirP | lib/r10k/git/stateful_repository.rb:51 | A fresh directory is empty: no record, no `.git`, no checkout. |
| Git.StatefulRepository.ResetHard | lib/r10k/git/stateful_repository.rb:55 | The directory becomes `AfterReset` of the old one, and the call is logged. |
| Git.StatefulRepository.CleanForce | lib/r10k/git/stateful_repository.rb:58 | The directory becomes `AfterClean` of the old one, and the call is logged. |
| Git.ArglessStatusAgrees | lib/r10k/git/stateful_repository.rb:45-49 | `status` without an argument says absent or mismatched exactly when `status(sha)` does, with the same value. It never says insync. |
| Git.DotGitForcesMismatch | lib/r10k/git/stateful_repository.rb:78-79 | A `.git` makes the directory mismatched whatever the record says and whatever the target. |
| Git.RefreshIffNeeded | lib/r10k/git/stateful_repository.rb:37 | `sync` refreshes the mirror exactly when `sync_cache?` holds. The refresh comes first and happens at most once. |
| Git.FetchFailureChangesNothing | lib/r10k/git/stateful_repository.rb:37 | A refresh that raises propagates before `head` is assigned, so `head` and the directory stay as they were. The mirror is assumed unchanged (see Left out). |
| Git.HeadIsPostRefreshResolution | lib/r10k/git/stateful_repository.rb:37-43 | `head` is the ref's resolution in the mirror as the refresh left it. `sync` raises UnresolvableRefError, carrying the ref and the git dir, exactly when that resolution is nil. It then leaves the directory untouched. |
| Git.SkippedRefreshCannotFail | lib/r10k/git/stateful_repository.rb:37-43 | When no refresh is needed the ref already resolves, so `sync` returns. |
| Git.InSyncTouchesNothing | lib/r10k/git/stateful_repository.rb:45-47 | An insync directory is neither removed, recreated, reset nor cleaned. |
| Git.RecreateIffAbsentOrMismatched | lib/r10k/git/stateful_repository.rb:49-58 | The directory is removed and recreated exactly when `status(sha)` is absent or mismatched. The exact call sequence is given for both cases. An outdated directory is kept and only reset, then cleaned. |
| Git.UpdatedTreeLosesRecord | lib/r10k/git/stateful_repository.rb:55-58 | After an update the directory holds the target commit, with no `.git`, none of the stray files the model tracks and no record. It classifies as mismatched for every target. |
| Git.RecordAfterSyncIsInSync | lib/r10k/git/stateful_repository.rb:36-85 | After a successful sync, writing a record makes the directory insync exactly when the record's signature is `head`. A following sync that needs no refresh then makes no call at all. |
| Git.SyncAgainConverges | lib/r10k/git/stateful_repository.rb:36-60 | A second sync on a ref that needs no refresh leaves the same directory, `head` and mirror as the first. |
| Git.StrayFileSurvivesInSync | lib/r10k/git/stateful_repository.rb:45-47 | A stray file in an insync directory survives `sync`. |
| Git.BranchRefreshedTagNot | lib/r10k/git/stateful_repository.rb:91 | A branch that resolves in an existing mirror is still refreshed. A tag that resolves there is not. |
| Deploy.VisitModuleSpec | lib/r10k/action/deploy/module.rb:50-61 | A module is synced exactly when its name is in `@argv`. The record is written only after the sync returns, right after it. It holds the module's name and version, a start time read before the sync and a finish time read when writing. A raising sync writes nothing. The test is `ModuleSelected` (module.rb:51). |
| Deploy.LoadBeforeModules | lib/r10k/action/deploy/module.rb:45-48 | `load` comes before any module of the Puppetfile. If it raises, no module is synced and no record is written. |
| Deploy.EnvironmentFilter | lib/r10k/action/deploy/module.rb:36-43 | An environment is visited exactly when no filter is set or the filter equals its dirname. A visited environment starts by loading its Puppetfile. A skipped one does nothing. The test is `EnvironmentSelected` (module.rb:37). |
| Deploy.EnvironmentCalls | lib/r10k/action/deploy/module.rb:36-60 | The modules an environment syncs are those its filter test and `@argv` select from a Puppetfile that loads. |
| Deploy.DeploymentCalls | lib/r10k/action/deploy/module.rb:28-60 | The modules a deploy syncs are exactly `SelectedModules`, in tree order. Deployment and source nodes always descend. |
| Deploy.DeploymentWritten | lib/r10k/action/deploy/module.rb:50-60 | The modules given a record are exactly the selected ones whose sync returned, in tree order. |
| Deploy.DeploymentRecordsFollowSyncs | lib/r10k/action/deploy/module.rb:55-57 | Throughout a deploy, every record comes right after the sync of its own module. It holds that module's name and version, with a start before its finish; that ordering holds because the model's clock ticks at every reading. |
| Deploy.EnvironmentQuietIff | lib/r10k/action/deploy/module.rb:36-60 | An environment's visit raises nowhere exactly when the filter skips it, or its Puppetfile loads and every module named in `@argv` syncs. |
| Deploy.QuietDeployment | lib/r10k/action/deploy/module.rb:28-60 | A deploy raises nowhere exactly when every environment the filter lets through loads and every selected module in it syncs. Unselected modules and skipped environments never decide the outcome. |
| Deploy.UnselectedFailureIgnored | lib/r10k/action/deploy/module.rb:50-60 | With `@argv` naming only module `a`, a module `b` whose sync would raise leaves the deploy free of raises. |
| Deploy.ModuleAction.constructor | lib/r10k/action/deploy/module.rb:13-14 | The action starts with the given options and clock, and an empty log. |
| Deploy.ModuleAction.Call | lib/r10k/action/deploy/module.rb:13-22 | The flag is set to true. A held write lock stops the action before anything is visited. Otherwise the log grows by the whole traversal, the result is the flag, and a deploy in which nothing raises returns true. |
| Deploy.ModuleAction.Now | lib/r10k/action/deploy/module.rb:52 | A clock reading returns the current time and advances the clock. |
| Deploy.ModuleAction.VisitDeployment | lib/r10k/action/deploy/module.rb:28-30 | The log grows by every source's traversal, in order, and the clock by their readings. |
| Deploy.ModuleAction.VisitSource | lib/r10k/action/deploy/module.rb:32-34 | The log grows by every environment's traversal, in order, and the clock by their readings. |
| Deploy.ModuleAction.VisitEnvironment | lib/r10k/action/deploy/module.rb:36-43 | The log grows by the Puppetfile's traversal, or not at all for an environment the filter rejects. |
| Deploy.ModuleAction.VisitPuppetfile | lib/r10k/action/deploy/module.rb:45-48 | The load is logged first, then either its failure or the traversal of every module. |
| Deploy.ModuleAction.VisitModules | lib/r10k/action/deploy/module.rb:47 | The block `visit_puppetfile` yields to visits every loaded module in order. |
| Deploy.ModuleAction.VisitModule | lib/r10k/action/deploy/module.rb:50-61 | The log grows by `ModuleEvents` of the module at the current time. The result says whether a selected module's sync raised. |
| Deploy.ModuleAction.WriteModuleInfo | lib/r10k/action/deploy/module.rb:67-82 | The record written names the module and its version, with the given start time and the time of writing. |

## Left out

- The git subprocesses (`reset --hard`, `clean --force`) and the mirror's fetch are abstract effects whose results are the functions above. A failing reset or clean is not modelled. Only a failing fetch is.
- Git.AfterClean: the `strays` flag stands only for the untracked, non-ignored files `git clean --force` removes. Ignored files and untracked directories, which that command leaves without `-x` and `-d`, are not part of the model.
- Failures of `write_module_info!` are not modelled: `require 'pry'`, `File.open` and `JSON.pretty_generate` may raise, but writing a record always succeeds in the model, and `Deploy.DeploymentWritten` depends on this.
- Git.FetchFailureChangesNothing: a failed refresh is assumed to leave the mirror unchanged. What `@cache.sync` leaves behind when it raises is decided by cache code that is not part of this model; a clone or fetch that dies partway may leave a new or partly updated mirror.
- Git.StatefulRepository.RemoveEntrySecure: a removal failure that `remove_entry_secure(@worktree, true)` swallows is not modelled. The model's removal always succeeds, so `Git.UpdateShape` promises no `.git` after an update; in r10k a swallowed failure lets reset and clean run on the old directory, and a `.git` there survives.
- Filesystem primitives (`remove_entry_secure`, `mkdir_p`, `File.directory?`, `File.exist?`, `File.open`) are represented only by the abstract working-directory state.
- JSON reading and writing are not modelled. Any read or parse failure is `Unreadable`. A parsed document gives its signature, or none when the key is missing or not a string. A document that parses but is not an object is treated as one without a signature, although r10k raises there, outside its rescue, when the document is null, a number, a boolean or an array. A JSON string gives nil or a substring, which classifies as outdated, as in the model.
- The cache registry and thin repository (`R10K::Git.cache.generate`, `R10K::Git.thin_repository`) are not part of this model. The shared mirror is handed to the constructor, so aliasing between repositories on one remote is not captured.
- `expect_config!`, `R10K::Deployment.new` and `check_write_lock!` are not part of this model. The lock check is a boolean parameter of `Call`, and a held lock yields `WriteLocked`.
- `R10K::Action::Visitor`, the `accept`/`yield` plumbing and its rescue, is not part of this model. Children are visited in order. A raising `load` or `sync` ends only that node, and siblings are still visited.
- Deploy.ModuleAction.Call: promises `true` only for a deploy in which nothing raises. The flag's value after a raise is left unconstrained, because the rescue that would clear it is not in these files.
- `binding.pry` and logging are left out. `binding.pry` (`lib/r10k/action/deploy/module.rb:69`) stops every record write at an interactive prompt; the model writes the record without stopping.
- `Time.new` is an abstract clock that ticks at every reading, not wall-clock time. `started_at` before `finished_at` in `RecordsFollowSyncs` holds because of that tick; the wall clock gives no such guarantee.
- Parallel module syncs and mirror locking are left out. The model is sequential.
- In `sync` the argument-less `status` is evaluated once, not twice, because nothing changes between the two calls.
