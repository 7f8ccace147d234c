/** A model of R10K::Action::Deploy::Module: the visitor that walks a
    deployment (sources, their environments, each environment's
    Puppetfile, its modules), syncs the modules named on the command line
    and writes a deploy record inside the directory of each one whose
    sync returned.

    The deployment tree is a value. What the traversal does to the world
    (loading a Puppetfile, calling a module's sync, writing a record) is
    appended to an event log, and `Time.new` reads an abstract clock that
    ticks at every reading. Whether `puppetfile.load` or `mod.sync` raises
    is part of the tree, so those two calls are operations that may fail. */
module Deploy {
  import opened Wrappers
  import opened Seqs

  /** A module declared in a Puppetfile; `syncRaises` says whether its
      `sync` raises. */
  datatype PuppetModule = PuppetModule(name: string, path: string, version: string, syncRaises: bool)

  /** A Puppetfile; `modules` is what `load` makes enumerable, and
      `loadRaises` says whether `load` raises. */
  datatype Puppetfile = Puppetfile(loadRaises: bool, modules: seq<PuppetModule>)

  datatype Environment = Environment(dirname: string, puppetfile: Puppetfile)

  datatype Source = Source(environments: seq<Environment>)

  datatype Deployment = Deployment(sources: seq<Source>)

  /** The action's options: `@opts[:environment]` (None when unset) and
      `@argv`, the names of the modules to deploy. */
  datatype Opts = Opts(environment: Option<string>, argv: seq<string>)

  /** The contents of `.r10k-deploy.json` as `write_module_info!` builds
      them; the times are readings of the clock. */
  datatype DeployRecord = DeployRecord(moduleName: string, signature: string, startedAt: nat, finishedAt: nat)

  /** What the traversal does, in order. A record is written to the
      `.r10k-deploy.json` under the module's path. */
  datatype Event =
    | Load(dirname: string)
    | LoadRaised(dirname: string)
    | SyncCalled(mod: PuppetModule)
    | SyncRaised(mod: PuppetModule)
    | RecordWritten(mod: PuppetModule, record: DeployRecord)

  datatype ActionError = WriteLocked

  /** The test of `visit_environment`: its children are visited unless an
      environment filter is set and differs from the environment's dirname. */
  predicate EnvironmentSelected(opts: Opts, env: Environment)
  {
    opts.environment.None? || opts.environment.value == env.dirname
  }

  /** The test of `visit_module`: the module's name is in `@argv`. */
  predicate ModuleSelected(opts: Opts, m: PuppetModule)
  {
    m.name in opts.argv
  }

  // ---------------------------------------------------------------------
  // The traversal as a function of the tree

  /** The number of clock readings in an event log: one before each sync
      and one when each record is written. */
  function Ticks(evs: seq<Event>): nat
  {
    if evs == [] then 0
    else (if evs[0].SyncCalled? || evs[0].RecordWritten? then 1 else 0) + Ticks(evs[1..])
  }

  /** `visit_module` with the clock at `now`. */
  function ModuleEvents(opts: Opts, m: PuppetModule, now: nat): seq<Event>
  {
    if !ModuleSelected(opts, m) then []
    else if m.syncRaises then [SyncCalled(m), SyncRaised(m)]
    else [SyncCalled(m), RecordWritten(m, DeployRecord(m.name, m.version, now, now + 1))]
  }

  /** Visiting `children` in order, each one starting with the clock where
      the previous ones left it. */
  function VisitAll<T>(opts: Opts, children: seq<T>, visit: (Opts, T, nat) -> seq<Event>, now: nat): seq<Event>
    decreases |children|
  {
    if children == [] then []
    else
      var earlier := VisitAll(opts, children[..|children| - 1], visit, now);
      earlier + visit(opts, children[|children| - 1], now + Ticks(earlier))
  }

  /** `visit_puppetfile`: load first, then the modules. */
  function PuppetfileEvents(opts: Opts, dirname: string, pf: Puppetfile, now: nat): seq<Event>
  {
    [Load(dirname)] + if pf.loadRaises then [LoadRaised(dirname)] else VisitAll(opts, pf.modules, ModuleEvents, now)
  }

  /** `visit_environment`: the Puppetfile, or nothing at all. */
  function EnvironmentEvents(opts: Opts, env: Environment, now: nat): seq<Event>
  {
    if EnvironmentSelected(opts, env) then PuppetfileEvents(opts, env.dirname, env.puppetfile, now) else []
  }

  /** `visit_source`: always on to the environments. */
  function SourceEvents(opts: Opts, s: Source, now: nat): seq<Event>
  {
    VisitAll(opts, s.environments, EnvironmentEvents, now)
  }

  /** `visit_deployment`: always on to the sources. */
  function DeploymentEvents(opts: Opts, d: Deployment, now: nat): seq<Event>
  {
    VisitAll(opts, d.sources, SourceEvents, now)
  }

  // ---------------------------------------------------------------------
  // Views of a log, and the reference selection they are compared with

  /** The modules whose `sync` was called, in order. */
  function Calls(evs: seq<Event>): seq<PuppetModule>
  {
    if evs == [] then []
    else (if evs[0].SyncCalled? then [evs[0].mod] else []) + Calls(evs[1..])
  }

  /** The modules that were given a deploy record, in order. */
  function Written(evs: seq<Event>): seq<PuppetModule>
  {
    if evs == [] then []
    else (if evs[0].RecordWritten? then [evs[0].mod] else []) + Written(evs[1..])
  }

  /** The modules whose `sync` returns. */
  function NonRaising(ms: seq<PuppetModule>): seq<PuppetModule>
  {
    if ms == [] then [] else (if ms[0].syncRaises then [] else [ms[0]]) + NonRaising(ms[1..])
  }

  /** Nothing in the log raised. */
  predicate NoneRaised(evs: seq<Event>)
  {
    evs == [] || (!evs[0].SyncRaised? && !evs[0].LoadRaised? && NoneRaised(evs[1..]))
  }

  /** Every record is written right after the sync of its own module
      returned, names that module and its version, and was started before
      it finished. */
  predicate RecordsFollowSyncs(evs: seq<Event>)
  {
    forall q :: 0 <= q < |evs| && evs[q].RecordWritten? ==>
      0 < q && evs[q - 1] == SyncCalled(evs[q].mod) &&
      evs[q].record.moduleName == evs[q].mod.name &&
      evs[q].record.signature == evs[q].mod.version &&
      evs[q].record.startedAt < evs[q].record.finishedAt
  }

  /** The records written are those of the synced modules whose sync returned. */
  predicate WrittenIffReturned(evs: seq<Event>)
  {
    Written(evs) == NonRaising(Calls(evs))
  }

  /** The concatenation of `pick` over `xs`. */
  function Flatten<T>(opts: Opts, xs: seq<T>, pick: (Opts, T) -> seq<PuppetModule>): seq<PuppetModule>
    decreases |xs|
  {
    if xs == [] then [] else Flatten(opts, xs[..|xs| - 1], pick) + pick(opts, xs[|xs| - 1])
  }

  function PickModule(opts: Opts, m: PuppetModule): seq<PuppetModule>
  {
    if ModuleSelected(opts, m) then [m] else []
  }

  function PickEnvironment(opts: Opts, env: Environment): seq<PuppetModule>
  {
    if EnvironmentSelected(opts, env) && !env.puppetfile.loadRaises
    then Flatten(opts, env.puppetfile.modules, PickModule) else []
  }

  function PickSource(opts: Opts, s: Source): seq<PuppetModule>
  {
    Flatten(opts, s.environments, PickEnvironment)
  }

  /** The modules a deploy should sync, in tree order: those named in
      `@argv`, declared in a Puppetfile that loads, in an environment the
      filter lets through. */
  function SelectedModules(opts: Opts, d: Deployment): seq<PuppetModule>
  {
    Flatten(opts, d.sources, PickSource)
  }

  // ---------------------------------------------------------------------
  // Lemmas about logs

  lemma {:induction false} TicksAppend(a: seq<Event>, b: seq<Event>)
    ensures Ticks(a + b) == Ticks(a) + Ticks(b)
  {
    if a == [] {
      assert a + b == b;
    } else {
      var x, rest := a[0], a[1..];
      var head := if x.SyncCalled? || x.RecordWritten? then 1 else 0;
      assert (a + b)[0] == x && (a + b)[1..] == rest + b;
      assert Ticks(a + b) == head + Ticks(rest + b);
      TicksAppend(rest, b);
    }
  }

  lemma {:induction false} CallsAppend(a: seq<Event>, b: seq<Event>)
    ensures Calls(a + b) == Calls(a) + Calls(b)
  {
    if a == [] {
      assert a + b == b;
    } else {
      var x, rest := a[0], a[1..];
      var head := if x.SyncCalled? then [x.mod] else [];
      assert (a + b)[0] == x && (a + b)[1..] == rest + b;
      assert Calls(a + b) == head + Calls(rest + b);
      CallsAppend(rest, b);
      ConcatAssoc(head, Calls(rest), Calls(b));
    }
  }

  lemma {:induction false} WrittenAppend(a: seq<Event>, b: seq<Event>)
    ensures Written(a + b) == Written(a) + Written(b)
  {
    if a == [] {
      assert a + b == b;
    } else {
      var x, rest := a[0], a[1..];
      var head := if x.RecordWritten? then [x.mod] else [];
      assert (a + b)[0] == x && (a + b)[1..] == rest + b;
      assert Written(a + b) == head + Written(rest + b);
      WrittenAppend(rest, b);
      ConcatAssoc(head, Written(rest), Written(b));
    }
  }

  lemma {:induction false} NonRaisingAppend(a: seq<PuppetModule>, b: seq<PuppetModule>)
    ensures NonRaising(a + b) == NonRaising(a) + NonRaising(b)
  {
    if a == [] {
      assert a + b == b;
    } else {
      var x, rest := a[0], a[1..];
      var head := if x.syncRaises then [] else [x];
      assert (a + b)[0] == x && (a + b)[1..] == rest + b;
      assert NonRaising(a + b) == head + NonRaising(rest + b);
      NonRaisingAppend(rest, b);
      ConcatAssoc(head, NonRaising(rest), NonRaising(b));
    }
  }

  lemma WrittenIffReturnedAppend(a: seq<Event>, b: seq<Event>)
    requires WrittenIffReturned(a) && WrittenIffReturned(b)
    ensures WrittenIffReturned(a + b)
  {
    WrittenAppend(a, b);
    CallsAppend(a, b);
    NonRaisingAppend(Calls(a), Calls(b));
  }

  lemma RecordsFollowSyncsAppend(a: seq<Event>, b: seq<Event>)
    requires RecordsFollowSyncs(a) && RecordsFollowSyncs(b)
    ensures RecordsFollowSyncs(a + b)
  {
    forall q | 0 <= q < |a + b| && (a + b)[q].RecordWritten?
      ensures 0 < q && (a + b)[q - 1] == SyncCalled((a + b)[q].mod)
    {
      if q >= |a| {
        assert (a + b)[q] == b[q - |a|];
        assert (a + b)[q - 1] == b[q - |a| - 1];
      } else {
        assert (a + b)[q] == a[q];
      }
    }
  }

  /** A view that distributes over concatenation sees, in a traversal of
      `xs`, the concatenation of what it sees in each child. */
  lemma {:induction false} VisitAllCalls<T>(
    opts: Opts, xs: seq<T>, visit: (Opts, T, nat) -> seq<Event>, pick: (Opts, T) -> seq<PuppetModule>, now: nat)
    requires forall i, t :: 0 <= i < |xs| ==> Calls(visit(opts, xs[i], t)) == pick(opts, xs[i])
    ensures Calls(VisitAll(opts, xs, visit, now)) == Flatten(opts, xs, pick)
    decreases |xs|
  {
    if xs != [] {
      var init := xs[..|xs| - 1];
      forall i, t | 0 <= i < |init| ensures Calls(visit(opts, init[i], t)) == pick(opts, init[i]) {
        assert init[i] == xs[i];
      }
      VisitAllCalls(opts, init, visit, pick, now);
      var earlier := VisitAll(opts, init, visit, now);
      CallsAppend(earlier, visit(opts, xs[|xs| - 1], now + Ticks(earlier)));
    }
  }

  /** A property of logs that holds of the empty log, of each child's log
      whatever the clock, and of every concatenation of logs that have it,
      holds of a traversal. */
  lemma {:induction false} VisitAllPreserves<T>(
    opts: Opts, xs: seq<T>, visit: (Opts, T, nat) -> seq<Event>, p: seq<Event> -> bool, now: nat)
    requires p([])
    requires forall a, b :: p(a) && p(b) ==> p(a + b)
    requires forall i, t :: 0 <= i < |xs| ==> p(visit(opts, xs[i], t))
    ensures p(VisitAll(opts, xs, visit, now))
    decreases |xs|
  {
    if xs != [] {
      var init := xs[..|xs| - 1];
      forall i, t | 0 <= i < |init| ensures p(visit(opts, init[i], t)) {
        assert init[i] == xs[i];
      }
      VisitAllPreserves(opts, init, visit, p, now);
      var earlier := VisitAll(opts, init, visit, now);
      assert p(visit(opts, xs[|xs| - 1], now + Ticks(earlier)));
    }
  }

  /** A property closed under concatenation that every selected
      environment's log has holds of the whole deployment's log. */
  lemma DeploymentPreserves(opts: Opts, d: Deployment, p: seq<Event> -> bool, now: nat)
    requires p([])
    requires forall a, b :: p(a) && p(b) ==> p(a + b)
    requires forall i, j, t :: 0 <= i < |d.sources| && 0 <= j < |d.sources[i].environments| ==>
      p(EnvironmentEvents(opts, d.sources[i].environments[j], t))
    ensures p(DeploymentEvents(opts, d, now))
  {
    forall i, t | 0 <= i < |d.sources| ensures p(SourceEvents(opts, d.sources[i], t)) {
      VisitAllPreserves(opts, d.sources[i].environments, EnvironmentEvents, p, t);
    }
    VisitAllPreserves(opts, d.sources, SourceEvents, p, now);
  }

  // ---------------------------------------------------------------------
  // Properties of the traversal

  /** `visit_module`: `mod.sync` is called exactly when the module is named
      in `@argv`; the record is written only after it returns, holds the
      module's name and version, a start read before the sync and a finish
      read at write time; a raising sync writes nothing. */
  lemma VisitModuleSpec(opts: Opts, m: PuppetModule, now: nat)
    ensures ModuleEvents(opts, m, now) != [] <==> ModuleSelected(opts, m)
    ensures ModuleSelected(opts, m) ==> ModuleEvents(opts, m, now)[0] == SyncCalled(m)
    ensures Calls(ModuleEvents(opts, m, now)) == PickModule(opts, m)
    ensures Written(ModuleEvents(opts, m, now)) == if ModuleSelected(opts, m) && !m.syncRaises then [m] else []
    ensures ModuleSelected(opts, m) && !m.syncRaises ==>
      ModuleEvents(opts, m, now)[1] == RecordWritten(m, DeployRecord(m.name, m.version, now, now + 1))
    ensures Ticks(ModuleEvents(opts, m, now)) == if !ModuleSelected(opts, m) then 0 else if m.syncRaises then 1 else 2
    ensures WrittenIffReturned(ModuleEvents(opts, m, now))
    ensures RecordsFollowSyncs(ModuleEvents(opts, m, now))
    ensures NoneRaised(ModuleEvents(opts, m, now)) <==> !(ModuleSelected(opts, m) && m.syncRaises)
  {
    var evs := ModuleEvents(opts, m, now);
    if evs != [] {
      var a, b := [evs[0]], [evs[1]];
      assert evs == a + b;
      assert a[1..] == [] && b[1..] == [];
      NoneRaisedSplit(a, b);
      CallsAppend(a, b);
      WrittenAppend(a, b);
      TicksAppend(a, b);
      assert [m][1..] == [];
      assert NonRaising([m]) == (if m.syncRaises then [] else [m]) + NonRaising([]);
    }
  }

  /** The load events hold no sync, no record and no clock reading. */
  lemma LoadViews(dirname: string)
    ensures Calls([Load(dirname)]) == [] && Written([Load(dirname)]) == [] && Ticks([Load(dirname)]) == 0
    ensures Calls([LoadRaised(dirname)]) == [] && Written([LoadRaised(dirname)]) == [] && Ticks([LoadRaised(dirname)]) == 0
  {
    assert [Load(dirname)][1..] == [];
    assert [LoadRaised(dirname)][1..] == [];
  }

  /** `visit_puppetfile`: `load` comes first; if it raises, no module is
      visited. */
  lemma LoadBeforeModules(opts: Opts, dirname: string, pf: Puppetfile, now: nat)
    ensures var evs := PuppetfileEvents(opts, dirname, pf, now);
      evs[0] == Load(dirname) && Calls(evs) == Calls(evs[1..]) &&
      (pf.loadRaises ==> Calls(evs) == [] && Written(evs) == [])
  {
    var evs := PuppetfileEvents(opts, dirname, pf, now);
    LoadViews(dirname);
    CallsAppend([Load(dirname)], evs[1..]);
    WrittenAppend([Load(dirname)], evs[1..]);
    assert evs == [Load(dirname)] + evs[1..];
  }

  /** `visit_environment`: an environment the filter rejects is skipped
      entirely; one it lets through has its Puppetfile loaded. */
  lemma EnvironmentFilter(opts: Opts, env: Environment, now: nat)
    ensures EnvironmentEvents(opts, env, now) != [] <==> EnvironmentSelected(opts, env)
    ensures EnvironmentSelected(opts, env) ==> EnvironmentEvents(opts, env, now)[0] == Load(env.dirname)
  {
  }

  lemma EnvironmentCalls(opts: Opts, env: Environment, now: nat)
    ensures Calls(EnvironmentEvents(opts, env, now)) == PickEnvironment(opts, env)
  {
    if EnvironmentSelected(opts, env) && !env.puppetfile.loadRaises {
      forall i, t | 0 <= i < |env.puppetfile.modules|
        ensures Calls(ModuleEvents(opts, env.puppetfile.modules[i], t)) == PickModule(opts, env.puppetfile.modules[i])
      {
        VisitModuleSpec(opts, env.puppetfile.modules[i], t);
      }
      VisitAllCalls(opts, env.puppetfile.modules, ModuleEvents, PickModule, now);
      LoadViews(env.dirname);
      CallsAppend([Load(env.dirname)], VisitAll(opts, env.puppetfile.modules, ModuleEvents, now));
    } else if EnvironmentSelected(opts, env) {
      LoadViews(env.dirname);
      CallsAppend([Load(env.dirname)], [LoadRaised(env.dirname)]);
    }
  }

  /** The modules whose `sync` the deploy calls are exactly the selected
      ones, in tree order: sources and deployments always descend, the
      environment filter and `@argv` decide the rest. */
  lemma DeploymentCalls(opts: Opts, d: Deployment, now: nat)
    ensures Calls(DeploymentEvents(opts, d, now)) == SelectedModules(opts, d)
  {
    forall i, t | 0 <= i < |d.sources| ensures Calls(SourceEvents(opts, d.sources[i], t)) == PickSource(opts, d.sources[i]) {
      var envs := d.sources[i].environments;
      forall j, t' | 0 <= j < |envs| ensures Calls(EnvironmentEvents(opts, envs[j], t')) == PickEnvironment(opts, envs[j]) {
        EnvironmentCalls(opts, envs[j], t');
      }
      VisitAllCalls(opts, envs, EnvironmentEvents, PickEnvironment, t);
    }
    VisitAllCalls(opts, d.sources, SourceEvents, PickSource, now);
  }

  /** The modules given a deploy record are exactly the selected ones whose
      sync returned, in tree order. */
  lemma DeploymentWritten(opts: Opts, d: Deployment, now: nat)
    ensures Written(DeploymentEvents(opts, d, now)) == NonRaising(SelectedModules(opts, d))
  {
    forall a, b | WrittenIffReturned(a) && WrittenIffReturned(b) ensures WrittenIffReturned(a + b) {
      WrittenIffReturnedAppend(a, b);
    }
    forall i, j, t | 0 <= i < |d.sources| && 0 <= j < |d.sources[i].environments|
      ensures WrittenIffReturned(EnvironmentEvents(opts, d.sources[i].environments[j], t))
    {
      var pf := d.sources[i].environments[j].puppetfile;
      forall k, t' | 0 <= k < |pf.modules| ensures WrittenIffReturned(ModuleEvents(opts, pf.modules[k], t')) {
        VisitModuleSpec(opts, pf.modules[k], t');
      }
      VisitAllPreserves(opts, pf.modules, ModuleEvents, WrittenIffReturned, t);
      var dirname := d.sources[i].environments[j].dirname;
      WrittenIffReturnedAppend([Load(dirname)], VisitAll(opts, pf.modules, ModuleEvents, t));
      WrittenIffReturnedAppend([Load(dirname)], [LoadRaised(dirname)]);
    }
    DeploymentPreserves(opts, d, WrittenIffReturned, now);
    DeploymentCalls(opts, d, now);
  }

  /** Throughout a deploy, every record follows the sync of its own module
      and holds that module's name and version with a start before its
      finish. */
  lemma DeploymentRecordsFollowSyncs(opts: Opts, d: Deployment, now: nat)
    ensures RecordsFollowSyncs(DeploymentEvents(opts, d, now))
  {
    forall a, b | RecordsFollowSyncs(a) && RecordsFollowSyncs(b) ensures RecordsFollowSyncs(a + b) {
      RecordsFollowSyncsAppend(a, b);
    }
    forall i, j, t | 0 <= i < |d.sources| && 0 <= j < |d.sources[i].environments|
      ensures RecordsFollowSyncs(EnvironmentEvents(opts, d.sources[i].environments[j], t))
    {
      var pf := d.sources[i].environments[j].puppetfile;
      VisitAllPreserves(opts, pf.modules, ModuleEvents, RecordsFollowSyncs, t);
      var dirname := d.sources[i].environments[j].dirname;
      RecordsFollowSyncsAppend([Load(dirname)], VisitAll(opts, pf.modules, ModuleEvents, t));
    }
    DeploymentPreserves(opts, d, RecordsFollowSyncs, now);
  }

  /** A module raises nothing unless it is selected and its sync raises. */
  predicate ModuleQuiet(opts: Opts, m: PuppetModule)
  {
    ModuleSelected(opts, m) ==> !m.syncRaises
  }

  /** A Puppetfile that loads and whose selected modules all sync. */
  predicate PuppetfileQuiet(opts: Opts, pf: Puppetfile)
  {
    !pf.loadRaises && forall k :: 0 <= k < |pf.modules| ==> ModuleQuiet(opts, pf.modules[k])
  }

  /** An environment raises nothing if the filter skips it or its
      Puppetfile is quiet. */
  predicate EnvironmentQuiet(opts: Opts, env: Environment)
  {
    EnvironmentSelected(opts, env) ==> PuppetfileQuiet(opts, env.puppetfile)
  }

  predicate SourceQuiet(opts: Opts, s: Source)
  {
    forall j :: 0 <= j < |s.environments| ==> EnvironmentQuiet(opts, s.environments[j])
  }

  /** A traversal raises nowhere exactly when no child does, given a
      clock-independent test of whether a child raises. */
  lemma {:induction false} VisitAllQuiet<T>(
    opts: Opts, xs: seq<T>, visit: (Opts, T, nat) -> seq<Event>, quiet: (Opts, T) -> bool, now: nat)
    requires forall i, t :: 0 <= i < |xs| ==> (NoneRaised(visit(opts, xs[i], t)) <==> quiet(opts, xs[i]))
    ensures NoneRaised(VisitAll(opts, xs, visit, now)) <==> forall i :: 0 <= i < |xs| ==> quiet(opts, xs[i])
    decreases |xs|
  {
    if xs != [] {
      var init := xs[..|xs| - 1];
      forall i, t | 0 <= i < |init| ensures NoneRaised(visit(opts, init[i], t)) <==> quiet(opts, init[i]) {
        assert init[i] == xs[i];
      }
      VisitAllQuiet(opts, init, visit, quiet, now);
      var earlier := VisitAll(opts, init, visit, now);
      NoneRaisedSplit(earlier, visit(opts, xs[|xs| - 1], now + Ticks(earlier)));
      assert (forall i :: 0 <= i < |xs| ==> quiet(opts, xs[i])) <==>
        (forall i :: 0 <= i < |init| ==> quiet(opts, init[i])) && quiet(opts, xs[|xs| - 1]);
    }
  }

  /** An environment's visit raises nowhere exactly when it is quiet: a
      skipped environment loads nothing, and only selected modules sync. */
  lemma EnvironmentQuietIff(opts: Opts, env: Environment, now: nat)
    ensures NoneRaised(EnvironmentEvents(opts, env, now)) <==> EnvironmentQuiet(opts, env)
  {
    if EnvironmentSelected(opts, env) {
      var pf := env.puppetfile;
      PuppetfileFrame(opts, env.dirname, pf, now);
      forall k, t | 0 <= k < |pf.modules|
        ensures NoneRaised(ModuleEvents(opts, pf.modules[k], t)) <==> ModuleQuiet(opts, pf.modules[k])
      {
        VisitModuleSpec(opts, pf.modules[k], t);
      }
      VisitAllQuiet(opts, pf.modules, ModuleEvents, ModuleQuiet, now);
    }
  }

  /** A deploy raises nowhere exactly when every environment the filter
      lets through loads its Puppetfile and every module named in `@argv`
      there syncs: modules that are not selected and environments that are
      skipped never decide the outcome. */
  lemma QuietDeployment(opts: Opts, d: Deployment, now: nat)
    ensures NoneRaised(DeploymentEvents(opts, d, now)) <==>
      forall i, j :: 0 <= i < |d.sources| && 0 <= j < |d.sources[i].environments| ==>
        EnvironmentQuiet(opts, d.sources[i].environments[j])
  {
    forall i, t | 0 <= i < |d.sources|
      ensures NoneRaised(SourceEvents(opts, d.sources[i], t)) <==> SourceQuiet(opts, d.sources[i])
    {
      var envs := d.sources[i].environments;
      forall j, t' | 0 <= j < |envs| ensures NoneRaised(EnvironmentEvents(opts, envs[j], t')) <==> EnvironmentQuiet(opts, envs[j]) {
        EnvironmentQuietIff(opts, envs[j], t');
      }
      VisitAllQuiet(opts, envs, EnvironmentEvents, EnvironmentQuiet, t);
    }
    VisitAllQuiet(opts, d.sources, SourceEvents, SourceQuiet, now);
  }

  /** The example of a deploy restricted to one module: a module that is not
      named in `@argv` has a sync that would raise, yet the deploy raises
      nowhere. */
  lemma UnselectedFailureIgnored(a: PuppetModule, b: PuppetModule, now: nat)
    requires a.name != b.name && !a.syncRaises && b.syncRaises
    ensures var opts := Opts(None, [a.name]);
      var d := Deployment([Source([Environment("production", Puppetfile(false, [a, b]))])]);
      NoneRaised(DeploymentEvents(opts, d, now))
  {
    var opts := Opts(None, [a.name]);
    var d := Deployment([Source([Environment("production", Puppetfile(false, [a, b]))])]);
    QuietDeployment(opts, d, now);
    assert d.sources[0].environments[0].puppetfile.modules == [a, b];
  }

  // ---------------------------------------------------------------------
  // The action

  class ModuleAction {
    const opts: Opts
    var visitOk: bool
    var clock: nat
    var effects: seq<Event>

    constructor (opts: Opts, clock: nat)
      ensures this.opts == opts && this.clock == clock && effects == []
    {
      this.opts := opts;
      this.clock := clock;
      visitOk := true;
      effects := [];
    }

    /** `call`: set the flag, check the write lock, traverse the
        deployment, and return the flag. A held write lock stops the action
        before anything is visited. */
    method Call(d: Deployment, writeLocked: bool) returns (r: Result<bool, ActionError>)
      modifies this
      ensures writeLocked ==>
        r == Failure(WriteLocked) && visitOk && effects == old(effects) && clock == old(clock)
      ensures !writeLocked ==>
        r == Success(visitOk) &&
        effects == old(effects) + DeploymentEvents(opts, d, old(clock)) &&
        clock == old(clock) + Ticks(DeploymentEvents(opts, d, old(clock)))
      ensures !writeLocked && NoneRaised(DeploymentEvents(opts, d, old(clock))) ==> r == Success(true)
    {
      visitOk := true;
      if writeLocked {
        return Failure(WriteLocked);
      }
      VisitDeployment(d);
      r := Success(visitOk);
    }

    /** `Time.new`. */
    method Now() returns (t: nat)
      modifies this
      ensures t == old(clock) && clock == old(clock) + 1
      ensures effects == old(effects) && visitOk == old(visitOk)
    {
      t := clock;
      clock := clock + 1;
    }

    /** `visit_deployment`: on to every source. */
    method VisitDeployment(d: Deployment)
      modifies this
      ensures effects == old(effects) + DeploymentEvents(opts, d, old(clock))
      ensures clock == old(clock) + Ticks(DeploymentEvents(opts, d, old(clock)))
      ensures NoneRaised(DeploymentEvents(opts, d, old(clock))) ==> visitOk == old(visitOk)
    {
      var i := 0;
      while i < |d.sources|
        invariant 0 <= i <= |d.sources|
        invariant Progress(opts, d.sources, SourceEvents, i, old(effects), old(clock), old(visitOk), effects, clock, visitOk)
      {
        ghost var effects0, clock0, visitOk0 := effects, clock, visitOk;
        VisitSource(d.sources[i]);
        StepProgress(opts, d.sources, SourceEvents, i, old(effects), old(clock), old(visitOk),
          effects0, clock0, visitOk0, effects, clock, visitOk);
        i := i + 1;
      }
      assert d.sources[..i] == d.sources;
    }

    /** `visit_source`: on to every environment. */
    method VisitSource(s: Source)
      modifies this
      ensures effects == old(effects) + SourceEvents(opts, s, old(clock))
      ensures clock == old(clock) + Ticks(SourceEvents(opts, s, old(clock)))
      ensures NoneRaised(SourceEvents(opts, s, old(clock))) ==> visitOk == old(visitOk)
    {
      var i := 0;
      while i < |s.environments|
        invariant 0 <= i <= |s.environments|
        invariant Progress(opts, s.environments, EnvironmentEvents, i, old(effects), old(clock), old(visitOk), effects, clock, visitOk)
      {
        ghost var effects0, clock0, visitOk0 := effects, clock, visitOk;
        VisitEnvironment(s.environments[i]);
        StepProgress(opts, s.environments, EnvironmentEvents, i, old(effects), old(clock), old(visitOk),
          effects0, clock0, visitOk0, effects, clock, visitOk);
        i := i + 1;
      }
      assert s.environments[..i] == s.environments;
    }

    /** `visit_environment`: on to the Puppetfile unless the environment
        filter is set and names another environment. */
    method VisitEnvironment(env: Environment)
      modifies this
      ensures effects == old(effects) + EnvironmentEvents(opts, env, old(clock))
      ensures clock == old(clock) + Ticks(EnvironmentEvents(opts, env, old(clock)))
      ensures NoneRaised(EnvironmentEvents(opts, env, old(clock))) ==> visitOk == old(visitOk)
    {
      if opts.environment.Some? && opts.environment.value != env.dirname {
        // skipped: only the environment the filter names is updated
      } else {
        var loadRaised := VisitPuppetfile(env.dirname, env.puppetfile);
        if loadRaised {
          PuppetfileFrame(opts, env.dirname, env.puppetfile, old(clock));
          // The visitor's rescue decides what becomes of the flag.
          visitOk := *;
        }
      }
    }

    /** `visit_puppetfile`; returns whether `load` raised. */
    method VisitPuppetfile(dirname: string, pf: Puppetfile) returns (loadRaised: bool)
      modifies this
      ensures effects == old(effects) + PuppetfileEvents(opts, dirname, pf, old(clock))
      ensures clock == old(clock) + Ticks(PuppetfileEvents(opts, dirname, pf, old(clock)))
      ensures loadRaised == pf.loadRaises
      ensures NoneRaised(PuppetfileEvents(opts, dirname, pf, old(clock))) ==> visitOk == old(visitOk)
    {
      PuppetfileFrame(opts, dirname, pf, old(clock));
      if pf.loadRaises {
        effects := effects + [Load(dirname), LoadRaised(dirname)];
        return true;
      }
      effects := effects + [Load(dirname)];
      VisitModules(pf.modules);
      ConcatAssoc(old(effects), [Load(dirname)], VisitAll(opts, pf.modules, ModuleEvents, old(clock)));
      loadRaised := false;
    }

    /** The block `visit_puppetfile` yields to: every loaded module in turn. */
    method VisitModules(modules: seq<PuppetModule>)
      modifies this
      ensures effects == old(effects) + VisitAll(opts, modules, ModuleEvents, old(clock))
      ensures clock == old(clock) + Ticks(VisitAll(opts, modules, ModuleEvents, old(clock)))
      ensures NoneRaised(VisitAll(opts, modules, ModuleEvents, old(clock))) ==> visitOk == old(visitOk)
    {
      var i := 0;
      while i < |modules|
        invariant 0 <= i <= |modules|
        invariant Progress(opts, modules, ModuleEvents, i, old(effects), old(clock), old(visitOk), effects, clock, visitOk)
      {
        ghost var effects0, clock0, visitOk0 := effects, clock, visitOk;
        var raised := VisitModule(modules[i]);
        if raised {
          // The visitor's rescue decides what becomes of the flag.
          visitOk := *;
        }
        StepProgress(opts, modules, ModuleEvents, i, old(effects), old(clock), old(visitOk),
          effects0, clock0, visitOk0, effects, clock, visitOk);
        i := i + 1;
      }
      assert modules[..i] == modules;
    }

    /** `visit_module`; returns whether `mod.sync` raised. */
    method VisitModule(m: PuppetModule) returns (raised: bool)
      modifies this
      ensures effects == old(effects) + ModuleEvents(opts, m, old(clock))
      ensures clock == old(clock) + Ticks(ModuleEvents(opts, m, old(clock)))
      ensures raised <==> ModuleSelected(opts, m) && m.syncRaises
      ensures raised <==> !NoneRaised(ModuleEvents(opts, m, old(clock)))
      ensures visitOk == old(visitOk)
    {
      if m.name in opts.argv {
        var startedAt := Now();
        effects := effects + [SyncCalled(m)];
        if m.syncRaises {
          effects := effects + [SyncRaised(m)];
          ConcatAssoc(old(effects), [SyncCalled(m)], [SyncRaised(m)]);
          VisitModuleSpec(opts, m, old(clock));
          return true;
        }
        WriteModuleInfo(m, startedAt);
        ConcatAssoc(old(effects), [SyncCalled(m)], [RecordWritten(m, DeployRecord(m.name, m.version, startedAt, startedAt + 1))]);
      }
      VisitModuleSpec(opts, m, old(clock));
      raised := false;
    }

    /** `write_module_info!`: the record names the module and its version,
        with the start time it was given and the time of writing. */
    method WriteModuleInfo(m: PuppetModule, startedAt: nat)
      modifies this
      ensures effects == old(effects) + [RecordWritten(m, DeployRecord(m.name, m.version, startedAt, old(clock)))]
      ensures clock == old(clock) + 1 && visitOk == old(visitOk)
    {
      var finishedAt := Now();
      effects := effects + [RecordWritten(m, DeployRecord(m.name, m.version, startedAt, finishedAt))];
    }
  }

  lemma {:induction false} NoneRaisedSplit(a: seq<Event>, b: seq<Event>)
    ensures NoneRaised(a + b) <==> NoneRaised(a) && NoneRaised(b)
  {
    if a == [] {
      assert a + b == b;
    } else {
      assert (a + b)[1..] == a[1..] + b;
      NoneRaisedSplit(a[1..], b);
    }
  }

  /** After `i` children of a traversal that started with log `log0`,
      clock `clock0` and flag `ok0`: the log has grown by their events, the
      clock by their readings, and the flag is unchanged unless one raised. */
  ghost predicate Progress<T>(opts: Opts, xs: seq<T>, visit: (Opts, T, nat) -> seq<Event>, i: nat,
    log0: seq<Event>, clock0: nat, ok0: bool, log: seq<Event>, clock: nat, ok: bool)
    requires i <= |xs|
  {
    log == log0 + VisitAll(opts, xs[..i], visit, clock0) &&
    clock == clock0 + Ticks(VisitAll(opts, xs[..i], visit, clock0)) &&
    (NoneRaised(VisitAll(opts, xs[..i], visit, clock0)) ==> ok == ok0)
  }

  /** Visiting child `i` from state A to state B extends the progress by one. */
  lemma StepProgress<T>(opts: Opts, xs: seq<T>, visit: (Opts, T, nat) -> seq<Event>, i: nat,
    log0: seq<Event>, clock0: nat, ok0: bool, logA: seq<Event>, clockA: nat, okA: bool, logB: seq<Event>, clockB: nat, okB: bool)
    requires i < |xs|
    requires Progress(opts, xs, visit, i, log0, clock0, ok0, logA, clockA, okA)
    requires logB == logA + visit(opts, xs[i], clockA)
    requires clockB == clockA + Ticks(visit(opts, xs[i], clockA))
    requires NoneRaised(visit(opts, xs[i], clockA)) ==> okB == okA
    ensures Progress(opts, xs, visit, i + 1, log0, clock0, ok0, logB, clockB, okB)
  {
    var earlier := VisitAll(opts, xs[..i], visit, clock0);
    VisitAllStep(opts, xs, visit, clock0, i);
    TicksAppend(earlier, visit(opts, xs[i], clockA));
    NoneRaisedSplit(earlier, visit(opts, xs[i], clockA));
  }

  /** The load events of a Puppetfile read no clock; a raising load is a raise. */
  lemma PuppetfileFrame(opts: Opts, dirname: string, pf: Puppetfile, now: nat)
    ensures Ticks(PuppetfileEvents(opts, dirname, pf, now)) ==
      if pf.loadRaises then 0 else Ticks(VisitAll(opts, pf.modules, ModuleEvents, now))
    ensures NoneRaised(PuppetfileEvents(opts, dirname, pf, now)) <==>
      !pf.loadRaises && NoneRaised(VisitAll(opts, pf.modules, ModuleEvents, now))
    ensures pf.loadRaises ==> PuppetfileEvents(opts, dirname, pf, now) == [Load(dirname), LoadRaised(dirname)]
  {
    var rest := if pf.loadRaises then [LoadRaised(dirname)] else VisitAll(opts, pf.modules, ModuleEvents, now);
    LoadViews(dirname);
    TicksAppend([Load(dirname)], rest);
    NoneRaisedSplit([Load(dirname)], rest);
    assert [Load(dirname)][1..] == [] && [LoadRaised(dirname)][1..] == [];
  }

  /** One more child visited extends the log by that child's events. */
  lemma VisitAllStep<T>(opts: Opts, xs: seq<T>, visit: (Opts, T, nat) -> seq<Event>, now: nat, i: nat)
    requires i < |xs|
    ensures VisitAll(opts, xs[..i + 1], visit, now) ==
      VisitAll(opts, xs[..i], visit, now) + visit(opts, xs[i], now + Ticks(VisitAll(opts, xs[..i], visit, now)))
  {
    assert xs[..i + 1][..i] == xs[..i];
  }
}
