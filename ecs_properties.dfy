/**
 * Properties of the ECS client's operations, stated over `EcsSpec`.
 */
module EcsProperties {
  import opened Wrappers
  import opened RubyStrings
  import opened EcsConfig
  import opened EcsSpec

  // ---------------------------------------------------------------------------
  // At-most-once registration
  // ---------------------------------------------------------------------------

  /** How often `path` was registered in `trace`. */
  function RegisterCount(trace: seq<Event>, path: string): nat
    decreases |trace|
  {
    if trace == [] then 0
    else
      var e := trace[|trace| - 1];
      RegisterCount(trace[..|trace| - 1], path) + (if e.RegisterTaskDefinition? && e.path == path then 1 else 0)
  }

  /** Exactly the cached paths were registered, each of them once. */
  ghost predicate Consistent(run: Run) {
    forall p :: RegisterCount(run.trace, p) == (if p in run.cache then 1 else 0)
  }

  lemma {:induction false} RegisterCountAppend(t: seq<Event>, u: seq<Event>, path: string)
    ensures RegisterCount(t + u, path) == RegisterCount(t, path) + RegisterCount(u, path)
    decreases |u|
  {
    if u == [] {
      assert t + u == t;
    } else {
      var tu := t + u;
      assert tu[..|tu| - 1] == t + u[..|u| - 1];
      assert tu[|tu| - 1] == u[|u| - 1];
      RegisterCountAppend(t, u[..|u| - 1], path);
    }
  }

  /** Events that register nothing. */
  predicate NoRegistration(es: seq<Event>) {
    forall i :: 0 <= i < |es| ==> !es[i].RegisterTaskDefinition?
  }

  lemma {:induction false} RegisterCountNone(es: seq<Event>, path: string)
    requires NoRegistration(es)
    ensures RegisterCount(es, path) == 0
    decreases |es|
  {
    if es != [] {
      RegisterCountNone(es[..|es| - 1], path);
    }
  }

  /** Calls other than registrations keep the cache consistent with the trace. */
  lemma AppendOthers(run: Run, es: seq<Event>)
    requires NoRegistration(es)
    ensures Consistent(run) ==> Consistent(Run(run.cache, run.trace + es))
  {
    forall p ensures RegisterCount(run.trace + es, p) == RegisterCount(run.trace, p) {
      RegisterCountAppend(run.trace, es, p);
      RegisterCountNone(es, p);
    }
  }

  lemma ReadyConsistent(run: Run)
    ensures Consistent(run) ==> Consistent(ReadySpec(run))
  {
    AppendOthers(run, [Authenticate, UpdateSource]);
  }

  /** `create_task` registers a path only when it is not cached, and caches it. */
  lemma CreateTaskConsistent(ctx: Context, run: Run, path: string, id: string)
    ensures Consistent(run) ==> Consistent(CreateTaskSpec(ctx, run, path, id).0)
  {
    if Consistent(run) && path !in run.cache {
      var run' := CreateTaskSpec(ctx, run, path, id).0;
      var e := RegisterTaskDefinition(path, id);
      assert run'.trace == run.trace + [e];
      assert (run.trace + [e])[..|run.trace|] == run.trace;
      forall p ensures RegisterCount(run'.trace, p) == (if p in run'.cache then 1 else 0) {
        assert RegisterCount(run'.trace, p) == RegisterCount(run.trace, p) + (if p == path then 1 else 0);
      }
    }
  }

  lemma BuildConsistent(ctx: Context, run: Run, containers: seq<Value>, path: string, id: string)
    ensures Consistent(run) ==> Consistent(BuildSpec(ctx, run, containers, path, id).run)
  {
    AppendOthers(run, Pushes(ctx.env, containers, path, id));
  }

  // ---------------------------------------------------------------------------
  // One step of the scheduled loops
  // ---------------------------------------------------------------------------

  lemma TargetsFromStep(ctx: Context, id: string, filter: Filter, ts: seq<TargetConfig>, j: nat, s: Scan)
    requires j < |ts|
    ensures TargetsFrom(ctx, id, filter, ts[j..], Going(s)) == TargetsFrom(ctx, id, filter, ts[j + 1..], TargetStep(ctx, id, filter, ts[j], s))
  {
    assert ts[j..][1..] == ts[j + 1..];
  }

  lemma TargetsFromStopped(ctx: Context, id: string, filter: Filter, ts: seq<TargetConfig>, run: Run, e: Error)
    ensures TargetsFrom(ctx, id, filter, ts, Stopped(run, e)) == Stopped(run, e)
  {
  }

  lemma RulesFromStep(ctx: Context, id: string, filter: Filter, rules: seq<RuleConfig>, i: nat, s: Scan)
    requires i < |rules|
    ensures RulesFrom(ctx, id, filter, rules[i..], Going(s)) == RulesFrom(ctx, id, filter, rules[i + 1..], RuleStep(ctx, id, filter, rules[i], s))
  {
    assert rules[i..][1..] == rules[i + 1..];
  }

  lemma RulesFromStopped(ctx: Context, id: string, filter: Filter, rules: seq<RuleConfig>, run: Run, e: Error)
    ensures RulesFrom(ctx, id, filter, rules, Stopped(run, e)) == Stopped(run, e)
  {
  }

  // ---------------------------------------------------------------------------
  // Every operation only adds calls and cache entries
  // ---------------------------------------------------------------------------

  /** `run'` continues `run`: the trace is extended and cached entries are kept. */
  ghost predicate Grows(run: Run, run': Run) {
    |run.trace| <= |run'.trace| && run'.trace[..|run.trace|] == run.trace &&
    forall p :: p in run.cache ==> p in run'.cache && run'.cache[p] == run.cache[p]
  }

  lemma GrowsTrans(a: Run, b: Run, c: Run)
    requires Grows(a, b) && Grows(b, c)
    ensures Grows(a, c)
  {
    assert c.trace[..|a.trace|] == c.trace[..|b.trace|][..|a.trace|];
  }

  lemma AppendGrows(run: Run, es: seq<Event>)
    ensures Grows(run, Run(run.cache, run.trace + es))
  {
    assert (run.trace + es)[..|run.trace|] == run.trace;
  }

  /** The state a loop has reached, whether it goes on or has raised. */
  function RunOf(p: Progress): Run {
    if p.Going? then p.scan.run else p.run
  }

  /** What every operation guarantees: it extends the state and keeps it consistent. */
  ghost predicate Sound(run: Run, run': Run) {
    Grows(run, run') && (Consistent(run) ==> Consistent(run'))
  }

  lemma SoundTrans(a: Run, b: Run, c: Run)
    requires Sound(a, b) && Sound(b, c)
    ensures Sound(a, c)
  {
    GrowsTrans(a, b, c);
  }

  lemma CreateTaskSound(ctx: Context, run: Run, path: string, id: string)
    ensures Sound(run, CreateTaskSpec(ctx, run, path, id).0)
  {
    CreateTaskConsistent(ctx, run, path, id);
    if path !in run.cache {
      AppendGrows(run, [RegisterTaskDefinition(path, id)]);
    }
  }

  /** `create_task` adds at most its own path to the cache and changes no other entry. */
  lemma CreateTaskOthers(ctx: Context, run: Run, path: string, id: string)
    ensures var cache' := CreateTaskSpec(ctx, run, path, id).0.cache;
            forall q :: q != path ==> (q in cache' <==> q in run.cache) && (q in run.cache ==> cache'[q] == run.cache[q])
  {
  }

  lemma BuildSound(ctx: Context, run: Run, containers: seq<Value>, path: string, id: string)
    ensures Sound(run, BuildSpec(ctx, run, containers, path, id).run)
  {
    BuildConsistent(ctx, run, containers, path, id);
    AppendGrows(run, Pushes(ctx.env, containers, path, id));
  }

  lemma AppendSound(run: Run, es: seq<Event>)
    requires NoRegistration(es)
    ensures Sound(run, Run(run.cache, run.trace + es))
  {
    AppendOthers(run, es);
    AppendGrows(run, es);
  }

  lemma TargetStepSound(ctx: Context, id: string, filter: Filter, t: TargetConfig, s: Scan)
    ensures Sound(s.run, RunOf(TargetStep(ctx, id, filter, t, s)))
  {
    if TargetSelected(filter, t) {
      var built := if Present(filter.target) then BuildSpec(ctx, s.run, t.containers, t.path, id) else Outcome(s.run, Ok(()));
      if Present(filter.target) {
        BuildSound(ctx, s.run, t.containers, t.path, id);
      } else {
        AppendSound(s.run, []);
        assert s.run.trace + [] == s.run.trace;
      }
      if built.result.Ok? {
        CreateTaskSound(ctx, built.run, TargetPath(ctx, t.path), id);
        SoundTrans(s.run, built.run, CreateTaskSpec(ctx, built.run, TargetPath(ctx, t.path), id).0);
      }
    } else {
      AppendSound(s.run, []);
      assert s.run.trace + [] == s.run.trace;
    }
  }

  lemma {:induction false} TargetsFromSound(ctx: Context, id: string, filter: Filter, ts: seq<TargetConfig>, p: Progress)
    ensures Sound(RunOf(p), RunOf(TargetsFrom(ctx, id, filter, ts, p)))
    decreases |ts|
  {
    if ts == [] || p.Stopped? {
      AppendSound(RunOf(p), []);
      assert RunOf(p).trace + [] == RunOf(p).trace;
    } else {
      var q := TargetStep(ctx, id, filter, ts[0], p.scan);
      TargetStepSound(ctx, id, filter, ts[0], p.scan);
      TargetsFromSound(ctx, id, filter, ts[1..], q);
      SoundTrans(RunOf(p), RunOf(q), RunOf(TargetsFrom(ctx, id, filter, ts[1..], q)));
    }
  }

  lemma RuleStepSound(ctx: Context, id: string, filter: Filter, rule: RuleConfig, s: Scan)
    ensures Sound(s.run, RunOf(RuleStep(ctx, id, filter, rule, s)))
  {
    if RuleSelected(filter, rule) {
      var start := Going(Scan(s.run, [], s.arns));
      var q := TargetsFrom(ctx, id, filter, rule.targets, start);
      TargetsFromSound(ctx, id, filter, rule.targets, start);
      if q.Going? && q.scan.targets != [] {
        AppendSound(q.scan.run, [RuleUpdate(rule, q.scan.targets)]);
        SoundTrans(s.run, q.scan.run, RunOf(RuleStep(ctx, id, filter, rule, s)));
      }
    } else {
      AppendSound(s.run, []);
      assert s.run.trace + [] == s.run.trace;
    }
  }

  lemma {:induction false} RulesFromSound(ctx: Context, id: string, filter: Filter, rules: seq<RuleConfig>, p: Progress)
    ensures Sound(RunOf(p), RunOf(RulesFrom(ctx, id, filter, rules, p)))
    decreases |rules|
  {
    if rules == [] || p.Stopped? {
      AppendSound(RunOf(p), []);
      assert RunOf(p).trace + [] == RunOf(p).trace;
    } else {
      var q := RuleStep(ctx, id, filter, rules[0], p.scan);
      RuleStepSound(ctx, id, filter, rules[0], p.scan);
      RulesFromSound(ctx, id, filter, rules[1..], q);
      SoundTrans(RunOf(p), RunOf(q), RunOf(RulesFrom(ctx, id, filter, rules[1..], q)));
    }
  }

  /** `deploy_scheduled_tasks` only adds calls and cache entries, and registers each path at most once. */
  lemma ScheduledTasksSound(ctx: Context, run: Run, id: string, filter: Filter)
    ensures Sound(run, ScheduledTasksSpec(ctx, run, id, filter).run)
  {
    AppendSound(run, []);
    assert run.trace + [] == run.trace;
    if ctx.cluster in ctx.config && ctx.config[ctx.cluster].scheduledTasks.Some? {
      RulesFromSound(ctx, id, filter, ctx.config[ctx.cluster].scheduledTasks.value, Going(Scan(run, [], [])));
    }
  }

  /** Building and then registering only adds calls and cache entries. */
  lemma RegisterSound(ctx: Context, run: Run, containers: seq<Value>, path: string, taskPath: string, id: string)
    ensures var built := BuildSpec(ctx, run, containers, path, id);
            Sound(run, built.run) && Sound(run, CreateTaskSpec(ctx, built.run, taskPath, id).0)
  {
    var built := BuildSpec(ctx, run, containers, path, id);
    BuildSound(ctx, run, containers, path, id);
    CreateTaskSound(ctx, built.run, taskPath, id);
    SoundTrans(run, built.run, CreateTaskSpec(ctx, built.run, taskPath, id).0);
  }

  /** The service update and its cascade only add calls and cache entries. */
  lemma UpdateServiceSound(ctx: Context, run: Run, service: string, config: ServiceConfig, arn: string, id: string)
    requires ctx.cluster in ctx.config
    ensures Sound(run, UpdateServiceSpec(ctx, run, service, config, arn, id).run)
  {
    AppendSound(run, []);
    assert run.trace + [] == run.trace;
    if ctx.env.serviceExists(service) {
      var e := UpdateService(service, arn, ServiceParams(config.settings));
      var updated := Run(run.cache, run.trace + [e]);
      AppendSound(run, [e]);
      if ctx.config[ctx.cluster].scheduledTasksKey {
        ScheduledTasksSound(ctx, updated, id, DependFilter(service));
        SoundTrans(run, updated, ScheduledTasksSpec(ctx, updated, id, DependFilter(service)).run);
      }
    }
  }

  /** `deploy_service` only adds calls and cache entries, and registers each path at most once. */
  lemma DeployServiceSound(ctx: Context, run: Run, service: string, id: string)
    ensures Sound(run, DeployServiceSpec(ctx, run, service, id).run)
  {
    AppendSound(run, []);
    assert run.trace + [] == run.trace;
    var found := ServiceLookup(ctx, service);
    if found.Ok? {
      var config := found.value;
      var built := BuildSpec(ctx, run, config.containers, config.path, id);
      RegisterSound(ctx, run, config.containers, config.path, TaskPath(ctx, config.path), id);
      if built.result.Ok? {
        var (run', arn) := CreateTaskSpec(ctx, built.run, TaskPath(ctx, config.path), id);
        UpdateServiceSound(ctx, run', service, config, arn, id);
        SoundTrans(run, run', UpdateServiceSpec(ctx, run', service, config, arn, id).run);
      }
    }
  }

  /** The build, the registration and the run of a run-task entry only add calls and cache entries. */
  lemma RunConfiguredSound(ctx: Context, run: Run, config: RunTaskConfig, id: string)
    ensures Sound(run, RunConfiguredSpec(ctx, run, config, id).run)
  {
    var built := BuildSpec(ctx, run, config.containers, config.path, id);
    RegisterSound(ctx, run, config.containers, config.path, TaskPath(ctx, config.path), id);
    if built.result.Ok? {
      var (run', arn) := CreateTaskSpec(ctx, built.run, TaskPath(ctx, config.path), id);
      var options := RunTaskOptionsOf(config, ctx.env.roleArn);
      AppendSound(run', [ExecuteRunTask(arn, options)]);
      SoundTrans(run, run', Run(run'.cache, run'.trace + [ExecuteRunTask(arn, options)]));
    }
  }

  /** `deploy_run_task` only adds calls and cache entries, and registers each path at most once. */
  lemma DeployRunTaskSound(ctx: Context, run: Run, name: string, overrideContainer: Option<string>,
                           overrideCommand: Option<string>, id: string)
    ensures Sound(run, DeployRunTaskSpec(ctx, run, name, overrideContainer, overrideCommand, id).run)
  {
    AppendSound(run, []);
    assert run.trace + [] == run.trace;
    var found := RunTaskLookup(ctx, name);
    if found.Ok? {
      var over := Overridden(found.value, overrideContainer, overrideCommand);
      if over.Ok? {
        RunConfiguredSound(ctx, run, over.value, id);
      }
    }
  }
}
