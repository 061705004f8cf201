/**
 * `Genova::Ecs::Client`: one client per deployment, holding the
 * registration cache `@task_definitions` and making the calls of a deploy
 * in order.  The calls are recorded in the ghost `trace`; each method is
 * proved to leave the state, and to return, what its function in `EcsSpec`
 * says.
 */
module Ecs {
  import opened Wrappers
  import opened RubyStrings
  import opened EcsConfig
  import opened EcsSpec
  import opened EcsProperties

  class Client {
    const ctx: Context
    var taskDefinitions: map<string, string>
    ghost var trace: seq<Event>

    ghost function State(): Run
      reads this
    {
      Run(taskDefinitions, trace)
    }

    /** Every registered path is cached, and registered once. */
    ghost predicate Valid()
      reads this
    {
      Consistent(State())
    }

    constructor(ctx: Context)
      ensures this.ctx == ctx
      ensures taskDefinitions == map[] && trace == []
      ensures Valid()
    {
      this.ctx := ctx;
      taskDefinitions := map[];
      trace := [];
    }

    method Ready()
      modifies this
      ensures State() == ReadySpec(old(State()))
      ensures old(Valid()) ==> Valid()
    {
      ReadyConsistent(State());
      trace := trace + [Authenticate, UpdateSource];
    }

    method CreateTask(path: string, id: string) returns (arn: string)
      modifies this
      ensures (State(), arn) == CreateTaskSpec(ctx, old(State()), path, id)
      ensures old(Valid()) ==> Valid()
    {
      CreateTaskConsistent(ctx, State(), path, id);
      if path !in taskDefinitions {
        taskDefinitions := taskDefinitions[path := ctx.env.register(path, id)];
        trace := trace + [RegisterTaskDefinition(path, id)];
      }
      arn := taskDefinitions[path];
    }

    method Build(containers: seq<Value>, path: string, id: string) returns (r: Result<(), Error>)
      modifies this
      ensures Outcome(State(), r) == BuildSpec(ctx, old(State()), containers, path, id)
      ensures old(Valid()) ==> Valid()
    {
      BuildConsistent(ctx, State(), containers, path, id);
      var count := 0;
      var i := 0;
      while i < |containers|
        invariant 0 <= i <= |containers| && count == i
        invariant taskDefinitions == old(taskDefinitions)
        invariant trace == old(trace) + Pushes(ctx.env, containers[..i], path, id)
      {
        var image := ctx.env.buildImage(containers[i], path);
        assert Pushes(ctx.env, containers[..i + 1], path, id) == Pushes(ctx.env, containers[..i], path, id) + [PushImage(id, image)];
        trace := trace + [PushImage(id, image)];
        count := count + 1;
        i := i + 1;
      }
      assert containers[..i] == containers;
      if count == 0 {
        return Err(ValidationError(NoImage));
      }
      r := Ok(());
    }

    method DeployRunTask(name: string, overrideContainer: Option<string>, overrideCommand: Option<string>, id: string)
      returns (r: Result<seq<string>, Error>)
      modifies this
      ensures Outcome(State(), r) == DeployRunTaskSpec(ctx, old(State()), name, overrideContainer, overrideCommand, id)
      ensures old(Valid()) ==> Valid()
    {
      var found := RunTaskLookup(ctx, name);
      if found.Err? {
        return Err(found.error);
      }
      var overridden := Overridden(found.value, overrideContainer, overrideCommand);
      if overridden.Err? {
        return Err(overridden.error);
      }
      r := RunConfigured(overridden.value, id);
    }

    /** The build, the registration and the run of `deploy_run_task` for the entry `config`. */
    method RunConfigured(config: RunTaskConfig, id: string) returns (r: Result<seq<string>, Error>)
      modifies this
      ensures Outcome(State(), r) == RunConfiguredSpec(ctx, old(State()), config, id)
      ensures old(Valid()) ==> Valid()
    {
      var built := Build(config.containers, config.path, id);
      if built.Err? {
        return Err(built.error);
      }
      var arn := CreateTask(TaskPath(ctx, config.path), id);
      var options := RunTaskOptionsOf(config, ctx.env.roleArn);
      AppendOthers(State(), [ExecuteRunTask(arn, options)]);
      trace := trace + [ExecuteRunTask(arn, options)];
      r := Ok(ctx.env.runTask(arn, options));
    }

    method DeployService(service: string, id: string) returns (r: Result<string, Error>)
      modifies this
      ensures Outcome(State(), r) == DeployServiceSpec(ctx, old(State()), service, id)
      ensures old(Valid()) ==> Valid()
    {
      var found := ServiceLookup(ctx, service);
      if found.Err? {
        return Err(found.error);
      }
      var config := found.value;
      var built := Build(config.containers, config.path, id);
      if built.Err? {
        return Err(built.error);
      }
      var arn := CreateTask(TaskPath(ctx, config.path), id);
      r := UpdateRegistered(service, config, arn, id);
    }

    /** The service update of `deploy_service`, and the cascade to the scheduled tasks. */
    method UpdateRegistered(service: string, config: ServiceConfig, arn: string, id: string) returns (r: Result<string, Error>)
      requires ctx.cluster in ctx.config
      modifies this
      ensures Outcome(State(), r) == UpdateServiceSpec(ctx, old(State()), service, config, arn, id)
      ensures old(Valid()) ==> Valid()
    {
      var cluster := ctx.config[ctx.cluster];
      if !ctx.env.serviceExists(service) {
        return Err(ValidationError(NotRegistered(service)));
      }
      var params := ServiceParams(config.settings);
      AppendOthers(State(), [UpdateService(service, arn, params)]);
      trace := trace + [UpdateService(service, arn, params)];
      if cluster.scheduledTasksKey {
        var cascade := DeployScheduledTasks(id, DependFilter(service));
        if cascade.Err? {
          return Err(cascade.error);
        }
      }
      r := Ok(arn);
    }

    method DeployScheduledTask(rule: Option<string>, target: Option<string>, id: string) returns (r: Result<seq<string>, Error>)
      modifies this
      ensures Outcome(State(), r) == DeployScheduledTaskSpec(ctx, old(State()), rule, target, id)
      ensures old(Valid()) ==> Valid()
    {
      r := DeployScheduledTasks(id, Filter(rule, target, None));
    }

    /** One target of the loop: skipped, or built (with a target filter), registered and collected. */
    method CollectTarget(id: string, filter: Filter, t: TargetConfig, targets: seq<TargetPayload>, arns: seq<string>)
      returns (r: Result<(seq<TargetPayload>, seq<string>), Error>)
      modifies this
      ensures var q := TargetStep(ctx, id, filter, t, Scan(old(State()), targets, arns));
              if q.Stopped? then r == Err(q.error) && State() == q.run
              else r == Ok((q.scan.targets, q.scan.arns)) && State() == q.scan.run
      ensures old(Valid()) ==> Valid()
    {
      if !TargetSelected(filter, t) {
        return Ok((targets, arns));
      }
      if Present(filter.target) {
        var built := Build(t.containers, t.path, id);
        if built.Err? {
          return Err(built.error);
        }
      }
      var arn := CreateTask(TargetPath(ctx, t.path), id);
      r := Ok((targets + [TargetPayload(ctx.cluster, t.name, TargetValuesOf(t, arn, ctx.env.roleArn))], arns + [arn]));
    }

    /** The targets loop of one rule, from the collected `targets` and `arns` on. */
    method CollectTargets(id: string, filter: Filter, ts: seq<TargetConfig>, targets0: seq<TargetPayload>, arns0: seq<string>)
      returns (r: Result<(seq<TargetPayload>, seq<string>), Error>)
      modifies this
      ensures var p := TargetsFrom(ctx, id, filter, ts, Going(Scan(old(State()), targets0, arns0)));
              if p.Stopped? then r == Err(p.error) && State() == p.run
              else r == Ok((p.scan.targets, p.scan.arns)) && State() == p.scan.run
      ensures old(Valid()) ==> Valid()
    {
      ghost var goal := TargetsFrom(ctx, id, filter, ts, Going(Scan(State(), targets0, arns0)));
      var targets := targets0;
      var arns := arns0;
      var j := 0;
      while j < |ts|
        invariant 0 <= j <= |ts|
        invariant TargetsFrom(ctx, id, filter, ts[j..], Going(Scan(State(), targets, arns))) == goal
        invariant old(Valid()) ==> Valid()
      {
        ghost var before := Scan(State(), targets, arns);
        TargetsFromStep(ctx, id, filter, ts, j, before);
        var step := CollectTarget(id, filter, ts[j], targets, arns);
        if step.Err? {
          TargetsFromStopped(ctx, id, filter, ts[j + 1..], State(), step.error);
          return Err(step.error);
        }
        targets, arns := step.value.0, step.value.1;
        j := j + 1;
      }
      r := Ok((targets, arns));
    }

    method DeployScheduledTasks(id: string, filter: Filter) returns (r: Result<seq<string>, Error>)
      modifies this
      ensures Outcome(State(), r) == ScheduledTasksSpec(ctx, old(State()), id, filter)
      ensures old(Valid()) ==> Valid()
    {
      var found := ClusterLookup(ctx);
      if found.Err? {
        return Err(found.error);
      }
      if found.value.scheduledTasks.None? {
        return Err(NoMethodOnNil("each"));
      }
      var rules := found.value.scheduledTasks.value;
      var arns: seq<string> := [];
      var i := 0;
      while i < |rules|
        invariant 0 <= i <= |rules|
        invariant RulesFrom(ctx, id, filter, rules[i..], Going(Scan(State(), [], arns)))
               == RulesFrom(ctx, id, filter, rules, Going(Scan(old(State()), [], [])))
        invariant old(Valid()) ==> Valid()
      {
        var rule := rules[i];
        ghost var before := Scan(State(), [], arns);
        RulesFromStep(ctx, id, filter, rules, i, before);
        if RuleSelected(filter, rule) {
          var collected := CollectTargets(id, filter, rule.targets, [], arns);
          if collected.Err? {
            assert RuleStep(ctx, id, filter, rule, before) == Stopped(State(), collected.error);
            RulesFromStopped(ctx, id, filter, rules[i + 1..], State(), collected.error);
            return Err(collected.error);
          }
          var (targets, arns') := collected.value;
          arns := arns';
          if |targets| != 0 {
            AppendOthers(State(), [RuleUpdate(rule, targets)]);
            trace := trace + [RuleUpdate(rule, targets)];
          }
        }
        assert RuleStep(ctx, id, filter, rule, before) == Going(Scan(State(), [], arns));
        i := i + 1;
      }
      if Present(filter.rule) && |arns| == 0 {
        return Err(ValidationError(NoTarget));
      }
      r := Ok(arns);
    }
  }
}
