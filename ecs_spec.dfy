/**
 * What the ECS client does, as functions of its state.  The state is the
 * registration cache (`@task_definitions`) and the trace of calls the client
 * has made to Docker, ECR and ECS.  The external services are the fields of
 * an `Env`; nothing is assumed about them, so every property holds for every
 * environment.  An operation ends with the new state and either its value
 * or the error it raised; state changes made before a raise are kept, as in
 * the source.
 */
module EcsSpec {
  import opened Wrappers
  import opened RubyStrings
  import opened Paths
  import opened CodeManager
  import opened EcsConfig

  /** The services the client calls, as functions of their arguments. */
  datatype Env = Env(
    buildImage: (Value, string) -> string,             // Docker: the image built for a container of a definition
    register: (string, string) -> string,              // ECS: the ARN of a task definition registered with a tag
    roleArn: Value -> string,                          // IAM: the ARN of a role
    serviceExists: string -> bool,                     // ECS: whether the service exists in the cluster
    runTask: (string, RunTaskOptions) -> seq<string>)  // ECS: the result of running a task

  /** A call the client makes to the outside. */
  datatype Event =
    | Authenticate
    | UpdateSource
    | PushImage(tag: string, image: string)
    | RegisterTaskDefinition(path: string, tag: string)
    | UpdateService(service: string, arn: string, params: map<string, Value>)
    | ExecuteRunTask(arn: string, options: RunTaskOptions)
    | UpdateRule(rule: Value, expression: Value, targets: seq<TargetPayload>, enabled: Value, description: Value)

  /** What a client is built with: its cluster, the deploy configuration, the code manager's paths. */
  datatype Context = Context(cluster: string, config: map<string, ClusterConfig>, basePath: string, cwd: seq<string>, env: Env)

  /** The client's state: the registration cache and the calls made so far. */
  datatype Run = Run(cache: map<string, string>, trace: seq<Event>)

  /** The state after an operation and what it returned or raised. */
  datatype Outcome<T> = Outcome(run: Run, result: Result<T, Error>)

  /** The filters of `deploy_scheduled_tasks`. */
  datatype Filter = Filter(rule: Option<string>, target: Option<string>, dependService: Option<string>)

  // ---------------------------------------------------------------------------
  // The deploy configuration
  // ---------------------------------------------------------------------------

  function ClusterLookup(ctx: Context): Result<ClusterConfig, Error> {
    if ctx.cluster in ctx.config then Ok(ctx.config[ctx.cluster]) else Err(UndefinedConfig("cluster", ctx.cluster))
  }

  function ServiceLookup(ctx: Context, service: string): (r: Result<ServiceConfig, Error>)
    ensures r.Ok? ==> ctx.cluster in ctx.config
  {
    match ClusterLookup(ctx)
    case Err(e) => Err(e)
    case Ok(c) => if service in c.services then Ok(c.services[service]) else Err(UndefinedConfig("service", service))
  }

  function RunTaskLookup(ctx: Context, name: string): Result<RunTaskConfig, Error> {
    match ClusterLookup(ctx)
    case Err(e) => Err(e)
    case Ok(c) => if name in c.runTasks then Ok(c.runTasks[name]) else Err(UndefinedConfig("run_task", name))
  }

  /** The task-definition file of a service or run task: "config/<path>" beneath the base path. */
  function TaskPath(ctx: Context, path: string): string {
    TaskDefinitionConfigPath(ctx.basePath, "config/" + path, ctx.cwd)
  }

  /** The task-definition file of a scheduled target: expanded from "<base path>/config". */
  function TargetPath(ctx: Context, path: string): string {
    ExpandFrom(path, JoinPath(ctx.basePath, "config"), ctx.cwd)
  }

  // ---------------------------------------------------------------------------
  // create_task and build
  // ---------------------------------------------------------------------------

  /** `create_task`: a path already in the cache is not registered again. */
  function CreateTaskSpec(ctx: Context, run: Run, path: string, id: string): (r: (Run, string))
    ensures path in r.0.cache && r.1 == r.0.cache[path]
    ensures path in run.cache ==> r.0 == run
    ensures path !in run.cache ==>
              r.1 == ctx.env.register(path, id) && r.0.trace == run.trace + [RegisterTaskDefinition(path, id)]
  {
    if path in run.cache then (run, run.cache[path])
    else
      var arn := ctx.env.register(path, id);
      (Run(run.cache[path := arn], run.trace + [RegisterTaskDefinition(path, id)]), arn)
  }

  /** The image pushes of a build, one per container, in order, each tagged `id`. */
  function Pushes(env: Env, containers: seq<Value>, path: string, id: string): (r: seq<Event>)
    ensures |r| == |containers|
    ensures forall i :: 0 <= i < |r| ==> r[i] == PushImage(id, env.buildImage(containers[i], path))
  {
    seq(|containers|, i requires 0 <= i < |containers| => PushImage(id, env.buildImage(containers[i], path)))
  }

  const NoImage := "Push image is not found."

  /** `build`: every container is built and pushed; no container at all is an error. */
  function BuildSpec(ctx: Context, run: Run, containers: seq<Value>, path: string, id: string): (r: Outcome<()>)
    ensures r.run.cache == run.cache
    ensures r.run.trace == run.trace + Pushes(ctx.env, containers, path, id)
    ensures r.result.Err? <==> |containers| == 0
    ensures r.result.Err? ==> r.result.error == ValidationError(NoImage)
  {
    var run' := Run(run.cache, run.trace + Pushes(ctx.env, containers, path, id));
    Outcome(run', if |containers| == 0 then Err(ValidationError(NoImage)) else Ok(()))
  }

  // ---------------------------------------------------------------------------
  // deploy_scheduled_tasks
  // ---------------------------------------------------------------------------

  predicate RuleSelected(filter: Filter, rule: RuleConfig) {
    !Present(filter.rule) || Is(rule.rule, filter.rule.value)
  }

  predicate TargetSelected(filter: Filter, target: TargetConfig) {
    (!Present(filter.dependService) || Is(target.dependService, filter.dependService.value)) &&
    (!Present(filter.target) || Is(target.name, filter.target.value))
  }

  /** The loop variables: the state, the targets of the current rule, the ARNs so far. */
  datatype Scan = Scan(run: Run, targets: seq<TargetPayload>, arns: seq<string>)

  /** A loop either goes on or has raised. */
  datatype Progress = Going(scan: Scan) | Stopped(run: Run, error: Error)

  /** One target: skipped, or built (with a target filter), registered and collected. */
  function TargetStep(ctx: Context, id: string, filter: Filter, t: TargetConfig, s: Scan): Progress {
    if !TargetSelected(filter, t) then Going(s)
    else
      var built := if Present(filter.target) then BuildSpec(ctx, s.run, t.containers, t.path, id) else Outcome(s.run, Ok(()));
      if built.result.Err? then Stopped(built.run, built.result.error)
      else
        var (run', arn) := CreateTaskSpec(ctx, built.run, TargetPath(ctx, t.path), id);
        Going(Scan(run', s.targets + [TargetPayload(ctx.cluster, t.name, TargetValuesOf(t, arn, ctx.env.roleArn))], s.arns + [arn]))
  }

  /** The targets loop from `p` on, over `ts`. */
  function TargetsFrom(ctx: Context, id: string, filter: Filter, ts: seq<TargetConfig>, p: Progress): Progress
    decreases |ts|
  {
    if ts == [] || p.Stopped? then p
    else TargetsFrom(ctx, id, filter, ts[1..], TargetStep(ctx, id, filter, ts[0], p.scan))
  }

  /** The update of a rule with the targets collected for it. */
  function RuleUpdate(rule: RuleConfig, targets: seq<TargetPayload>): Event {
    UpdateRule(rule.rule, rule.expression, targets, rule.enabled, rule.description)
  }

  /** One rule: skipped, or its targets collected and, when there are any, the rule updated. */
  function RuleStep(ctx: Context, id: string, filter: Filter, rule: RuleConfig, s: Scan): Progress {
    if !RuleSelected(filter, rule) then Going(s)
    else
      match TargetsFrom(ctx, id, filter, rule.targets, Going(Scan(s.run, [], s.arns)))
      case Stopped(run, e) => Stopped(run, e)
      case Going(s') =>
        if s'.targets == [] then Going(Scan(s'.run, [], s'.arns))
        else Going(Scan(Run(s'.run.cache, s'.run.trace + [RuleUpdate(rule, s'.targets)]), [], s'.arns))
  }

  /** The rules loop from `p` on, over `rules`. */
  function RulesFrom(ctx: Context, id: string, filter: Filter, rules: seq<RuleConfig>, p: Progress): Progress
    decreases |rules|
  {
    if rules == [] || p.Stopped? then p
    else RulesFrom(ctx, id, filter, rules[1..], RuleStep(ctx, id, filter, rules[0], p.scan))
  }

  const NoTarget := "Scheduled task target or rule is undefined."

  /** `deploy_scheduled_tasks`: the ARNs of the matched targets, or an error. */
  function ScheduledTasksSpec(ctx: Context, run: Run, id: string, filter: Filter): Outcome<seq<string>> {
    match ClusterLookup(ctx)
    case Err(e) => Outcome(run, Err(e))
    case Ok(cluster) =>
      if cluster.scheduledTasks.None? then Outcome(run, Err(NoMethodOnNil("each")))
      else
        match RulesFrom(ctx, id, filter, cluster.scheduledTasks.value, Going(Scan(run, [], [])))
        case Stopped(run', e) => Outcome(run', Err(e))
        case Going(s) =>
          if Present(filter.rule) && |s.arns| == 0 then Outcome(s.run, Err(ValidationError(NoTarget)))
          else Outcome(s.run, Ok(s.arns))
  }

  // ---------------------------------------------------------------------------
  // The public operations
  // ---------------------------------------------------------------------------

  /** `ready`: the registry login and the source update. */
  function ReadySpec(run: Run): Run {
    Run(run.cache, run.trace + [Authenticate, UpdateSource])
  }

  /** `deploy_run_task`. */
  function DeployRunTaskSpec(ctx: Context, run: Run, name: string, overrideContainer: Option<string>,
                             overrideCommand: Option<string>, id: string): Outcome<seq<string>>
  {
    match RunTaskLookup(ctx, name)
    case Err(e) => Outcome(run, Err(e))
    case Ok(found) =>
      match Overridden(found, overrideContainer, overrideCommand)
      case Err(e) => Outcome(run, Err(e))
      case Ok(config) => RunConfiguredSpec(ctx, run, config, id)
  }

  /** The rest of `deploy_run_task` once the entry `config` is looked up and overridden. */
  function RunConfiguredSpec(ctx: Context, run: Run, config: RunTaskConfig, id: string): Outcome<seq<string>> {
    var built := BuildSpec(ctx, run, config.containers, config.path, id);
    if built.result.Err? then Outcome(built.run, Err(built.result.error))
    else
      var (run', arn) := CreateTaskSpec(ctx, built.run, TaskPath(ctx, config.path), id);
      var options := RunTaskOptionsOf(config, ctx.env.roleArn);
      Outcome(Run(run'.cache, run'.trace + [ExecuteRunTask(arn, options)]), Ok(ctx.env.runTask(arn, options)))
  }

  function NotRegistered(service: string): string {
    "Service is not registered. [" + service + "]"
  }

  /** The filter of the cascade after a service update. */
  function DependFilter(service: string): Filter {
    Filter(None, None, Some(service))
  }

  /** `deploy_service`. */
  function DeployServiceSpec(ctx: Context, run: Run, service: string, id: string): Outcome<string> {
    match ServiceLookup(ctx, service)
    case Err(e) => Outcome(run, Err(e))
    case Ok(config) =>
      var built := BuildSpec(ctx, run, config.containers, config.path, id);
      if built.result.Err? then Outcome(built.run, Err(built.result.error))
      else
        var (run', arn) := CreateTaskSpec(ctx, built.run, TaskPath(ctx, config.path), id);
        UpdateServiceSpec(ctx, run', service, config, arn, id)
  }

  /** The rest of `deploy_service` once the task definition of `config` is registered as `arn`. */
  function UpdateServiceSpec(ctx: Context, run: Run, service: string, config: ServiceConfig, arn: string, id: string): Outcome<string>
    requires ctx.cluster in ctx.config
  {
    if !ctx.env.serviceExists(service) then Outcome(run, Err(ValidationError(NotRegistered(service))))
    else
      var updated := Run(run.cache, run.trace + [UpdateService(service, arn, ServiceParams(config.settings))]);
      if !ctx.config[ctx.cluster].scheduledTasksKey then Outcome(updated, Ok(arn))
      else
        var cascade := ScheduledTasksSpec(ctx, updated, id, DependFilter(service));
        Outcome(cascade.run, if cascade.result.Err? then Err(cascade.result.error) else Ok(arn))
  }

  /** `deploy_scheduled_task`. */
  function DeployScheduledTaskSpec(ctx: Context, run: Run, rule: Option<string>, target: Option<string>, id: string): Outcome<seq<string>> {
    ScheduledTasksSpec(ctx, run, id, Filter(rule, target, None))
  }
}
