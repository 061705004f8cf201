/**
 * The deploy configuration as the ECS client reads it, and the pure parts of
 * what the client sends: the service fields it forwards, the options of a
 * one-off task, and the payload of a scheduled-rule target.  Configuration
 * values are Ruby values, so `nil`, truthiness, `present?` and `||` are
 * modelled on them.  IAM role lookups are a parameter `roleArn`.
 */
module EcsConfig {
  import opened Wrappers
  import opened RubyStrings

  // ---------------------------------------------------------------------------
  // Ruby values
  // ---------------------------------------------------------------------------

  /** A value read from the YAML configuration. */
  datatype Value =
    | Nil
    | Bool(b: bool)
    | Int(i: int)
    | Str(s: string)
    | List(items: seq<Value>)
    | Hash(entries: seq<(string, Value)>)

  /** Ruby truthiness: everything but `nil` and `false`. */
  predicate Truthy(v: Value) {
    !v.Nil? && v != Bool(false)
  }

  /** ActiveSupport `blank?`: nil, false, a whitespace string, an empty list or hash. */
  predicate BlankValue(v: Value) {
    match v
    case Nil => true
    case Bool(b) => !b
    case Int(_) => false
    case Str(s) => Blank(s)
    case List(items) => items == []
    case Hash(entries) => entries == []
  }

  /** ActiveSupport `present?`. */
  predicate PresentValue(v: Value) {
    !BlankValue(v)
  }

  /** Ruby `a || b`: the first value unless it is nil or false. */
  function Or(a: Value, b: Value): (r: Value)
    ensures Truthy(a) ==> r == a
    ensures !Truthy(a) ==> r == b
  {
    if Truthy(a) then a else b
  }

  /** A value compared against a filter string, as `config[:key] != filter` does. */
  predicate Is(v: Value, s: string) {
    v == Str(s)
  }

  /** The errors the client raises. */
  datatype Error =
    | ValidationError(message: string)        // Exceptions::ValidationError
    | UndefinedConfig(kind: string, name: string)  // the deploy configuration has no such entry
    | NoMethodOnNil(name: string)              // Ruby's NoMethodError on a nil receiver

  // ---------------------------------------------------------------------------
  // Configuration records
  // ---------------------------------------------------------------------------

  /** A service entry: its containers, its task-definition file and its other keys. */
  datatype ServiceConfig = ServiceConfig(containers: seq<Value>, path: string, settings: map<string, Value>)

  /** A run-task entry. */
  datatype RunTaskConfig = RunTaskConfig(
    containers: seq<Value>,
    path: string,
    desiredCount: Value,
    group: Value,
    containerOverrides: Value,
    networkConfiguration: Value,
    launchType: Value,
    taskRole: Value,
    taskExecutionRole: Value)

  /** One target of a scheduled rule; `taskCount` and `overrides` are the deprecated spellings. */
  datatype TargetConfig = TargetConfig(
    name: Value,
    containers: seq<Value>,
    path: string,
    dependService: Value,
    taskCount: Value,
    desiredCount: Value,
    overrides: Value,
    containerOverrides: Value,
    launchType: Value,
    networkConfiguration: Value,
    taskRole: Value,
    cloudwatchEventIamRole: Value)

  /** A scheduled rule and its targets. */
  datatype RuleConfig = RuleConfig(rule: Value, expression: Value, enabled: Value, description: Value, targets: seq<TargetConfig>)

  /**
   * The configuration of one cluster.  `scheduledTasksKey` says whether the
   * cluster has a `scheduled_tasks` key at all; `scheduledTasks` is what
   * looking that key up gives, `None` when the key is absent or its value is
   * nil.
   */
  datatype ClusterConfig = ClusterConfig(
    services: map<string, ServiceConfig>,
    runTasks: map<string, RunTaskConfig>,
    scheduledTasksKey: bool,
    scheduledTasks: Option<seq<RuleConfig>>)

  // ---------------------------------------------------------------------------
  // Service update fields
  // ---------------------------------------------------------------------------

  /** The only service keys `deploy_service` forwards on update. */
  const ServiceUpdateKeys: set<string> :=
    {"desired_count", "force_new_deployment", "health_check_grace_period_seconds",
     "minimum_healthy_percent", "maximum_percent"}

  /** `service_config.slice(...)` over the allowed keys. */
  function ServiceParams(settings: map<string, Value>): (params: map<string, Value>)
    ensures params.Keys == settings.Keys * ServiceUpdateKeys
    ensures forall k :: k in params ==> params[k] == settings[k]
  {
    map k | k in settings.Keys && k in ServiceUpdateKeys :: settings[k]
  }

  // ---------------------------------------------------------------------------
  // Run-task options
  // ---------------------------------------------------------------------------

  /** The options of `run_task`; the optional ones are absent rather than nil. */
  datatype RunTaskOptions = RunTaskOptions(
    desiredCount: Value,
    group: Value,
    containerOverrides: Value,
    networkConfiguration: Value,
    launchType: Option<Value>,
    taskRoleArn: Option<string>,
    taskExecutionRoleArn: Option<string>)

  /** The container override `deploy_run_task` builds: one container, its command split on spaces. */
  function CommandOverride(container: string, command: string): Value {
    List([Hash([("name", Str(container)), ("command", List(Strs(Words(command))))])])
  }

  function Strs(ws: seq<string>): (r: seq<Value>)
    ensures |r| == |ws|
    ensures forall i :: 0 <= i < |ws| ==> r[i] == Str(ws[i])
  {
    seq(|ws|, i requires 0 <= i < |ws| => Str(ws[i]))
  }

  /**
   * The run-task entry after the override: with a present container name the
   * overrides are replaced, which needs a command to split (a nil command raises).
   */
  function Overridden(config: RunTaskConfig, overrideContainer: Option<string>, overrideCommand: Option<string>): (r: Result<RunTaskConfig, Error>)
    ensures !Present(overrideContainer) ==> r == Ok(config)
    ensures Present(overrideContainer) && overrideCommand.None? ==> r == Err(NoMethodOnNil("split"))
    ensures Present(overrideContainer) && overrideCommand.Some? ==>
              r == Ok(config.(containerOverrides := CommandOverride(overrideContainer.value, overrideCommand.value)))
  {
    if !Present(overrideContainer) then Ok(config)
    else if overrideCommand.None? then Err(NoMethodOnNil("split"))
    else Ok(config.(containerOverrides := CommandOverride(overrideContainer.value, overrideCommand.value)))
  }

  /** The options `deploy_run_task` passes to the task runner. */
  function RunTaskOptionsOf(config: RunTaskConfig, roleArn: Value -> string): (o: RunTaskOptions)
    ensures o.desiredCount == config.desiredCount && o.group == config.group
    ensures o.containerOverrides == config.containerOverrides
    ensures o.networkConfiguration == config.networkConfiguration
    ensures o.launchType.Some? <==> PresentValue(config.launchType)
    ensures o.launchType.Some? ==> o.launchType.value == config.launchType
    ensures o.taskRoleArn.Some? <==> Truthy(config.taskRole)
    ensures o.taskRoleArn.Some? ==> o.taskRoleArn.value == roleArn(config.taskRole)
    ensures o.taskExecutionRoleArn.Some? <==> Truthy(config.taskExecutionRole)
    ensures o.taskExecutionRoleArn.Some? ==> o.taskExecutionRoleArn.value == roleArn(config.taskExecutionRole)
  {
    RunTaskOptions(
      config.desiredCount, config.group, config.containerOverrides, config.networkConfiguration,
      if PresentValue(config.launchType) then Some(config.launchType) else None,
      if Truthy(config.taskRole) then Some(roleArn(config.taskRole)) else None,
      if Truthy(config.taskExecutionRole) then Some(roleArn(config.taskExecutionRole)) else None)
  }

  /** With an override, the task runs exactly the given container with the given words as its command. */
  lemma OverrideReplacesCommand(config: RunTaskConfig, container: string, words: seq<string>, roleArn: Value -> string)
    requires !Blank(container)
    requires forall i :: 0 <= i < |words| ==> words[i] != "" && NoSpace(words[i])
    ensures Overridden(config, Some(container), Some(JoinWith(words, ' '))).Ok?
    ensures RunTaskOptionsOf(Overridden(config, Some(container), Some(JoinWith(words, ' '))).value, roleArn).containerOverrides
         == List([Hash([("name", Str(container)), ("command", List(Strs(words)))])])
  {
    WordsJoin(words);
  }

  // ---------------------------------------------------------------------------
  // Scheduled-rule targets
  // ---------------------------------------------------------------------------

  /** The role the rule uses to start tasks when the target names none. */
  const DefaultEventsRole := "ecsEventsRole"

  /** The values `deploy_scheduled_tasks` computes for one target. */
  datatype TargetValues = TargetValues(
    taskDefinitionArn: string,
    cloudwatchEventIamRoleArn: string,
    desiredCount: Value,
    containerOverrides: Value,
    launchType: Option<Value>,
    networkConfiguration: Option<Value>,
    taskRoleArn: Option<string>)

  /** What is handed to the target builder: the cluster, the target's name and its values. */
  datatype TargetPayload = TargetPayload(cluster: string, name: Value, values: TargetValues)

  function TargetValuesOf(target: TargetConfig, arn: string, roleArn: Value -> string): (v: TargetValues)
    ensures v.taskDefinitionArn == arn
    ensures v.cloudwatchEventIamRoleArn ==
              roleArn(if Truthy(target.cloudwatchEventIamRole) then target.cloudwatchEventIamRole else Str(DefaultEventsRole))
    ensures Truthy(target.taskCount) ==> v.desiredCount == target.taskCount
    ensures !Truthy(target.taskCount) && Truthy(target.desiredCount) ==> v.desiredCount == target.desiredCount
    ensures !Truthy(target.taskCount) && !Truthy(target.desiredCount) ==> v.desiredCount == Int(1)
    ensures Truthy(target.overrides) ==> v.containerOverrides == target.overrides
    ensures !Truthy(target.overrides) ==> v.containerOverrides == target.containerOverrides
    ensures v.launchType.Some? <==> PresentValue(target.launchType)
    ensures v.launchType.Some? ==> v.launchType.value == target.launchType
    ensures v.networkConfiguration.Some? <==> PresentValue(target.networkConfiguration)
    ensures v.networkConfiguration.Some? ==> v.networkConfiguration.value == target.networkConfiguration
    ensures v.taskRoleArn.Some? <==> PresentValue(target.taskRole)
    ensures v.taskRoleArn.Some? ==> v.taskRoleArn.value == roleArn(target.taskRole)
  {
    TargetValues(
      arn,
      roleArn(Or(target.cloudwatchEventIamRole, Str(DefaultEventsRole))),
      Or(target.taskCount, Or(target.desiredCount, Int(1))),
      Or(target.overrides, target.containerOverrides),
      if PresentValue(target.launchType) then Some(target.launchType) else None,
      if PresentValue(target.networkConfiguration) then Some(target.networkConfiguration) else None,
      if PresentValue(target.taskRole) then Some(roleArn(target.taskRole)) else None)
  }
}
