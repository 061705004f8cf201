# genova deployment core in Dafny

genova deploys containerised applications to Amazon ECS on request from Slack. This project models three parts of it:

- **The ECS client** (`Genova::Ecs::Client`). It builds and pushes the images of a deploy target and registers the target's task definition. Registrations are cached per client, so each path is registered at most once. The client then updates a service, runs a one-off task, or updates scheduled rules.
  - When a service is updated, the scheduled targets that depend on it are redeployed.
  - The scheduled deploy selects rules and targets by a rule filter, a target filter and a depend-service filter.
- **The Slack `deploy` command parser.** It picks the deploy type from the command word and reads `repository:branch key=value ...` into a map. It then checks that the keys the type requires are set, and chooses the reply.
- **The pure helpers of the git code manager.** These are:
  - the limited branch and tag listings;
  - the remote-branch filter;
  - `base_path`, the task-definition path, the refs `update` uses, and where `fetch_config` reads from.

Files:

- `wrappers.dfy`: `Option` and `Result`.
- `ruby_strings.dfy`: Ruby's string operations as the source uses them:
  - `String#split` with a character, which drops trailing empty fields;
  - `split(' ')`, which splits on runs of whitespace and ignores leading whitespace;
  - `strip`, `blank?` and `present?`;
  - `gsub` of a character and of the `"* "` marker.
- `paths.dfy`: `Pathname#join`, `Pathname#cleanpath` and `File.expand_path`, on lists of path components. The process's working directory is a parameter.
- `code_manager.dfy`: `lib/genova/code_manager/git.rb`. `branches_all`, `tags` and `origin_branches` are methods with loops. The rest are functions.
- `slack_deploy.dfy`: `lib/genova/slack/command/deploy.rb`. `parse_expressions` is a method with a loop, proved equal to the fold `ParsedValues`.
- `ecs_config.dfy`: Ruby values (`nil`, truthiness, `present?`, `||`), the deploy-configuration records, and the pure parts of what the client sends:
  - the allowed service fields;
  - the run-task options;
  - the payload of a scheduled target.
- `ecs_spec.dfy`: each client operation as a function of the client's state.
  - The state is the registration cache and the trace of external calls.
  - Docker, ECR, ECS and IAM are the fields of an `Env` of arbitrary functions, so every result holds for every environment.
  - A raised error ends an operation, but the calls made before it stay in the trace, as in Ruby.
- `ecs_properties.dfy`: the registration invariant `Consistent`. It says every path is registered once if it is cached and never otherwise. The file also proves that every operation only extends the state (`Grows`) and keeps this invariant.
- `ecs_results.dfy`: what the operations return and which calls they make:
  - the matched targets and their ARNs;
  - the rule updates;
  - the cascade;
  - the outcomes of `deploy_service` and `deploy_run_task`.
- `ecs_client.dfy`: `class Client`, holding the cache `taskDefinitions` and a ghost `trace`. Each method is proved to return and leave exactly what its function in `ecs_spec.dfy` says. Each method also keeps `Valid()`, so within one client no path is ever registered twice.
  - The parts of `deploy_service` and `deploy_run_task` after the registration are the methods `UpdateRegistered` and `RunConfigured`, which match `UpdateServiceSpec` and `RunConfiguredSpec`. One target of the scheduled loop is `CollectTarget`.

Three behaviours of the code are worth stating plainly, because the model follows them exactly:

- **Scheduled-target count.** A scheduled target's desired count is `task_count || desired_count || 1`, so a legacy `task_count` wins over `desired_count`.
- **Service existence check.** `deploy_service` checks that the service exists only after it has built and pushed the images and registered the task definition. A missing service raises `ValidationError`.
- **`deploy_service` arguments.** `deploy_service` takes only the service and the deploy id, with no override container or command.

## Model

| member | source | states |
|---|---|---|
| CodeManager.Visited | lib/genova/code_manager/git.rb:10-12 | The number of lines a limited listing returns: all of them unless a limit from 1 up to the number of lines stops it exactly there. A limit below 1, or none, never stops the loop. |
| CodeManager.BranchLine | lib/genova/code_manager/git.rb:8-9 | The entry for one `git branch` line: the line with every `* ` removed and then stripped, paired with whether its first two characters are `* `. |
| CodeManager.BranchesAll | lib/genova/code_manager/git.rb:3-15 | The entries are one per input line, in order, up to the limit. Each entry is `BranchLine` of its line: the current flag is the `"* "` prefix, and the name has the markers removed and is stripped. |
| CodeManager.BranchLineOfFormat | lib/genova/code_manager/git.rb:8-9 | Reading back a line printed as `git branch` prints it (`"* "` or two spaces, then the name) gives the name and the current flag. |
| CodeManager.Tags | lib/genova/code_manager/git.rb:17-28 | The result is the prefix of the tag lines of length `Visited`, in order. |
| CodeManager.DirectBranches | lib/genova/code_manager/git.rb:110-116 | A name is in the result iff it is a remote branch name that does not contain `->`. The result is no longer than the input. |
| CodeManager.DirectBranchesAppend | lib/genova/code_manager/git.rb:110-116 | Filtering a concatenation gives the filtered parts, concatenated. With `DirectBranchesSingle` this fixes the order and the repeats of the result, not just its members. |
| CodeManager.DirectBranchesSingle | lib/genova/code_manager/git.rb:111-113 | One name is kept iff it does not contain `->`. |
| CodeManager.OriginBranches | lib/genova/code_manager/git.rb:104-117 | The loop returns exactly `DirectBranches` of the remote names: the names without `->`, in order. |
| CodeManager.DirectBranchesExample | spec/lib/code_manager/client_spec.rb:51-68 | `["master", "->"]` filters to `["master"]`. |
| CodeManager.BasePathNested | lib/genova/code_manager/git.rb:58 | A configured relative `base_path` of plain names gives `repos_path + "/" + base_path`. |
| CodeManager.BasePathAbsolute | lib/genova/code_manager/git.rb:58 | A configured absolute `base_path` replaces `repos_path`, as `Pathname#join` does. |
| CodeManager.TaskDefinitionConfigPath | lib/genova/code_manager/git.rb:96-98 | The expanded path is absolute. |
| CodeManager.TaskDefinitionConfigPathDotRelative | lib/genova/code_manager/git.rb:96-98 | `"./a/b"` under a normal absolute base path becomes `base + "/a/b"`. |
| CodeManager.TaskDefinitionConfigPathExample | spec/lib/code_manager/client_spec.rb:42-46 | `./config/deploy/path.yml` becomes `"<base_path>/config/deploy/path.yml"`. |
| CodeManager.UpdateRefs | lib/genova/code_manager/git.rb:75-81 | With a present branch, that branch is checked out and reset to `origin/<branch>`. Otherwise both refs are `refs/tags/<tag>`. |
| CodeManager.BasePath | lib/genova/code_manager/git.rb:58 | The clone directory when no repository entry or no `base_path` is configured, otherwise `Pathname(repos_path).join(base_path).to_s`. |
| CodeManager.FetchConfigSource | lib/genova/code_manager/git.rb:161-170 | `git show` reads from `origin/<branch>` when a branch is present, else from `tags/<tag>`. Without a present `base_path` the file path is unchanged. |
| CodeManager.FetchConfigUnderBasePath | lib/genova/code_manager/git.rb:162 | With a relative `base_path` of plain names, the file is read from `base_path + "/" + path`, cleaned. |
| CodeManager.JoinUnderBase | lib/genova/code_manager/git.rb:162 | A relative `base_path` of names joined with a relative path of names gives the two component lists in sequence. |
| Paths.Join | lib/genova/code_manager/git.rb:97 | Joining a relative path keeps the base's absoluteness. |
| Paths.JoinNormal | lib/genova/code_manager/git.rb:97 | Joining names onto a path of names appends them. |
| Paths.Clean | lib/genova/code_manager/git.rb:162 | `cleanpath` keeps absoluteness. For components without `/` it yields a normal form: no `.`, and `..` only in a leading run and never beneath the root. |
| Paths.CleanIdempotent | lib/genova/code_manager/git.rb:162 | `cleanpath` of a cleaned path changes nothing. |
| Paths.CleanNormal | lib/genova/code_manager/git.rb:162 | A path of plain names is its own clean form. |
| Paths.ExpandIn | lib/genova/code_manager/git.rb:97 | `File.expand_path` gives an absolute path. For components without `/` it is made of plain names only. |
| Paths.ExpandNormal | lib/genova/code_manager/git.rb:97 | An absolute path of names is already expanded. |
| SlackDeploy.Field | lib/genova/slack/command/deploy.rb:107-111 | `Array#[]` gives a value iff the index is in range. |
| SlackDeploy.CommandType | lib/genova/slack/command/deploy.rb:18-25 | The deploy type from the field after the first `:` of the command word: `run-task`, `scheduled-task`, and a service for anything else or for no such field. |
| SlackDeploy.CommandTypeWithoutKind | lib/genova/slack/command/deploy.rb:18-25 | A command word without `:` (bare `deploy`) selects the service deploy. |
| SlackDeploy.CommandTypeOfKind | lib/genova/slack/command/deploy.rb:18-25 | `name:kind` selects run task for `run-task`, scheduled task for `scheduled-task`, and service for any other kind. |
| SlackDeploy.InitialValues | lib/genova/slack/command/deploy.rb:107-112 | The first token sets exactly `account`, `repository` and `branch`. `account` comes from the settings. |
| SlackDeploy.Assignment | lib/genova/slack/command/deploy.rb:115-116 | A token fails, because `nil.gsub` is called, iff its `=`-split is empty. Otherwise the key has no `-` and no `=`. |
| SlackDeploy.Assign | lib/genova/slack/command/deploy.rb:114-117 | The map updated by each later word in order, with the first failing word ending the parse. |
| SlackDeploy.ParsedValues | lib/genova/slack/command/deploy.rb:106-120 | `parse_expressions`: the first word's map updated by the rest, and `nil.split` for no word at all. |
| SlackDeploy.ParseExpressions | lib/genova/slack/command/deploy.rb:106-120 | The loop returns `ParsedValues`: the first-token map folded with each later assignment. An empty expression list fails on `nil.split`. |
| SlackDeploy.AssignAppend | lib/genova/slack/command/deploy.rb:114-117 | Assigning `xs + ys` is assigning `xs`, then `ys`, and a failure in `xs` stops the fold. |
| SlackDeploy.LastAssignmentWins | lib/genova/slack/command/deploy.rb:114-117 | A later token overwrites its key, including `account`, `repository` and `branch`. |
| SlackDeploy.AssignUntouched | lib/genova/slack/command/deploy.rb:114-117 | A key that no token assigns keeps its value. |
| SlackDeploy.RequiredKeys | lib/genova/slack/command/deploy.rb:58-94 | The keys each type validates, in the order of its `validations` hash. |
| SlackDeploy.Validate | lib/genova/slack/command/deploy.rb:101-104 | No key is reported iff every required key maps to a string. A reported key is the first one that does not. |
| SlackDeploy.ParseDeploy | lib/genova/slack/command/deploy.rb:58-99 | An accepted map is the parsed map and holds a string for each key its type requires. Each failure is either the parse error or the first missing key. |
| SlackDeploy.RequestOf | lib/genova/slack/command/deploy.rb:33-44 | The fields posted for confirmation: the type and the parsed values of the eight keys, nil where absent. |
| SlackDeploy.Respond | lib/genova/slack/command/deploy.rb:27-45 | The repository chooser is posted iff the expression is blank. |
| SlackDeploy.RespondConfirmComplete | lib/genova/slack/command/deploy.rb:30-44 | A confirmation carries the type the command word selects and all the fields that type requires. |
| SlackDeploy.RespondNoSplitError | lib/genova/slack/command/deploy.rb:27-31 | A present expression always has a first token, so the reply is never the `nil.split` error. |
| SlackDeploy.AssignErrGsub | lib/genova/slack/command/deploy.rb:115-116 | A failed assignment fold fails only with `nil.gsub`. |
| SlackDeploy.ValidateNoBranch | lib/genova/slack/command/deploy.rb:101-104 | With account and repository set and no branch, validation reports `branch` for every type. |
| SlackDeploy.MissingBranch | lib/genova/slack/command/deploy.rb:101-112 | A single first token without `:` is rejected with the invalid-argument error naming `branch`. |
| SlackDeploy.TokensJoined | lib/genova/slack/command/deploy.rb:30 | Two tokens joined by a non-space separator are a single word of `split(' ')`: the split gives exactly that string. |
| SlackDeploy.WordsOfThree | lib/genova/slack/command/deploy.rb:30 | `split(' ')` of three words joined by spaces gives those three words. |
| SlackDeploy.ParsedValuesOfCommand | lib/genova/slack/command/deploy.rb:106-120 | `repo:branch k1=v1 k2=v2` parses to the map with account, repository, branch and the two keys, with `-` turned into `_`. |
| SlackDeploy.RunTaskKind | lib/genova/slack/command/deploy.rb:18-20 | `deploy:run-task` selects the run-task deploy. |
| SlackDeploy.RunTaskCommand | lib/genova/slack/command/deploy.rb:11-120 | `deploy:run-task repo:branch cluster=c run-task=t` confirms a run-task deploy of `t` on `c` from `repo`, `branch`. |
| SlackDeploy.ValidateComplete | lib/genova/slack/command/deploy.rb:58-104 | A request whose required fields are all set passes validation of its type. |
| EcsConfig.Or | lib/genova/ecs/client.rb:122-124 | Ruby `a \|\| b` is `a` unless `a` is nil or false. |
| EcsConfig.ServiceParams | lib/genova/ecs/client.rb:67-73 | The forwarded keys are exactly the configured keys among the five allowed ones, with their configured values. |
| EcsConfig.Strs | lib/genova/ecs/client.rb:29 | The command words become string values one to one, in order. |
| EcsConfig.Overridden | lib/genova/ecs/client.rb:25-32 | With a present override container, the overrides become that one container with the split command, and a nil command raises `NoMethodError`. Otherwise the entry is unchanged. |
| EcsConfig.RunTaskOptionsOf | lib/genova/ecs/client.rb:39-47 | Desired count, group, overrides and network configuration are passed as configured. `launch_type` is passed iff present. Each role ARN is passed iff its role is set, as the ARN of that role. |
| EcsConfig.OverrideReplacesCommand | lib/genova/ecs/client.rb:25-47 | Overriding with words joined by spaces runs exactly the named container with exactly those words as its command. |
| EcsConfig.TargetValuesOf | lib/genova/ecs/client.rb:120-128 | The payload carries the ARN; the events role, defaulting to `ecsEventsRole`; the desired count `task_count \|\| desired_count \|\| 1`; and the overrides `overrides \|\| container_overrides`. `launch_type`, `network_configuration` and the task role ARN are included iff present. |
| EcsSpec.ServiceLookup | lib/genova/ecs/client.rb:54-55 | A found service means the cluster is configured. |
| EcsSpec.ClusterLookup | lib/genova/ecs/client.rb:101 | The cluster's entry, or `UndefinedConfig` for an unknown cluster. |
| EcsSpec.RunTaskLookup | lib/genova/ecs/client.rb:23 | The run-task entry of the cluster, or `UndefinedConfig` for an unknown cluster or entry. |
| EcsSpec.TaskPath | lib/genova/ecs/client.rb:36 | The task-definition file of a service or run task: `task_definition_config_path("config/<path>")`. |
| EcsSpec.TargetPath | lib/genova/ecs/client.rb:104-115 | The task-definition file of a scheduled target: `<path>` expanded from `<base_path>/config`. |
| EcsSpec.CreateTaskSpec | lib/genova/ecs/client.rb:159-165 | The returned handle is the cached one for the path. A cached path leaves the state unchanged. An uncached path is registered once, with a registration call appended. |
| EcsSpec.Pushes | lib/genova/ecs/client.rb:90-93 | One push per container, in order, each tagged `id` with the image built for that container. |
| EcsSpec.BuildSpec | lib/genova/ecs/client.rb:87-96 | The cache is unchanged and the trace gains the pushes. The error `Push image is not found.` is raised iff there is no container. |
| EcsSpec.TargetStep | lib/genova/ecs/client.rb:110-134 | One target: skipped unless it passes both filters; otherwise built when a target filter is set, registered, and its payload and ARN collected. |
| EcsSpec.TargetsFrom | lib/genova/ecs/client.rb:109-135 | The targets loop, stopping at the first raised error. |
| EcsSpec.RuleStep | lib/genova/ecs/client.rb:103-151 | One rule: skipped unless it passes the rule filter; otherwise its targets are collected and, when there are any, the rule is updated with them. |
| EcsSpec.RulesFrom | lib/genova/ecs/client.rb:102-152 | The rules loop, stopping at the first raised error. |
| EcsSpec.ScheduledTasksSpec | lib/genova/ecs/client.rb:98-157 | `deploy_scheduled_tasks`: `UndefinedConfig` for an unknown cluster; otherwise the rules loop over the cluster's scheduled tasks, then `NoTarget` when a named rule matched nothing, else the collected ARNs. A nil `scheduled_tasks` raises `NoMethodError`. |
| EcsSpec.ReadySpec | lib/genova/ecs/client.rb:15-20 | `ready`: the registry login, then the source update. |
| EcsSpec.DeployRunTaskSpec | lib/genova/ecs/client.rb:22-51 | `deploy_run_task`: the lookup, the override, then the build, the registration and the run. |
| EcsSpec.RunConfiguredSpec | lib/genova/ecs/client.rb:34-50 | Build, then register `config/<path>`, then run the registered ARN with the entry's options and return the run's result. |
| EcsSpec.DeployServiceSpec | lib/genova/ecs/client.rb:53-79 | `deploy_service`: the lookup, the build and the registration, then the update. |
| EcsSpec.UpdateServiceSpec | lib/genova/ecs/client.rb:64-78 | `ValidationError` for a missing service. Otherwise the service is updated with the ARN and the allowed fields. The cascade runs iff the cluster has a `scheduled_tasks` key, even one whose value is nil, which then raises `NoMethodError` after the update. Otherwise the ARN is returned. |
| EcsSpec.DeployScheduledTaskSpec | lib/genova/ecs/client.rb:81-83 | `deploy_scheduled_task`: `deploy_scheduled_tasks` with the rule and target filters. |
| EcsProperties.RegisterCountAppend | lib/genova/ecs/client.rb:159-165 | Registrations of a path count additively over concatenated traces. |
| EcsProperties.RegisterCountNone | lib/genova/ecs/client.rb:159-165 | Calls without a registration add no registration of any path. |
| EcsProperties.AppendOthers | lib/genova/ecs/client.rb:75 | Appending calls that register nothing keeps the registration invariant. |
| EcsProperties.ReadyConsistent | lib/genova/ecs/client.rb:15-20 | `ready` keeps the registration invariant. |
| EcsProperties.CreateTaskConsistent | lib/genova/ecs/client.rb:159-165 | `create_task` keeps the invariant: each path is registered once if cached, and never otherwise. |
| EcsProperties.CreateTaskOthers | lib/genova/ecs/client.rb:162 | `create_task` adds at most its own path to the cache and changes no other entry. |
| EcsProperties.BuildConsistent | lib/genova/ecs/client.rb:87-96 | `build` keeps the registration invariant. |
| EcsProperties.GrowsTrans | lib/genova/ecs/client.rb:98-157 | Extending the state is transitive. |
| EcsProperties.CreateTaskSound | lib/genova/ecs/client.rb:159-165 | `create_task` only extends the trace and the cache, and keeps the invariant. |
| EcsProperties.BuildSound | lib/genova/ecs/client.rb:87-96 | `build` only extends the trace, and keeps the invariant. |
| EcsProperties.TargetStepSound | lib/genova/ecs/client.rb:109-135 | One target of the scheduled loop only extends the state and keeps the invariant. |
| EcsProperties.TargetsFromSound | lib/genova/ecs/client.rb:109-135 | The targets loop, from any point, only extends the state and keeps the invariant. |
| EcsProperties.RuleStepSound | lib/genova/ecs/client.rb:102-152 | One rule only extends the state and keeps the invariant. |
| EcsProperties.RulesFromSound | lib/genova/ecs/client.rb:102-152 | The rules loop only extends the state and keeps the invariant. |
| EcsProperties.ScheduledTasksSound | lib/genova/ecs/client.rb:98-157 | `deploy_scheduled_tasks` registers each path at most once, and only extends the state, whatever it raises. |
| EcsProperties.DeployServiceSound | lib/genova/ecs/client.rb:53-79 | `deploy_service`, with its cascade, registers each path at most once and only extends the state. |
| EcsProperties.DeployRunTaskSound | lib/genova/ecs/client.rb:22-51 | `deploy_run_task` registers each path at most once and only extends the state. |
| EcsProperties.RegisterSound | lib/genova/ecs/client.rb:34-37 | `build` followed by `create_task` only extends the state and keeps the invariant, at both steps. |
| EcsProperties.UpdateServiceSound | lib/genova/ecs/client.rb:64-78 | The service update and its cascade only extend the state and keep the invariant. |
| EcsProperties.RunConfiguredSound | lib/genova/ecs/client.rb:34-50 | Building, registering and running a task entry only extend the state and keep the invariant. |
| EcsResults.RuleUpdates | lib/genova/ecs/client.rb:146-151 | The rule updates among the calls, in order. |
| EcsResults.SelectedTargets | lib/genova/ecs/client.rb:110-111 | A target is selected iff it is in the rule and passes the depend-service and target filters. |
| EcsResults.CreateTaskEvents | lib/genova/ecs/client.rb:159-165 | `create_task` adds at most a registration and pushes nothing. |
| EcsResults.TargetStepEvents | lib/genova/ecs/client.rb:109-116 | A target adds only pushes and a registration. Without a target filter it pushes nothing. |
| EcsResults.TargetsFromEvents | lib/genova/ecs/client.rb:109-135 | The targets loop adds only pushes and registrations. Without a target filter it pushes nothing. |
| EcsResults.TargetStepStops | lib/genova/ecs/client.rb:110-116 | A target raises iff it is selected, a target filter is set, and it has no container. |
| EcsResults.TargetsFromCompletes | lib/genova/ecs/client.rb:109-135 | The targets loop completes iff every selected target can be built. |
| EcsResults.TargetStepCollects | lib/genova/ecs/client.rb:115-134 | A selected target that completes is cached, and its payload and cached ARN are appended. An unselected target changes nothing. |
| EcsResults.TargetsFromCollects | lib/genova/ecs/client.rb:109-135 | A completed targets loop appends one payload and one ARN per selected target, in config order. The ARNs are the ones finally cached. |
| EcsResults.CachedStable | lib/genova/ecs/client.rb:162-164 | ARNs already cached do not change as the cache grows. |
| EcsResults.ExpectedStable | lib/genova/ecs/client.rb:162-164 | The expected rule updates do not change as the cache grows. |
| EcsResults.RuleStepEvents | lib/genova/ecs/client.rb:102-152 | One rule only extends the state. Without a target filter it pushes nothing. |
| EcsResults.RuleStepCollects | lib/genova/ecs/client.rb:107-152 | A completed rule appends the ARNs of its matched targets. It is updated once with their payloads iff it has a matched target. |
| EcsResults.RuleStepCompletes | lib/genova/ecs/client.rb:107-116 | A rule completes iff each of its matched targets can be built. |
| EcsResults.RulesFromCompletes | lib/genova/ecs/client.rb:102-152 | The rules loop completes iff every matched target can be built. |
| EcsResults.RulesFromEvents | lib/genova/ecs/client.rb:102-152 | The rules loop only extends the state. Without a target filter it pushes nothing. |
| EcsResults.RulesFromCollects | lib/genova/ecs/client.rb:102-152 | A completed rules loop returns one ARN per matched target, rule by rule in config order, each the cached ARN of its task definition. |
| EcsResults.RulesFromUpdates | lib/genova/ecs/client.rb:137-151 | The rule updates are exactly one per selected rule with a matched target, in order. Each update carries its name, expression, matched payloads, `enabled` and `description`. |
| EcsResults.ScheduledTasksOutcome | lib/genova/ecs/client.rb:98-157 | When the matched targets can be built, the deploy fails iff a rule is named and nothing matched, with `Scheduled task target or rule is undefined.`. Otherwise it returns the matched ARNs, and the rule updates are the expected ones. |
| EcsResults.ScheduledTasksUnbuildable | lib/genova/ecs/client.rb:113 | With a target filter, a matched target without a container makes the deploy fail. |
| EcsResults.ScheduledTasksNoBuild | lib/genova/ecs/client.rb:113 | Without a target filter no image is built. |
| EcsResults.CascadeSucceeds | lib/genova/ecs/client.rb:76 | The depend-service cascade never fails and never builds. It returns the ARNs of the targets that depend on the service. |
| EcsResults.DeployServiceNoImage | lib/genova/ecs/client.rb:57 | A service without containers raises the build error and makes no call. |
| EcsResults.DeployServiceNotRegistered | lib/genova/ecs/client.rb:57-64 | A service missing from the cluster raises `Service is not registered. [<service>]` after the pushes and the registration. It makes no service update and no cascade. |
| EcsResults.ServiceRegisteredRun | lib/genova/ecs/client.rb:57-60 | After `build` and `create_task` the calls are the pushes and the registration. The returned ARN is the one cached for the path, and the rest of `deploy_service` continues from there. |
| EcsResults.ServiceUpdatedRun | lib/genova/ecs/client.rb:57-75 | After the update the calls are the prelude followed by one service update with the cached ARN and the allowed fields. |
| EcsResults.DeployServiceFromUpdated | lib/genova/ecs/client.rb:75-78 | A registered service whose cluster has no `scheduled_tasks` key returns the cached ARN from the updated state. With the key, it returns that ARN unless the cascade raises. |
| EcsResults.DeployServiceUpdated | lib/genova/ecs/client.rb:57-78 | A deploy of an existing service, on success, returns the ARN cached for its task definition. Right after the pushes and the registration it updates the service with that ARN and the allowed fields. The deploy succeeds iff the cluster has no `scheduled_tasks` key or has scheduled tasks. A key with a nil value raises `NoMethodError` after the update. When the key is absent or its value is nil, nothing follows the update. |
| EcsResults.UpdateServiceNilScheduledTasks | lib/genova/ecs/client.rb:75-102 | A `scheduled_tasks` key with a nil value: the service is updated, and then `cluster_config[:scheduled_tasks].each` raises `NoMethodError` on nil with no further call. |
| EcsResults.DeployServiceCascade | lib/genova/ecs/client.rb:75-76 | With a `scheduled_tasks` key holding rules, the calls after the service update push nothing. They update exactly the rules that have a target depending on the service. |
| EcsResults.DeployRunTaskExecuted | lib/genova/ecs/client.rb:22-51 | A run-task deploy pushes the images, registers unless cached, and runs the task with the cached ARN and the options of the overridden entry. It returns the result of that run. |
| EcsResults.DeployRunTaskNoImage | lib/genova/ecs/client.rb:34 | A run task without containers raises the build error and makes no call. |
| Ecs.Client.constructor | lib/genova/ecs/client.rb:4-13 | A new client has an empty cache and no calls. |
| Ecs.Client.Ready | lib/genova/ecs/client.rb:15-20 | Authenticates with the registry and updates the source. |
| Ecs.Client.CreateTask | lib/genova/ecs/client.rb:159-165 | Returns and leaves exactly `CreateTaskSpec`, and keeps `Valid`. |
| Ecs.Client.Build | lib/genova/ecs/client.rb:87-96 | Its counting loop pushes `Pushes` and raises iff the count is zero, as `BuildSpec` says. It keeps `Valid`. |
| Ecs.Client.DeployRunTask | lib/genova/ecs/client.rb:22-51 | Returns and leaves exactly `DeployRunTaskSpec`, and keeps `Valid`. |
| Ecs.Client.DeployService | lib/genova/ecs/client.rb:53-79 | Returns and leaves exactly `DeployServiceSpec`, and keeps `Valid`. |
| Ecs.Client.UpdateRegistered | lib/genova/ecs/client.rb:64-78 | Returns and leaves exactly `UpdateServiceSpec`, and keeps `Valid`. |
| Ecs.Client.RunConfigured | lib/genova/ecs/client.rb:34-50 | Returns and leaves exactly `RunConfiguredSpec`, and keeps `Valid`. |
| Ecs.Client.DeployScheduledTask | lib/genova/ecs/client.rb:81-83 | Returns and leaves exactly `DeployScheduledTaskSpec`, and keeps `Valid`. |
| Ecs.Client.CollectTarget | lib/genova/ecs/client.rb:110-134 | One target returns and leaves exactly `TargetStep`, and keeps `Valid`. |
| Ecs.Client.CollectTargets | lib/genova/ecs/client.rb:109-135 | The inner loop returns and leaves exactly what `TargetsFrom` says. |
| Ecs.Client.DeployScheduledTasks | lib/genova/ecs/client.rb:98-157 | The nested loops return and leave exactly `ScheduledTasksSpec`, and keep `Valid`. |

## Left out

- **External services:** Docker, ECR, ECS and IAM calls, `git` commands, YAML parsing and Slack posting are not modelled. They appear as parameters (`Env`, the listed lines, the settings account) or as trace events. Their own failures and exceptions are not modelled.
- **Logging:** logger output and the deprecation warnings for `task_count` and `overrides` (lib/genova/ecs/client.rb:130-131) produce no state and are left out.
- **`DeployConfig`:** its lookups are map lookups that raise `UndefinedConfig`. Its schema validation, and the exact messages of its errors, are not modelled.
- **`HashValidator`:** only the first failing key is modelled, not the message text. The error-posting `rescue` of the Slack command is represented by the `PostError` reply.
- **Settings and paths:** Rails settings (`branch_limit`, `tag_limit`, the GitHub account) and `Rails.root` are parameters. The working directory of `File.expand_path` is a parameter. `~` expansion is not modelled.
- **In-place override:** the override in `deploy_run_task` writes `container_overrides` into the configuration hash in place (lib/genova/ecs/client.rb:26). The model applies it to a copy of the entry, so a change that persists for later calls on the same client is not captured.
- **Whitespace:** this means ASCII whitespace (space, tab, newline, carriage return, vertical tab, form feed). Unicode spaces are not modelled.
- **`ready`:** it is modelled as its two calls only (registry login and source update).
- **Deploy jobs and the bot:** the Slack interactive bot, the Sidekiq workers and the deploy-job records are not part of this model.
- Paths.Join: the joined path is rendered from its normalised components, so repeated slashes and a trailing slash in either operand are dropped. Ruby's `Pathname#+` keeps the raw text of the right-hand suffix and of the left prefix. `expand_path` and `cleanpath` normalise afterwards (lib/genova/code_manager/git.rb:97 and :162, lib/genova/ecs/client.rb:104-115), so only the exposed `base_path` string can differ.
- CodeManager.BasePath: through `Paths.Join`, a configured `base_path` such as `services/api/` or `a//b` gives the normalised `<repos>/services/api` or `<repos>/a/b`, where Ruby keeps the trailing or doubled slash (lib/genova/code_manager/git.rb:45, :58).
- EcsResults.ScheduledTasksUnbuildable: states only that the deploy fails, not which error it raises. With a target filter, the pushes of the matched targets are not enumerated, because `Buildable` and the per-target build are only tied through `BuildSpec`.
