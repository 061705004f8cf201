/**
 * The Slack `deploy` command: which kind of deployment a command word asks
 * for, how the words after it are read into a table of values, which values
 * each kind of deployment requires, and what the bot answers.  The Slack
 * client and the bot's messages are not modelled beyond the answer chosen.
 */
module SlackDeploy {
  import opened Wrappers
  import opened RubyStrings

  /** The kinds of deployment a job can carry. */
  datatype DeployType = RunTask | Service | ScheduledTask

  /** The errors the command reports back to the user. */
  datatype CommandError =
    | InvalidArgument(key: string)     // a required value is missing or not a string
    | NoMethodOnNil(name: string)      // Ruby's NoMethodError on a nil receiver

  /** The values read from a command, keyed by name; a key may be bound to nil. */
  type Values = map<string, Option<string>>

  /** Ruby `Hash#[]`: a missing key reads as nil. */
  function Lookup(values: Values, key: string): Option<string> {
    if key in values then values[key] else None
  }

  /** Ruby `Array#[]` on fields: an index past the end reads as nil. */
  function Field(fields: seq<string>, i: nat): (r: Option<string>)
    ensures r.Some? <==> i < |fields|
    ensures r.Some? ==> r.value == fields[i]
  {
    if i < |fields| then Some(fields[i]) else None
  }

  // ---------------------------------------------------------------------------
  // The command word
  // ---------------------------------------------------------------------------

  /** The kind named after the ':' of the command word; anything else is a service. */
  function CommandType(command: string): DeployType {
    var suffix := Field(Split(command, ':'), 1);
    if suffix == Some("run-task") then RunTask
    else if suffix == Some("scheduled-task") then ScheduledTask
    else Service
  }

  /** A command word without ':' ("deploy") names no kind: it deploys a service. */
  lemma CommandTypeWithoutKind(command: string)
    requires ':' !in command
    ensures CommandType(command) == Service
  {
    if command != "" {
      SplitSingle(command, ':');
    }
  }

  /**
   * A command word "<name>:<kind>" ("deploy:run-task", "deploy:scheduled-task",
   * "deploy:service") selects by the kind alone.
   */
  lemma CommandTypeOfKind(name: string, kind: string)
    requires ':' !in name
    requires kind != "" && ':' !in kind
    ensures CommandType(name + ":" + kind) ==
              if kind == "run-task" then RunTask
              else if kind == "scheduled-task" then ScheduledTask
              else Service
  {
    assert name + ":" + kind == name + [':'] + kind;
    SplitPair(name, ':', kind);
  }

  // ---------------------------------------------------------------------------
  // parse_expressions
  // ---------------------------------------------------------------------------

  /** The values the first word gives: the account setting, then "repository:branch". */
  function InitialValues(first: string, account: Option<string>): (r: Values)
    ensures r.Keys == {"account", "repository", "branch"}
    ensures Lookup(r, "account") == account
  {
    var fields := Split(first, ':');
    map["account" := account, "repository" := Field(fields, 0), "branch" := Field(fields, 1)]
  }

  /**
   * One later word "key=value": hyphens in the key become underscores, and a
   * missing value is nil.  A word with nothing but '=' has no key, and reading
   * the nil key raises.
   */
  function Assignment(expression: string): (r: Result<(string, Option<string>), CommandError>)
    ensures r.Err? <==> Split(expression, '=') == []
    ensures r.Ok? ==> '-' !in r.value.0 && '=' !in r.value.0
  {
    var kv := Split(expression, '=');
    if kv == [] then Err(NoMethodOnNil("gsub"))
    else Ok((ReplaceChar(kv[0], '-', '_'), Field(kv, 1)))
  }

  /** `values` updated by the words `expressions`, in order; the first failing word stops it. */
  function Assign(values: Values, expressions: seq<string>): Result<Values, CommandError>
    decreases |expressions|
  {
    if expressions == [] then Ok(values)
    else
      match Assignment(expressions[0])
      case Err(e) => Err(e)
      case Ok(kv) => Assign(values[kv.0 := kv.1], expressions[1..])
  }

  /** What `parse_expressions` returns for the words of a command. */
  function ParsedValues(expressions: seq<string>, account: Option<string>): Result<Values, CommandError> {
    if expressions == [] then Err(NoMethodOnNil("split"))
    else Assign(InitialValues(expressions[0], account), expressions[1..])
  }

  method ParseExpressions(expressions: seq<string>, account: Option<string>) returns (r: Result<Values, CommandError>)
    ensures r == ParsedValues(expressions, account)
  {
    if expressions == [] {
      return Err(NoMethodOnNil("split"));
    }
    var fields := Split(expressions[0], ':');
    var results := map["account" := account, "repository" := Field(fields, 0), "branch" := Field(fields, 1)];
    var i := 1;
    while i < |expressions|
      invariant 1 <= i <= |expressions|
      invariant Assign(results, expressions[i..]) == ParsedValues(expressions, account)
    {
      var kv := Split(expressions[i], '=');
      if kv == [] {
        return Err(NoMethodOnNil("gsub"));
      }
      assert expressions[i..][1..] == expressions[i + 1..];
      results := results[ReplaceChar(kv[0], '-', '_') := Field(kv, 1)];
      i := i + 1;
    }
    r := Ok(results);
  }

  /** Assigning the words of `xs + ys` is assigning `xs`, then `ys`. */
  lemma {:induction false} AssignAppend(values: Values, xs: seq<string>, ys: seq<string>)
    ensures Assign(values, xs + ys) ==
              match Assign(values, xs)
              case Err(e) => Err(e)
              case Ok(v) => Assign(v, ys)
    decreases |xs|
  {
    if xs == [] {
      assert xs + ys == ys;
    } else {
      assert (xs + ys)[0] == xs[0];
      assert (xs + ys)[1..] == xs[1..] + ys;
      match Assignment(xs[0])
      case Err(e) =>
      case Ok(kv) => AssignAppend(values[kv.0 := kv.1], xs[1..], ys);
    }
  }

  /** The last word that assigns a key decides its value. */
  lemma LastAssignmentWins(values: Values, xs: seq<string>, last: string)
    requires Assign(values, xs).Ok?
    requires Assignment(last).Ok?
    ensures Assign(values, xs + [last]).Ok?
    ensures Lookup(Assign(values, xs + [last]).value, Assignment(last).value.0) == Assignment(last).value.1
  {
    AssignAppend(values, xs, [last]);
    var kv := Assignment(last).value;
    assert Assign(Assign(values, xs).value, [last]) == Assign(Assign(values, xs).value[kv.0 := kv.1], []);
  }

  /** A key no word assigns keeps the value it started with. */
  lemma {:induction false} AssignUntouched(values: Values, xs: seq<string>, key: string)
    requires Assign(values, xs).Ok?
    requires forall i :: 0 <= i < |xs| && Assignment(xs[i]).Ok? ==> Assignment(xs[i]).value.0 != key
    ensures Lookup(Assign(values, xs).value, key) == Lookup(values, key)
    decreases |xs|
  {
    if xs != [] {
      var kv := Assignment(xs[0]).value;
      assert kv.0 != key;
      forall i | 0 <= i < |xs[1..]| && Assignment(xs[1..][i]).Ok?
        ensures Assignment(xs[1..][i]).value.0 != key
      {
        assert xs[1..][i] == xs[i + 1];
      }
      AssignUntouched(values[kv.0 := kv.1], xs[1..], key);
    }
  }

  // ---------------------------------------------------------------------------
  // validate and the parse_<type> methods
  // ---------------------------------------------------------------------------

  /** The values each kind of deployment requires to be strings, in the order they are checked. */
  function RequiredKeys(t: DeployType): seq<string> {
    match t
    case RunTask => ["account", "repository", "branch", "cluster", "run_task"]
    case Service => ["account", "repository", "branch", "cluster", "service"]
    case ScheduledTask => ["account", "repository", "branch", "cluster", "scheduled_task_rule", "scheduled_task_target"]
  }

  /**
   * The first of `keys` whose value is not a string, if any: the key the
   * `InvalidArgumentError` names.
   */
  function Validate(values: Values, keys: seq<string>): (r: Option<string>)
    ensures r.None? <==> forall i :: 0 <= i < |keys| ==> Lookup(values, keys[i]).Some?
    ensures r.Some? ==> exists i :: 0 <= i < |keys| && keys[i] == r.value && Lookup(values, keys[i]).None? &&
                                    forall j :: 0 <= j < i ==> Lookup(values, keys[j]).Some?
    decreases |keys|
  {
    if keys == [] then None
    else if Lookup(values, keys[0]).None? then Some(keys[0])
    else
      var r := Validate(values, keys[1..]);
      if r.Some? then
        ghost var i :| 0 <= i < |keys[1..]| && keys[1..][i] == r.value && Lookup(values, keys[1..][i]).None? &&
                       forall j :: 0 <= j < i ==> Lookup(values, keys[1..][j]).Some?;
        assert keys[i + 1] == r.value;
        assert forall j :: 1 <= j < i + 1 ==> keys[j] == keys[1..][j - 1];
        r
      else
        assert forall i :: 1 <= i < |keys| ==> keys[i] == keys[1..][i - 1];
        r
  }

  /** `parse_run_task`, `parse_service` and `parse_scheduled_task`: parse, then validate. */
  function ParseDeploy(t: DeployType, expressions: seq<string>, account: Option<string>): (r: Result<Values, CommandError>)
    ensures r.Ok? ==> ParsedValues(expressions, account) == r
    ensures r.Ok? ==> forall k :: k in RequiredKeys(t) ==> Lookup(r.value, k).Some?
    ensures ParsedValues(expressions, account).Err? ==> r == ParsedValues(expressions, account)
    ensures r.Err? && ParsedValues(expressions, account).Ok? ==>
              r.error.InvalidArgument? &&
              exists i :: 0 <= i < |RequiredKeys(t)| && RequiredKeys(t)[i] == r.error.key &&
                          Lookup(ParsedValues(expressions, account).value, RequiredKeys(t)[i]).None? &&
                          forall j :: 0 <= j < i ==> Lookup(ParsedValues(expressions, account).value, RequiredKeys(t)[j]).Some?
  {
    match ParsedValues(expressions, account)
    case Err(e) => Err(e)
    case Ok(values) =>
      var invalid := Validate(values, RequiredKeys(t));
      if invalid.Some? then Err(InvalidArgument(invalid.value)) else Ok(values)
  }

  // ---------------------------------------------------------------------------
  // call
  // ---------------------------------------------------------------------------

  /** The values passed to the deploy confirmation. */
  datatype DeployRequest = DeployRequest(
    deployType: DeployType,
    account: Option<string>,
    repository: Option<string>,
    branch: Option<string>,
    cluster: Option<string>,
    runTask: Option<string>,
    service: Option<string>,
    scheduledTaskRule: Option<string>,
    scheduledTaskTarget: Option<string>)

  /** What the bot posts in answer to a command. */
  datatype Response =
    | ChooseRepository
    | ConfirmDeploy(request: DeployRequest)
    | PostError(error: CommandError)

  function RequestOf(t: DeployType, values: Values): DeployRequest {
    DeployRequest(t, Lookup(values, "account"), Lookup(values, "repository"), Lookup(values, "branch"),
                  Lookup(values, "cluster"), Lookup(values, "run_task"), Lookup(values, "service"),
                  Lookup(values, "scheduled_task_rule"), Lookup(values, "scheduled_task_target"))
  }

  /** The request carries every value its kind of deployment requires. */
  predicate Complete(req: DeployRequest) {
    req.account.Some? && req.repository.Some? && req.branch.Some? && req.cluster.Some? &&
    match req.deployType
    case RunTask => req.runTask.Some?
    case Service => req.service.Some?
    case ScheduledTask => req.scheduledTaskRule.Some? && req.scheduledTaskTarget.Some?
  }

  /**
   * `call`: a blank expression (or none) asks for a repository; otherwise the
   * words are parsed for the kind the command names and confirmed, or the
   * error raised is posted.  `account` is the configured GitHub account.
   */
  function Respond(command: string, expression: Option<string>, account: Option<string>): (r: Response)
    ensures r == ChooseRepository <==> !Present(expression)
  {
    var t := CommandType(command);
    if !Present(expression) then ChooseRepository
    else
      match ParseDeploy(t, Words(expression.value), account)
      case Err(e) => PostError(e)
      case Ok(values) => ConfirmDeploy(RequestOf(t, values))
  }

  /** A confirmation is for the kind the command names and carries every required value. */
  lemma RespondConfirmComplete(command: string, expression: Option<string>, account: Option<string>)
    requires Respond(command, expression, account).ConfirmDeploy?
    ensures Respond(command, expression, account).request.deployType == CommandType(command)
    ensures Complete(Respond(command, expression, account).request)
  {
    var t := CommandType(command);
    var values := ParseDeploy(t, Words(expression.value), account).value;
    var keys := RequiredKeys(t);
    assert keys[0] == "account" && keys[1] == "repository" && keys[2] == "branch" && keys[3] == "cluster";
    assert keys[4] in keys;
    if t == ScheduledTask {
      assert keys[5] in keys;
    }
  }

  /** A command that was understood always parses its words: an answer is never a nil-receiver error. */
  lemma RespondNoSplitError(command: string, expression: Option<string>, account: Option<string>)
    requires Present(expression)
    ensures Respond(command, expression, account) != PostError(NoMethodOnNil("split"))
  {
    WordsOfNonBlank(expression.value);
    var ws := Words(expression.value);
    if ParsedValues(ws, account).Err? {
      AssignErrGsub(InitialValues(ws[0], account), ws[1..]);
    }
  }

  lemma {:induction false} AssignErrGsub(values: Values, xs: seq<string>)
    requires Assign(values, xs).Err?
    ensures Assign(values, xs).error == NoMethodOnNil("gsub")
    decreases |xs|
  {
    if Assignment(xs[0]).Ok? {
      var kv := Assignment(xs[0]).value;
      AssignErrGsub(values[kv.0 := kv.1], xs[1..]);
    }
  }

  /** Values with an account and a repository but no branch fail on the branch, for every kind. */
  lemma ValidateNoBranch(values: Values, t: DeployType)
    requires Lookup(values, "account").Some? && Lookup(values, "repository").Some?
    requires Lookup(values, "branch").None?
    ensures Validate(values, RequiredKeys(t)) == Some("branch")
  {
    var keys := RequiredKeys(t);
    assert keys[0] == "account";
    assert keys[1..][0] == "repository";
    assert keys[1..][1..][0] == "branch";
  }

  /** A single word without ':' names no branch, so the command is refused for the branch. */
  lemma MissingBranch(command: string, repository: string, account: string)
    requires repository != "" && NoSpace(repository) && ':' !in repository
    ensures Respond(command, Some(repository), Some(account)) == PostError(InvalidArgument("branch"))
  {
    WordsSingle(repository);
    SplitSingle(repository, ':');
    assert !Blank(repository) by {
      assert !IsSpace(repository[0]);
    }
    var values := InitialValues(repository, Some(account));
    assert ParsedValues([repository], Some(account)) == Ok(values) by {
      assert [repository][1..] == [];
    }
    assert Lookup(values, "repository") == Some(repository);
    assert Lookup(values, "branch") == None;
    ValidateNoBranch(values, CommandType(command));
  }

  /** A name a user may write as one value: no spaces and none of the separators. */
  predicate Token(s: string) {
    s != "" && NoSpace(s) && ':' !in s && '=' !in s
  }

  /** Two tokens joined by a non-space separator are one word of `split(' ')`. */
  lemma {:induction false} TokensJoined(a: string, sep: char, b: string)
    requires Token(a) && Token(b) && !IsSpace(sep)
    ensures NoSpace(a + [sep] + b) && a + [sep] + b != ""
    ensures Words(a + [sep] + b) == [a + [sep] + b]
  {
    var s := a + [sep] + b;
    forall i | 0 <= i < |s| ensures !IsSpace(s[i]) {
      if i < |a| {
        assert s[i] == a[i];
      } else if i > |a| {
        assert s[i] == b[i - |a| - 1];
      }
    }
    WordsSingle(s);
  }

  /** Three words joined by single spaces split back into those three. */
  lemma WordsOfThree(w0: string, w1: string, w2: string)
    requires w0 != "" && NoSpace(w0) && w1 != "" && NoSpace(w1) && w2 != "" && NoSpace(w2)
    ensures Words(w0 + " " + w1 + " " + w2) == [w0, w1, w2]
  {
    assert w0 + " " + w1 + " " + w2 == w0 + " " + (w1 + " " + w2);
    WordsCons(w0, w1 + " " + w2);
    WordsCons(w1, w2);
    WordsSingle(w2);
  }

  /** The values of "<repository>:<branch> <k1>=<v1> <k2>=<v2>": the two assignments on top of the first word. */
  lemma ParsedValuesOfCommand(repository: string, branch: string, k1: string, v1: string, k2: string, v2: string, account: Option<string>)
    requires Token(repository) && Token(branch) && Token(k1) && Token(v1) && Token(k2) && Token(v2)
    ensures ParsedValues([repository + [':'] + branch, k1 + ['='] + v1, k2 + ['='] + v2], account)
         == Ok(map["account" := account, "repository" := Some(repository), "branch" := Some(branch)]
                  [ReplaceChar(k1, '-', '_') := Some(v1)][ReplaceChar(k2, '-', '_') := Some(v2)])
  {
    var w0 := repository + [':'] + branch;
    var w1 := k1 + ['='] + v1;
    var w2 := k2 + ['='] + v2;
    SplitPair(repository, ':', branch);
    SplitPair(k1, '=', v1);
    SplitPair(k2, '=', v2);
    var v0 := map["account" := account, "repository" := Some(repository), "branch" := Some(branch)];
    assert InitialValues(w0, account) == v0;
    var v1' := v0[ReplaceChar(k1, '-', '_') := Some(v1)];
    var v2' := v1'[ReplaceChar(k2, '-', '_') := Some(v2)];
    assert Assignment(w1) == Ok((ReplaceChar(k1, '-', '_'), Some(v1)));
    assert Assignment(w2) == Ok((ReplaceChar(k2, '-', '_'), Some(v2)));
    assert Assign(v2', []) == Ok(v2');
    assert Assign(v1', [w2]) == Ok(v2') by {
      assert [w2][1..] == [];
    }
    assert Assign(v0, [w1, w2]) == Ok(v2') by {
      assert [w1, w2][1..] == [w2];
    }
    assert [w0, w1, w2][1..] == [w1, w2];
  }

  /** "deploy:run-task" asks for a run-task deployment. */
  lemma RunTaskKind()
    ensures CommandType("deploy:run-task") == RunTask
  {
    assert "deploy:run-task" == "deploy" + ":" + "run-task";
    assert ':' !in "deploy";
    CommandTypeOfKind("deploy", "run-task");
  }

  /** The keys of a run-task command are plain tokens; "run-task" is read as "run_task". */
  lemma RunTaskKeys()
    ensures Token("cluster") && Token("run-task")
    ensures ReplaceChar("cluster", '-', '_') == "cluster"
    ensures ReplaceChar("run-task", '-', '_') == "run_task"
  {
  }

  lemma RunTaskText(repository: string, branch: string, cluster: string, task: string)
    ensures repository + ":" + branch + " cluster=" + cluster + " run-task=" + task
         == (repository + [':'] + branch) + " " + ("cluster" + ['='] + cluster) + " " + ("run-task" + ['='] + task)
  {
  }

  /**
   * The repository's usage, written out:
   * "deploy:run-task <repository>:<branch> cluster=<cluster> run-task=<task>"
   * confirms a run-task deployment of exactly those values.
   */
  lemma RunTaskCommand(repository: string, branch: string, cluster: string, task: string, account: Option<string>)
    requires Token(repository) && Token(branch) && Token(cluster) && Token(task)
    requires account.Some?
    ensures Respond("deploy:run-task", Some(repository + ":" + branch + " cluster=" + cluster + " run-task=" + task), account)
         == ConfirmDeploy(DeployRequest(RunTask, account, Some(repository), Some(branch), Some(cluster), Some(task), None, None, None))
  {
    var w0 := repository + [':'] + branch;
    var w1 := "cluster" + ['='] + cluster;
    var w2 := "run-task" + ['='] + task;
    var e := repository + ":" + branch + " cluster=" + cluster + " run-task=" + task;
    var ws := [w0, w1, w2];
    var values := map["account" := account, "repository" := Some(repository), "branch" := Some(branch)]
                    ["cluster" := Some(cluster)]["run_task" := Some(task)];
    assert CommandType("deploy:run-task") == RunTask by {
      RunTaskKind();
    }
    assert Words(e) == ws by {
      RunTaskKeys();
      RunTaskText(repository, branch, cluster, task);
      TokensJoined(repository, ':', branch);
      TokensJoined("cluster", '=', cluster);
      TokensJoined("run-task", '=', task);
      WordsOfThree(w0, w1, w2);
    }
    assert Present(Some(e)) by {
      assert e[0] == repository[0];
    }
    assert ParseDeploy(RunTask, ws, account) == Ok(values) by {
      RunTaskKeys();
      ParsedValuesOfCommand(repository, branch, "cluster", cluster, "run-task", task, account);
      RunTaskRequest(account, repository, branch, cluster, task);
      ValidateComplete(RequestOf(RunTask, values), values);
    }
    RunTaskRequest(account, repository, branch, cluster, task);
  }

  lemma RunTaskRequest(account: Option<string>, repository: string, branch: string, cluster: string, task: string)
    ensures RequestOf(RunTask, map["account" := account, "repository" := Some(repository), "branch" := Some(branch)]
                                  ["cluster" := Some(cluster)]["run_task" := Some(task)])
         == DeployRequest(RunTask, account, Some(repository), Some(branch), Some(cluster), Some(task), None, None, None)
  {
  }

  /** The values behind a complete request pass validation. */
  lemma ValidateComplete(req: DeployRequest, values: Values)
    requires req == RequestOf(req.deployType, values) && Complete(req)
    ensures Validate(values, RequiredKeys(req.deployType)) == None
  {
    var keys := RequiredKeys(req.deployType);
    assert Lookup(values, keys[0]).Some? && Lookup(values, keys[1]).Some? && Lookup(values, keys[2]).Some?;
    assert Lookup(values, keys[3]).Some? && Lookup(values, keys[4]).Some?;
    if req.deployType == ScheduledTask {
      assert Lookup(values, keys[5]).Some?;
    }
    assert forall i :: 0 <= i < |keys| ==> Lookup(values, keys[i]).Some?;
  }
}
