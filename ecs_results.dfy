/**
 * What the ECS operations return and which calls they make, for every
 * configuration and every environment: the targets a scheduled deploy
 * matches, the ARNs it returns, the rules it updates, and the outcomes of
 * `deploy_service` and `deploy_run_task`.
 */
module EcsResults {
  import opened Wrappers
  import opened RubyStrings
  import opened EcsConfig
  import opened EcsSpec
  import opened EcsProperties

  // ---------------------------------------------------------------------------
  // Kinds of calls
  // ---------------------------------------------------------------------------

  /** Image pushes and task-definition registrations only. */
  predicate BuildsAndRegistrations(es: seq<Event>) {
    forall i :: 0 <= i < |es| ==> es[i].PushImage? || es[i].RegisterTaskDefinition?
  }

  /** No image is pushed. */
  predicate NoPushes(es: seq<Event>) {
    forall i :: 0 <= i < |es| ==> !es[i].PushImage?
  }

  /** The rule updates among `es`, in order. */
  function RuleUpdates(es: seq<Event>): (r: seq<Event>)
    ensures forall i :: 0 <= i < |r| ==> r[i].UpdateRule? && r[i] in es
    decreases |es|
  {
    if es == [] then []
    else (if es[0].UpdateRule? then [es[0]] else []) + RuleUpdates(es[1..])
  }

  lemma {:induction false} RuleUpdatesAppend(a: seq<Event>, b: seq<Event>)
    ensures RuleUpdates(a + b) == RuleUpdates(a) + RuleUpdates(b)
    decreases |a|
  {
    if a == [] {
      assert a + b == b;
    } else {
      var h := if a[0].UpdateRule? then [a[0]] else [];
      assert (a + b)[1..] == a[1..] + b;
      assert RuleUpdates(a + b) == h + RuleUpdates(a[1..] + b);
      RuleUpdatesAppend(a[1..], b);
      assert h + (RuleUpdates(a[1..]) + RuleUpdates(b)) == (h + RuleUpdates(a[1..])) + RuleUpdates(b);
    }
  }

  lemma {:induction false} RuleUpdatesNone(es: seq<Event>)
    requires BuildsAndRegistrations(es)
    ensures RuleUpdates(es) == []
    decreases |es|
  {
    if es != [] {
      RuleUpdatesNone(es[1..]);
    }
  }

  /** The calls `run'` made after `run`. */
  function Since(run: Run, run': Run): seq<Event>
    requires |run.trace| <= |run'.trace|
  {
    run'.trace[|run.trace|..]
  }

  lemma SinceSelf(run: Run)
    ensures Since(run, run) == []
  {
  }

  lemma SinceAppend(run: Run, es: seq<Event>)
    ensures Since(run, Run(run.cache, run.trace + es)) == es
  {
  }

  lemma SinceSplit(a: Run, b: Run, c: Run)
    requires Grows(a, b) && Grows(b, c)
    ensures |a.trace| <= |c.trace|
    ensures Since(a, c) == Since(a, b) + Since(b, c)
  {
    assert c.trace == b.trace + Since(b, c) by {
      assert c.trace[..|b.trace|] == b.trace;
    }
    assert b.trace == a.trace + Since(a, b) by {
      assert b.trace[..|a.trace|] == a.trace;
    }
    assert c.trace == a.trace + (Since(a, b) + Since(b, c));
  }

  // ---------------------------------------------------------------------------
  // The targets a scheduled deploy matches
  // ---------------------------------------------------------------------------

  /** The targets of one rule the filter selects, in order. */
  function SelectedTargets(filter: Filter, ts: seq<TargetConfig>): (r: seq<TargetConfig>)
    ensures forall t :: t in r <==> t in ts && TargetSelected(filter, t)
    decreases |ts|
  {
    if ts == [] then []
    else (if TargetSelected(filter, ts[0]) then [ts[0]] else []) + SelectedTargets(filter, ts[1..])
  }

  /** The targets of every selected rule the filter selects, rule by rule. */
  function Matched(filter: Filter, rules: seq<RuleConfig>): seq<TargetConfig>
    decreases |rules|
  {
    if rules == [] then []
    else (if RuleSelected(filter, rules[0]) then SelectedTargets(filter, rules[0].targets) else []) + Matched(filter, rules[1..])
  }

  /** With a target filter every matched target is built: so none may lack containers. */
  predicate Buildable(filter: Filter, ts: seq<TargetConfig>) {
    !Present(filter.target) || forall t :: t in ts ==> |t.containers| != 0
  }

  /** The registered ARN of a path, as the cache holds it. */
  function CachedArn(cache: map<string, string>, path: string): string {
    if path in cache then cache[path] else ""
  }

  /** The ARNs of the task definitions of `ts`, as the cache holds them. */
  function CachedArns(ctx: Context, cache: map<string, string>, ts: seq<TargetConfig>): (r: seq<string>)
    ensures |r| == |ts|
    decreases |ts|
  {
    if ts == [] then [] else [CachedArn(cache, TargetPath(ctx, ts[0].path))] + CachedArns(ctx, cache, ts[1..])
  }

  /** The payloads of the targets `ts`, with the ARNs the cache holds. */
  function Payloads(ctx: Context, cache: map<string, string>, ts: seq<TargetConfig>): (r: seq<TargetPayload>)
    ensures |r| == |ts|
    decreases |ts|
  {
    if ts == [] then []
    else [TargetPayload(ctx.cluster, ts[0].name, TargetValuesOf(ts[0], CachedArn(cache, TargetPath(ctx, ts[0].path)), ctx.env.roleArn))]
         + Payloads(ctx, cache, ts[1..])
  }

  /** Every target of `ts` has its task definition in the cache. */
  ghost predicate AllCached(ctx: Context, cache: map<string, string>, ts: seq<TargetConfig>) {
    forall t :: t in ts ==> TargetPath(ctx, t.path) in cache
  }

  /** Cached ARNs do not change as the cache grows. */
  lemma {:induction false} CachedStable(ctx: Context, run: Run, run': Run, ts: seq<TargetConfig>)
    requires Grows(run, run') && AllCached(ctx, run.cache, ts)
    ensures AllCached(ctx, run'.cache, ts)
    ensures CachedArns(ctx, run'.cache, ts) == CachedArns(ctx, run.cache, ts)
    ensures Payloads(ctx, run'.cache, ts) == Payloads(ctx, run.cache, ts)
    decreases |ts|
  {
    if ts != [] {
      assert ts[0] in ts;
      assert AllCached(ctx, run.cache, ts[1..]) by {
        forall t | t in ts[1..] ensures TargetPath(ctx, t.path) in run.cache {
          assert t in ts;
        }
      }
      CachedStable(ctx, run, run', ts[1..]);
      assert AllCached(ctx, run'.cache, ts) by {
        forall t | t in ts ensures TargetPath(ctx, t.path) in run'.cache {
          if t != ts[0] {
            assert t in ts[1..];
          }
        }
      }
    }
  }

  // ---------------------------------------------------------------------------
  // The targets loop
  // ---------------------------------------------------------------------------

  lemma BuildsAndRegistrationsAppend(a: seq<Event>, b: seq<Event>)
    requires BuildsAndRegistrations(a) && BuildsAndRegistrations(b)
    ensures BuildsAndRegistrations(a + b)
  {
    forall i | 0 <= i < |a + b| ensures (a + b)[i].PushImage? || (a + b)[i].RegisterTaskDefinition? {
      if i >= |a| {
        assert (a + b)[i] == b[i - |a|];
      }
    }
  }

  /** The calls of `create_task`: at most one registration. */
  lemma CreateTaskEvents(ctx: Context, run: Run, path: string, id: string)
    ensures Grows(run, CreateTaskSpec(ctx, run, path, id).0)
    ensures BuildsAndRegistrations(Since(run, CreateTaskSpec(ctx, run, path, id).0))
    ensures NoPushes(Since(run, CreateTaskSpec(ctx, run, path, id).0))
  {
    CreateTaskSound(ctx, run, path, id);
    if path in run.cache {
      SinceSelf(run);
    } else {
      SinceAppend(run, [RegisterTaskDefinition(path, id)]);
    }
  }

  /** A target adds only pushes and a registration; without a target filter, no push. */
  lemma TargetStepEvents(ctx: Context, id: string, filter: Filter, t: TargetConfig, s: Scan)
    ensures Grows(s.run, RunOf(TargetStep(ctx, id, filter, t, s)))
    ensures BuildsAndRegistrations(Since(s.run, RunOf(TargetStep(ctx, id, filter, t, s))))
    ensures !Present(filter.target) ==> NoPushes(Since(s.run, RunOf(TargetStep(ctx, id, filter, t, s))))
  {
    TargetStepSound(ctx, id, filter, t, s);
    var path := TargetPath(ctx, t.path);
    if !TargetSelected(filter, t) {
      SinceSelf(s.run);
    } else if Present(filter.target) {
      var built := BuildSpec(ctx, s.run, t.containers, t.path, id);
      BuildSound(ctx, s.run, t.containers, t.path, id);
      SinceAppend(s.run, Pushes(ctx.env, t.containers, t.path, id));
      if built.result.Ok? {
        var run' := CreateTaskSpec(ctx, built.run, path, id).0;
        assert RunOf(TargetStep(ctx, id, filter, t, s)) == run';
        CreateTaskEvents(ctx, built.run, path, id);
        SinceSplit(s.run, built.run, run');
        BuildsAndRegistrationsAppend(Since(s.run, built.run), Since(built.run, run'));
      }
    } else {
      var run' := CreateTaskSpec(ctx, s.run, path, id).0;
      assert RunOf(TargetStep(ctx, id, filter, t, s)) == run';
      CreateTaskEvents(ctx, s.run, path, id);
    }
  }

  lemma {:induction false} TargetsFromEvents(ctx: Context, id: string, filter: Filter, ts: seq<TargetConfig>, p: Progress)
    ensures Grows(RunOf(p), RunOf(TargetsFrom(ctx, id, filter, ts, p)))
    ensures BuildsAndRegistrations(Since(RunOf(p), RunOf(TargetsFrom(ctx, id, filter, ts, p))))
    ensures !Present(filter.target) ==> NoPushes(Since(RunOf(p), RunOf(TargetsFrom(ctx, id, filter, ts, p))))
    decreases |ts|
  {
    TargetsFromSound(ctx, id, filter, ts, p);
    if ts == [] || p.Stopped? {
      SinceSelf(RunOf(p));
    } else {
      var q := TargetStep(ctx, id, filter, ts[0], p.scan);
      var f := TargetsFrom(ctx, id, filter, ts[1..], q);
      TargetStepEvents(ctx, id, filter, ts[0], p.scan);
      TargetsFromEvents(ctx, id, filter, ts[1..], q);
      SinceSplit(RunOf(p), RunOf(q), RunOf(f));
    }
  }

  /** A target stops the loop exactly when it is selected, must be built, and has no container. */
  lemma TargetStepStops(ctx: Context, id: string, filter: Filter, t: TargetConfig, s: Scan)
    ensures TargetStep(ctx, id, filter, t, s).Stopped? <==>
            TargetSelected(filter, t) && Present(filter.target) && |t.containers| == 0
  {
  }

  /** The targets loop runs to the end exactly when every selected target can be built. */
  lemma {:induction false} TargetsFromCompletes(ctx: Context, id: string, filter: Filter, ts: seq<TargetConfig>, s: Scan)
    ensures TargetsFrom(ctx, id, filter, ts, Going(s)).Going? <==> Buildable(filter, SelectedTargets(filter, ts))
    decreases |ts|
  {
    if ts != [] {
      var q := TargetStep(ctx, id, filter, ts[0], s);
      TargetStepStops(ctx, id, filter, ts[0], s);
      assert SelectedTargets(filter, ts) == (if TargetSelected(filter, ts[0]) then [ts[0]] else []) + SelectedTargets(filter, ts[1..]);
      if q.Going? {
        TargetsFromCompletes(ctx, id, filter, ts[1..], q.scan);
      } else {
        assert ts[0] in SelectedTargets(filter, ts);
      }
    }
  }

  /** The payload of one target, with the ARN of its task definition. */
  function PayloadOf(ctx: Context, t: TargetConfig, arn: string): TargetPayload {
    TargetPayload(ctx.cluster, t.name, TargetValuesOf(t, arn, ctx.env.roleArn))
  }

  /** A selected target that completes is registered, and its payload and ARN collected. */
  lemma TargetStepCollects(ctx: Context, id: string, filter: Filter, t: TargetConfig, s: Scan)
    requires TargetStep(ctx, id, filter, t, s).Going?
    ensures var q := TargetStep(ctx, id, filter, t, s).scan;
            var path := TargetPath(ctx, t.path);
            if TargetSelected(filter, t) then
              path in q.run.cache && q.arns == s.arns + [q.run.cache[path]] &&
              q.targets == s.targets + [PayloadOf(ctx, t, q.run.cache[path])]
            else q == s
  {
  }

  /** Collecting a selected target before the rest of the loop. */
  lemma CollectedArns(ctx: Context, t: TargetConfig, rest: seq<TargetConfig>, cache: map<string, string>, arns: seq<string>, arn: string)
    requires TargetPath(ctx, t.path) in cache && cache[TargetPath(ctx, t.path)] == arn
    ensures (arns + [arn]) + CachedArns(ctx, cache, rest) == arns + CachedArns(ctx, cache, [t] + rest)
  {
    assert ([t] + rest)[1..] == rest;
  }

  lemma CollectedPayloads(ctx: Context, t: TargetConfig, rest: seq<TargetConfig>, cache: map<string, string>, ps: seq<TargetPayload>, arn: string)
    requires TargetPath(ctx, t.path) in cache && cache[TargetPath(ctx, t.path)] == arn
    ensures (ps + [PayloadOf(ctx, t, arn)]) + Payloads(ctx, cache, rest) == ps + Payloads(ctx, cache, [t] + rest)
  {
    assert ([t] + rest)[1..] == rest;
  }

  /** A completed targets loop collects one payload and one ARN per selected target, in order. */
  lemma {:induction false} TargetsFromCollects(ctx: Context, id: string, filter: Filter, ts: seq<TargetConfig>, s: Scan)
    requires TargetsFrom(ctx, id, filter, ts, Going(s)).Going?
    ensures var f := TargetsFrom(ctx, id, filter, ts, Going(s)).scan;
            AllCached(ctx, f.run.cache, SelectedTargets(filter, ts)) &&
            f.arns == s.arns + CachedArns(ctx, f.run.cache, SelectedTargets(filter, ts)) &&
            f.targets == s.targets + Payloads(ctx, f.run.cache, SelectedTargets(filter, ts))
    decreases |ts|
  {
    if ts != [] {
      var t := ts[0];
      var q := TargetStep(ctx, id, filter, t, s);
      assert q.Going?;
      var f := TargetsFrom(ctx, id, filter, ts[1..], q).scan;
      assert f == TargetsFrom(ctx, id, filter, ts, Going(s)).scan;
      TargetsFromCollects(ctx, id, filter, ts[1..], q.scan);
      var rest := SelectedTargets(filter, ts[1..]);
      TargetStepCollects(ctx, id, filter, t, s);
      if TargetSelected(filter, t) {
        var path := TargetPath(ctx, t.path);
        var arn := q.scan.run.cache[path];
        TargetsFromSound(ctx, id, filter, ts[1..], q);
        assert path in f.run.cache && f.run.cache[path] == arn;
        assert SelectedTargets(filter, ts) == [t] + rest;
        assert AllCached(ctx, f.run.cache, [t] + rest);
        CollectedArns(ctx, t, rest, f.run.cache, s.arns, arn);
        CollectedPayloads(ctx, t, rest, f.run.cache, s.targets, arn);
      } else {
        assert SelectedTargets(filter, ts) == rest;
      }
    }
  }

  // ---------------------------------------------------------------------------
  // The rules loop
  // ---------------------------------------------------------------------------

  /** The targets of one rule that a scheduled deploy matches. */
  function RuleTargets(filter: Filter, rule: RuleConfig): seq<TargetConfig> {
    if RuleSelected(filter, rule) then SelectedTargets(filter, rule.targets) else []
  }

  /** The rule updates a scheduled deploy makes: one per selected rule with a matched target. */
  function ExpectedUpdates(ctx: Context, cache: map<string, string>, filter: Filter, rules: seq<RuleConfig>): seq<Event>
    decreases |rules|
  {
    if rules == [] then []
    else
      var ts := RuleTargets(filter, rules[0]);
      (if ts == [] then [] else [RuleUpdate(rules[0], Payloads(ctx, cache, ts))]) + ExpectedUpdates(ctx, cache, filter, rules[1..])
  }

  lemma {:induction false} CachedArnsAppend(ctx: Context, cache: map<string, string>, a: seq<TargetConfig>, b: seq<TargetConfig>)
    ensures CachedArns(ctx, cache, a + b) == CachedArns(ctx, cache, a) + CachedArns(ctx, cache, b)
    decreases |a|
  {
    if a == [] {
      assert a + b == b;
    } else {
      var head := [CachedArn(cache, TargetPath(ctx, a[0].path))];
      var x, y := CachedArns(ctx, cache, a[1..]), CachedArns(ctx, cache, b);
      TailOfAppend(a, b);
      calc {
        CachedArns(ctx, cache, a + b);
        head + CachedArns(ctx, cache, a[1..] + b);
        { CachedArnsAppend(ctx, cache, a[1..], b); }
        head + (x + y);
        { ConcatAssoc(head, x, y); }
        (head + x) + y;
      }
    }
  }

  lemma {:induction false} ExpectedStable(ctx: Context, run: Run, run': Run, filter: Filter, rules: seq<RuleConfig>)
    requires Grows(run, run') && AllCached(ctx, run.cache, Matched(filter, rules))
    ensures ExpectedUpdates(ctx, run'.cache, filter, rules) == ExpectedUpdates(ctx, run.cache, filter, rules)
    decreases |rules|
  {
    if rules != [] {
      var ts := RuleTargets(filter, rules[0]);
      assert Matched(filter, rules) == ts + Matched(filter, rules[1..]);
      CachedStable(ctx, run, run', ts);
      ExpectedStable(ctx, run, run', filter, rules[1..]);
    }
  }

  /** A rule adds the calls of its targets, then its update; without a target filter, no push. */
  lemma RuleStepEvents(ctx: Context, id: string, filter: Filter, rule: RuleConfig, s: Scan)
    ensures Grows(s.run, RunOf(RuleStep(ctx, id, filter, rule, s)))
    ensures !Present(filter.target) ==> NoPushes(Since(s.run, RunOf(RuleStep(ctx, id, filter, rule, s))))
  {
    RuleStepSound(ctx, id, filter, rule, s);
    if RuleSelected(filter, rule) {
      var start := Going(Scan(s.run, [], s.arns));
      var f := TargetsFrom(ctx, id, filter, rule.targets, start);
      TargetsFromEvents(ctx, id, filter, rule.targets, start);
      if f.Going? && f.scan.targets != [] {
        var q := RunOf(RuleStep(ctx, id, filter, rule, s));
        assert q == Run(f.scan.run.cache, f.scan.run.trace + [RuleUpdate(rule, f.scan.targets)]);
        AppendGrows(f.scan.run, [RuleUpdate(rule, f.scan.targets)]);
        SinceSplit(s.run, f.scan.run, q);
        SinceAppend(f.scan.run, [RuleUpdate(rule, f.scan.targets)]);
      }
    } else {
      SinceSelf(s.run);
    }
  }

  /** A completed rule collects the ARNs of its matched targets and updates it when there are any. */
  lemma RuleStepCollects(ctx: Context, id: string, filter: Filter, rule: RuleConfig, s: Scan)
    requires RuleStep(ctx, id, filter, rule, s).Going?
    ensures var q := RuleStep(ctx, id, filter, rule, s).scan;
            var ts := RuleTargets(filter, rule);
            Grows(s.run, q.run) && AllCached(ctx, q.run.cache, ts) &&
            q.arns == s.arns + CachedArns(ctx, q.run.cache, ts) &&
            RuleUpdates(Since(s.run, q.run)) == (if ts == [] then [] else [RuleUpdate(rule, Payloads(ctx, q.run.cache, ts))])
  {
    RuleStepEvents(ctx, id, filter, rule, s);
    if RuleSelected(filter, rule) {
      var start := Scan(s.run, [], s.arns);
      var f := TargetsFrom(ctx, id, filter, rule.targets, Going(start));
      var ts := SelectedTargets(filter, rule.targets);
      assert f.Going?;
      TargetsFromCollects(ctx, id, filter, rule.targets, start);
      TargetsFromEvents(ctx, id, filter, rule.targets, Going(start));
      RuleUpdatesNone(Since(s.run, f.scan.run));
      assert f.scan.targets == Payloads(ctx, f.scan.run.cache, ts);
      if ts != [] {
        var q := RuleStep(ctx, id, filter, rule, s).scan;
        var e := RuleUpdate(rule, f.scan.targets);
        assert q.run == Run(f.scan.run.cache, f.scan.run.trace + [e]);
        AppendGrows(f.scan.run, [e]);
        SinceSplit(s.run, f.scan.run, q.run);
        SinceAppend(f.scan.run, [e]);
        RuleUpdatesAppend(Since(s.run, f.scan.run), [e]);
      }
    } else {
      SinceSelf(s.run);
    }
  }

  /** A rule stops the loop exactly when one of its matched targets cannot be built. */
  lemma RuleStepCompletes(ctx: Context, id: string, filter: Filter, rule: RuleConfig, s: Scan)
    ensures RuleStep(ctx, id, filter, rule, s).Going? <==> Buildable(filter, RuleTargets(filter, rule))
  {
    if RuleSelected(filter, rule) {
      TargetsFromCompletes(ctx, id, filter, rule.targets, Scan(s.run, [], s.arns));
    }
  }

  /** The rules loop runs to the end exactly when every matched target can be built. */
  lemma {:induction false} RulesFromCompletes(ctx: Context, id: string, filter: Filter, rules: seq<RuleConfig>, s: Scan)
    ensures RulesFrom(ctx, id, filter, rules, Going(s)).Going? <==> Buildable(filter, Matched(filter, rules))
    decreases |rules|
  {
    if rules != [] {
      var q := RuleStep(ctx, id, filter, rules[0], s);
      RuleStepCompletes(ctx, id, filter, rules[0], s);
      assert Matched(filter, rules) == RuleTargets(filter, rules[0]) + Matched(filter, rules[1..]);
      if q.Going? {
        RulesFromCompletes(ctx, id, filter, rules[1..], q.scan);
      } else {
        assert !Buildable(filter, RuleTargets(filter, rules[0]));
      }
    }
  }

  lemma {:induction false} RulesFromEvents(ctx: Context, id: string, filter: Filter, rules: seq<RuleConfig>, p: Progress)
    ensures Grows(RunOf(p), RunOf(RulesFrom(ctx, id, filter, rules, p)))
    ensures !Present(filter.target) ==> NoPushes(Since(RunOf(p), RunOf(RulesFrom(ctx, id, filter, rules, p))))
    decreases |rules|
  {
    RulesFromSound(ctx, id, filter, rules, p);
    if rules == [] || p.Stopped? {
      SinceSelf(RunOf(p));
    } else {
      var q := RuleStep(ctx, id, filter, rules[0], p.scan);
      var f := RulesFrom(ctx, id, filter, rules[1..], q);
      RuleStepEvents(ctx, id, filter, rules[0], p.scan);
      RulesFromEvents(ctx, id, filter, rules[1..], q);
      SinceSplit(RunOf(p), RunOf(q), RunOf(f));
    }
  }

  lemma AllCachedAppend(ctx: Context, cache: map<string, string>, a: seq<TargetConfig>, b: seq<TargetConfig>)
    requires AllCached(ctx, cache, a) && AllCached(ctx, cache, b)
    ensures AllCached(ctx, cache, a + b)
  {
  }

  lemma TailOfAppend<T>(a: seq<T>, b: seq<T>)
    requires a != []
    ensures (a + b)[0] == a[0] && (a + b)[1..] == a[1..] + b
  {
  }

  lemma ConcatAssoc<T>(a: seq<T>, b: seq<T>, c: seq<T>)
    ensures (a + b) + c == a + (b + c)
  {
  }

  /** A completed rules loop returns one ARN per matched target, in order, as finally cached. */
  lemma {:induction false} RulesFromCollects(ctx: Context, id: string, filter: Filter, rules: seq<RuleConfig>, s: Scan)
    requires RulesFrom(ctx, id, filter, rules, Going(s)).Going?
    ensures var f := RulesFrom(ctx, id, filter, rules, Going(s)).scan;
            AllCached(ctx, f.run.cache, Matched(filter, rules)) &&
            f.arns == s.arns + CachedArns(ctx, f.run.cache, Matched(filter, rules))
    decreases |rules|
  {
    if rules != [] {
      var q := RuleStep(ctx, id, filter, rules[0], s);
      assert q.Going?;
      var f := RulesFrom(ctx, id, filter, rules[1..], q).scan;
      var ts := RuleTargets(filter, rules[0]);
      var rest := Matched(filter, rules[1..]);
      RuleStepCollects(ctx, id, filter, rules[0], s);
      RulesFromCollects(ctx, id, filter, rules[1..], q.scan);
      RulesFromEvents(ctx, id, filter, rules[1..], q);
      CachedStable(ctx, q.scan.run, f.run, ts);
      CachedArnsAppend(ctx, f.run.cache, ts, rest);
      assert Matched(filter, rules) == ts + rest;
      AllCachedAppend(ctx, f.run.cache, ts, rest);
      ConcatAssoc(s.arns, CachedArns(ctx, f.run.cache, ts), CachedArns(ctx, f.run.cache, rest));
    }
  }

  /** A completed rules loop updates exactly the selected rules with a matched target, in order. */
  lemma {:induction false} RulesFromUpdates(ctx: Context, id: string, filter: Filter, rules: seq<RuleConfig>, s: Scan)
    requires RulesFrom(ctx, id, filter, rules, Going(s)).Going?
    ensures var f := RulesFrom(ctx, id, filter, rules, Going(s)).scan;
            Grows(s.run, f.run) &&
            RuleUpdates(Since(s.run, f.run)) == ExpectedUpdates(ctx, f.run.cache, filter, rules)
    decreases |rules|
  {
    RulesFromEvents(ctx, id, filter, rules, Going(s));
    if rules == [] {
      SinceSelf(s.run);
    } else {
      var q := RuleStep(ctx, id, filter, rules[0], s);
      assert q.Going?;
      var f := RulesFrom(ctx, id, filter, rules[1..], q).scan;
      var ts := RuleTargets(filter, rules[0]);
      RuleStepCollects(ctx, id, filter, rules[0], s);
      RulesFromUpdates(ctx, id, filter, rules[1..], q.scan);
      CachedStable(ctx, q.scan.run, f.run, ts);
      SinceSplit(s.run, q.scan.run, f.run);
      RuleUpdatesAppend(Since(s.run, q.scan.run), Since(q.scan.run, f.run));
    }
  }

  // ---------------------------------------------------------------------------
  // The public operations
  // ---------------------------------------------------------------------------

  /** The rules of the client's cluster, when it has any. */
  function Rules(ctx: Context): seq<RuleConfig>
    requires ctx.cluster in ctx.config && ctx.config[ctx.cluster].scheduledTasks.Some?
  {
    ctx.config[ctx.cluster].scheduledTasks.value
  }

  /**
   * `deploy_scheduled_tasks` when every matched target can be built: it fails
   * exactly when a rule is named and no target matched, and otherwise returns
   * one ARN per matched target and updates each selected rule that has a
   * matched target.
   */
  lemma ScheduledTasksOutcome(ctx: Context, run: Run, id: string, filter: Filter)
    requires ctx.cluster in ctx.config && ctx.config[ctx.cluster].scheduledTasks.Some?
    requires Buildable(filter, Matched(filter, Rules(ctx)))
    ensures var o := ScheduledTasksSpec(ctx, run, id, filter);
            var matched := Matched(filter, Rules(ctx));
            Grows(run, o.run) &&
            (o.result.Err? <==> Present(filter.rule) && matched == []) &&
            (o.result.Err? ==> o.result.error == ValidationError(NoTarget)) &&
            (o.result.Ok? ==> AllCached(ctx, o.run.cache, matched) && o.result.value == CachedArns(ctx, o.run.cache, matched)) &&
            RuleUpdates(Since(run, o.run)) == ExpectedUpdates(ctx, o.run.cache, filter, Rules(ctx))
  {
    var start := Scan(run, [], []);
    RulesFromCompletes(ctx, id, filter, Rules(ctx), start);
    RulesFromCollects(ctx, id, filter, Rules(ctx), start);
    RulesFromUpdates(ctx, id, filter, Rules(ctx), start);
  }

  /** `deploy_scheduled_tasks` fails when a matched target must be built and has no container. */
  lemma ScheduledTasksUnbuildable(ctx: Context, run: Run, id: string, filter: Filter)
    requires ctx.cluster in ctx.config && ctx.config[ctx.cluster].scheduledTasks.Some?
    requires !Buildable(filter, Matched(filter, Rules(ctx)))
    ensures ScheduledTasksSpec(ctx, run, id, filter).result.Err?
  {
    RulesFromCompletes(ctx, id, filter, Rules(ctx), Scan(run, [], []));
  }

  /** `deploy_scheduled_tasks` without a target filter builds no image. */
  lemma ScheduledTasksNoBuild(ctx: Context, run: Run, id: string, filter: Filter)
    requires !Present(filter.target)
    ensures var o := ScheduledTasksSpec(ctx, run, id, filter);
            Grows(run, o.run) && NoPushes(Since(run, o.run))
  {
    ScheduledTasksSound(ctx, run, id, filter);
    if ctx.cluster in ctx.config && ctx.config[ctx.cluster].scheduledTasks.Some? {
      RulesFromEvents(ctx, id, filter, Rules(ctx), Going(Scan(run, [], [])));
    } else {
      SinceSelf(run);
    }
  }

  /**
   * The cascade after a service update never fails and never builds an
   * image: it re-registers the targets that depend on the service and
   * returns their ARNs.
   */
  lemma CascadeSucceeds(ctx: Context, run: Run, id: string, service: string)
    requires ctx.cluster in ctx.config && ctx.config[ctx.cluster].scheduledTasks.Some?
    ensures var o := ScheduledTasksSpec(ctx, run, id, DependFilter(service));
            var matched := Matched(DependFilter(service), Rules(ctx));
            Grows(run, o.run) && NoPushes(Since(run, o.run)) &&
            o.result.Ok? && o.result.value == CachedArns(ctx, o.run.cache, matched)
  {
    ScheduledTasksOutcome(ctx, run, id, DependFilter(service));
    RulesFromEvents(ctx, id, DependFilter(service), Rules(ctx), Going(Scan(run, [], [])));
  }

  /** The registration `create_task` adds for a path: none when it is cached. */
  function Registration(run: Run, path: string, id: string): seq<Event> {
    if path in run.cache then [] else [RegisterTaskDefinition(path, id)]
  }

  /** `deploy_service` for a service with no container: nothing is called and the build error is raised. */
  lemma DeployServiceNoImage(ctx: Context, run: Run, service: string, id: string)
    requires ServiceLookup(ctx, service).Ok? && ServiceLookup(ctx, service).value.containers == []
    ensures DeployServiceSpec(ctx, run, service, id) == Outcome(run, Err(ValidationError(NoImage)))
  {
    assert run.trace + [] == run.trace;
  }

  /**
   * `deploy_service` for a service that is not in the cluster: the images are
   * still pushed and the task definition registered, then the error is raised
   * and no service is updated.
   */
  lemma DeployServiceNotRegistered(ctx: Context, run: Run, service: string, id: string)
    requires ServiceLookup(ctx, service).Ok? && ServiceLookup(ctx, service).value.containers != []
    requires !ctx.env.serviceExists(service)
    ensures var config := ServiceLookup(ctx, service).value;
            var o := DeployServiceSpec(ctx, run, service, id);
            o.result == Err(ValidationError(NotRegistered(service))) &&
            TaskPath(ctx, config.path) in o.run.cache &&
            o.run.trace == run.trace + Pushes(ctx.env, config.containers, config.path, id)
                                     + Registration(run, TaskPath(ctx, config.path), id)
  {
    ServiceRegisteredRun(ctx, run, service, id);
  }

  /** The calls `deploy_service` makes for a present service with containers, up to its registration. */
  function ServicePrelude(ctx: Context, run: Run, config: ServiceConfig, id: string): seq<Event> {
    run.trace + Pushes(ctx.env, config.containers, config.path, id) + Registration(run, TaskPath(ctx, config.path), id)
  }

  /** The run of `deploy_service` after `create_task`, and the ARN it returned. */
  function ServiceRegistered(ctx: Context, run: Run, service: string, id: string): (Run, string)
    requires ServiceLookup(ctx, service).Ok?
  {
    var config := ServiceLookup(ctx, service).value;
    var built := BuildSpec(ctx, run, config.containers, config.path, id);
    CreateTaskSpec(ctx, built.run, TaskPath(ctx, config.path), id)
  }

  /** After the pushes and the registration, `deploy_service` goes on with the registered ARN. */
  lemma ServiceRegisteredRun(ctx: Context, run: Run, service: string, id: string)
    requires ServiceLookup(ctx, service).Ok? && ServiceLookup(ctx, service).value.containers != []
    ensures var config := ServiceLookup(ctx, service).value;
            var reg := ServiceRegistered(ctx, run, service, id);
            var path := TaskPath(ctx, config.path);
            reg.0.trace == ServicePrelude(ctx, run, config, id) &&
            path in reg.0.cache && reg.1 == reg.0.cache[path] &&
            DeployServiceSpec(ctx, run, service, id) == UpdateServiceSpec(ctx, reg.0, service, config, reg.1, id)
  {
  }

  /**
   * `deploy_service` for a service in the cluster: after the pushes and the
   * registration, the service is updated with the registered ARN and the
   * allowed settings, and that ARN is returned; without scheduled tasks
   * nothing else is called.
   */
  lemma DeployServiceUpdated(ctx: Context, run: Run, service: string, id: string)
    requires ServiceLookup(ctx, service).Ok? && ServiceLookup(ctx, service).value.containers != []
    requires ctx.env.serviceExists(service)
    ensures var config := ServiceLookup(ctx, service).value;
            var o := DeployServiceSpec(ctx, run, service, id);
            var path := TaskPath(ctx, config.path);
            var before := ServicePrelude(ctx, run, config, id);
            var cluster := ctx.config[ctx.cluster];
            path in o.run.cache && |before| < |o.run.trace| &&
            o.run.trace[..|before| + 1] == before + [UpdateService(service, o.run.cache[path], ServiceParams(config.settings))] &&
            (o.result.Ok? <==> !cluster.scheduledTasksKey || cluster.scheduledTasks.Some?) &&
            (o.result.Ok? ==> o.result.value == o.run.cache[path]) &&
            (o.result.Err? ==> o.result.error == NoMethodOnNil("each")) &&
            (!cluster.scheduledTasksKey || cluster.scheduledTasks.None? ==> |o.run.trace| == |before| + 1)
  {
    var updated := ServiceUpdated(ctx, run, service, id);
    ServiceUpdatedRun(ctx, run, service, id);
    DeployServiceFromUpdated(ctx, run, service, id);
    if ctx.config[ctx.cluster].scheduledTasksKey && ctx.config[ctx.cluster].scheduledTasks.Some? {
      var cascade := ScheduledTasksSpec(ctx, updated, id, DependFilter(service));
      assert Grows(updated, cascade.run) && cascade.result.Ok? by {
        CascadeSucceeds(ctx, updated, id, service);
      }
    }
  }

  /** The run of `deploy_service` right after the service update. */
  function ServiceUpdated(ctx: Context, run: Run, service: string, id: string): Run
    requires ServiceLookup(ctx, service).Ok?
  {
    var config := ServiceLookup(ctx, service).value;
    var (reg, arn) := ServiceRegistered(ctx, run, service, id);
    Run(reg.cache, reg.trace + [UpdateService(service, arn, ServiceParams(config.settings))])
  }

  /** The run after the update: the prelude, then the update with the registered ARN. */
  lemma ServiceUpdatedRun(ctx: Context, run: Run, service: string, id: string)
    requires ServiceLookup(ctx, service).Ok? && ServiceLookup(ctx, service).value.containers != []
    ensures var config := ServiceLookup(ctx, service).value;
            var u := ServiceUpdated(ctx, run, service, id);
            var path := TaskPath(ctx, config.path);
            path in u.cache &&
            u.trace == ServicePrelude(ctx, run, config, id) + [UpdateService(service, u.cache[path], ServiceParams(config.settings))]
  {
    ServiceRegisteredRun(ctx, run, service, id);
  }

  /** `deploy_service` for a registered service continues from the updated run. */
  lemma DeployServiceFromUpdated(ctx: Context, run: Run, service: string, id: string)
    requires ServiceLookup(ctx, service).Ok? && ServiceLookup(ctx, service).value.containers != []
    requires ctx.env.serviceExists(service)
    ensures var u := ServiceUpdated(ctx, run, service, id);
            var arn := u.cache[TaskPath(ctx, ServiceLookup(ctx, service).value.path)];
            var o := DeployServiceSpec(ctx, run, service, id);
            var c := ScheduledTasksSpec(ctx, u, id, DependFilter(service));
            (!ctx.config[ctx.cluster].scheduledTasksKey ==> o == Outcome(u, Ok(arn))) &&
            (ctx.config[ctx.cluster].scheduledTasksKey ==> o == Outcome(c.run, if c.result.Err? then Err(c.result.error) else Ok(arn)))
  {
    ServiceRegisteredRun(ctx, run, service, id);
  }

  /**
   * A `scheduled_tasks` key whose value is nil: the service is still updated,
   * then the cascade raises `NoMethodError` on nil and nothing else is called.
   */
  lemma UpdateServiceNilScheduledTasks(ctx: Context, run: Run, service: string, config: ServiceConfig, arn: string, id: string)
    requires ctx.cluster in ctx.config && ctx.env.serviceExists(service)
    requires ctx.config[ctx.cluster].scheduledTasksKey && ctx.config[ctx.cluster].scheduledTasks.None?
    ensures UpdateServiceSpec(ctx, run, service, config, arn, id)
         == Outcome(Run(run.cache, run.trace + [UpdateService(service, arn, ServiceParams(config.settings))]),
                    Err(NoMethodOnNil("each")))
  {
  }

  /**
   * The cascade of `deploy_service`: after the service update, no image is
   * pushed, and exactly the rules with a target depending on the service are
   * updated.
   */
  lemma DeployServiceCascade(ctx: Context, run: Run, service: string, id: string)
    requires ServiceLookup(ctx, service).Ok? && ServiceLookup(ctx, service).value.containers != []
    requires ctx.env.serviceExists(service)
    requires ctx.config[ctx.cluster].scheduledTasksKey && ctx.config[ctx.cluster].scheduledTasks.Some?
    ensures var config := ServiceLookup(ctx, service).value;
            var o := DeployServiceSpec(ctx, run, service, id);
            var after := |ServicePrelude(ctx, run, config, id)| + 1;
            after <= |o.run.trace| &&
            NoPushes(o.run.trace[after..]) &&
            RuleUpdates(o.run.trace[after..]) == ExpectedUpdates(ctx, o.run.cache, DependFilter(service), Rules(ctx))
  {
    var updated := ServiceUpdated(ctx, run, service, id);
    ServiceUpdatedRun(ctx, run, service, id);
    DeployServiceFromUpdated(ctx, run, service, id);
    var cascade := ScheduledTasksSpec(ctx, updated, id, DependFilter(service));
    assert Grows(updated, cascade.run) && NoPushes(Since(updated, cascade.run)) by {
      CascadeSucceeds(ctx, updated, id, service);
    }
    assert RuleUpdates(Since(updated, cascade.run)) == ExpectedUpdates(ctx, cascade.run.cache, DependFilter(service), Rules(ctx)) by {
      ScheduledTasksOutcome(ctx, updated, id, DependFilter(service));
    }
  }

  /**
   * `deploy_run_task` that gets past its lookups: the images are pushed, the
   * task definition is registered unless cached, and the task is run with the
   * registered ARN and the options of the (possibly overridden) entry.
   */
  lemma DeployRunTaskExecuted(ctx: Context, run: Run, name: string, overrideContainer: Option<string>,
                              overrideCommand: Option<string>, id: string)
    requires RunTaskLookup(ctx, name).Ok?
    requires Overridden(RunTaskLookup(ctx, name).value, overrideContainer, overrideCommand).Ok?
    requires Overridden(RunTaskLookup(ctx, name).value, overrideContainer, overrideCommand).value.containers != []
    ensures var config := Overridden(RunTaskLookup(ctx, name).value, overrideContainer, overrideCommand).value;
            var o := DeployRunTaskSpec(ctx, run, name, overrideContainer, overrideCommand, id);
            var path := TaskPath(ctx, config.path);
            var options := RunTaskOptionsOf(config, ctx.env.roleArn);
            path in o.run.cache &&
            o.result == Ok(ctx.env.runTask(o.run.cache[path], options)) &&
            o.run.trace == run.trace + Pushes(ctx.env, config.containers, config.path, id) + Registration(run, path, id)
                                     + [ExecuteRunTask(o.run.cache[path], options)]
  {
  }

  /** `deploy_run_task` for an entry with no container: nothing is called and the build error is raised. */
  lemma DeployRunTaskNoImage(ctx: Context, run: Run, name: string, overrideContainer: Option<string>,
                             overrideCommand: Option<string>, id: string)
    requires RunTaskLookup(ctx, name).Ok?
    requires Overridden(RunTaskLookup(ctx, name).value, overrideContainer, overrideCommand).Ok?
    requires Overridden(RunTaskLookup(ctx, name).value, overrideContainer, overrideCommand).value.containers == []
    ensures DeployRunTaskSpec(ctx, run, name, overrideContainer, overrideCommand, id) == Outcome(run, Err(ValidationError(NoImage)))
  {
    assert run.trace + [] == run.trace;
  }
}
