/**
 * The pure parts of the git code manager: the limited branch and tag
 * listings of `Git::Lib`, the remote-branch filter, `base_path`, the
 * task-definition path, the refs `update` checks out, and where
 * `fetch_config` reads from.  The git commands themselves are not modelled:
 * their output lines are parameters.
 */
module CodeManager {
  import opened Wrappers
  import opened RubyStrings
  import opened Paths

  // ---------------------------------------------------------------------------
  // Git::Lib#branches_all and Git::Lib#tags
  // ---------------------------------------------------------------------------

  /** One line of `git branch -a`: the branch name and whether it is checked out. */
  datatype BranchEntry = BranchEntry(name: string, current: bool)

  /**
   * How many of `n` lines a limited listing returns.  The loops stop right
   * after the line that makes `count == limit`, so they stop early only at
   * the limit, and a limit below 1 (or none) never stops them.
   */
  function Visited(n: nat, limit: Option<int>): (k: nat)
    ensures k <= n
    ensures k < n ==> k >= 1 && limit == Some(k)
    ensures limit.Some? && 1 <= limit.value <= n ==> k == limit.value
  {
    if limit.Some? && 1 <= limit.value <= n then limit.value else n
  }

  /** The entry for one line: the current branch is marked by a leading "* ". */
  function BranchLine(line: string): BranchEntry {
    BranchEntry(Strip(RemoveMarker(line)), StartsWith(line, "* "))
  }

  method BranchesAll(lines: seq<string>, limit: Option<int>) returns (arr: seq<BranchEntry>)
    ensures |arr| == Visited(|lines|, limit)
    ensures forall i :: 0 <= i < |arr| ==> arr[i] == BranchLine(lines[i])
  {
    arr := [];
    var count := 0;
    var i := 0;
    while i < |lines|
      invariant 0 <= i <= |lines| && count == i == |arr|
      invariant limit.Some? && 1 <= limit.value ==> i < limit.value
      invariant forall j :: 0 <= j < i ==> arr[j] == BranchLine(lines[j])
    {
      arr := arr + [BranchLine(lines[i])];
      count := count + 1;
      i := i + 1;
      if limit == Some(count) {
        break;
      }
    }
  }

  method Tags(lines: seq<string>, limit: Option<int>) returns (arr: seq<string>)
    ensures arr == lines[..Visited(|lines|, limit)]
  {
    arr := [];
    var count := 0;
    var i := 0;
    while i < |lines|
      invariant 0 <= i <= |lines| && count == i
      invariant limit.Some? && 1 <= limit.value ==> i < limit.value
      invariant arr == lines[..i]
    {
      arr := arr + [lines[i]];
      count := count + 1;
      i := i + 1;
      if limit == Some(count) {
        break;
      }
    }
  }

  /** The way `git branch` prints a branch: "* " before the current one, two spaces before the others. */
  function FormatBranchLine(name: string, current: bool): string {
    (if current then "* " else "  ") + name
  }

  /** Reading a printed branch line back gives its name and its current flag. */
  lemma BranchLineOfFormat(name: string, current: bool)
    requires name != [] && '*' !in name
    requires !IsStripChar(name[0]) && !IsStripChar(name[|name| - 1])
    ensures BranchLine(FormatBranchLine(name, current)) == BranchEntry(name, current)
  {
    var line := FormatBranchLine(name, current);
    RemoveMarkerIdentity(name);
    StripIdentity(name);
    if current {
      assert line[2..] == name;
    } else {
      assert line[1..] == " " + name;
      assert (" " + name)[1..] == name;
      assert '*' !in line;
      RemoveMarkerIdentity(line);
      assert LeadCount(line) == 2 by {
        assert line[2..] == name;
        assert LeadCount(line[1..]) == 1 + LeadCount(line[2..]);
      }
      assert line[2..] == name;
    }
  }

  // ---------------------------------------------------------------------------
  // origin_branches
  // ---------------------------------------------------------------------------

  /** The remote branch names without the symbolic ones (those containing "->"), in order. */
  function DirectBranches(names: seq<string>): (r: seq<string>)
    ensures |r| <= |names|
    ensures forall x :: x in r <==> x in names && !Includes(x, "->")
    decreases |names|
  {
    if names == [] then []
    else
      var last := names[|names| - 1];
      var init := names[..|names| - 1];
      assert names == init + [last];
      DirectBranches(init) + (if Includes(last, "->") then [] else [last])
  }

  /** One more name is filtered on its own, after the earlier ones. */
  lemma DirectBranchesSnoc(names: seq<string>, name: string)
    ensures DirectBranches(names + [name]) == DirectBranches(names) + DirectBranches([name])
  {
    assert (names + [name])[..|names|] == names;
    assert [name][..0] == [];
  }

  /** Filtering a concatenation filters each part, keeping the order and the repeats. */
  lemma {:induction false} DirectBranchesAppend(a: seq<string>, b: seq<string>)
    ensures DirectBranches(a + b) == DirectBranches(a) + DirectBranches(b)
    decreases |b|
  {
    if |b| == 0 {
      assert a + b == a;
    } else {
      var n := |b| - 1;
      var init, last := b[..n], b[n];
      assert |init| == n;
      assert b == init + [last];
      assert a + b == (a + init) + [last];
      var x, y, z := DirectBranches(a), DirectBranches(init), DirectBranches([last]);
      calc {
        DirectBranches(a + b);
        { DirectBranchesSnoc(a + init, last); }
        DirectBranches(a + init) + z;
        { DirectBranchesAppend(a, init); }
        (x + y) + z;
        x + (y + z);
        { DirectBranchesSnoc(init, last); }
        x + DirectBranches(b);
      }
    }
  }

  /** One name is kept iff it contains no "->". */
  lemma DirectBranchesSingle(name: string)
    ensures DirectBranches([name]) == if Includes(name, "->") then [] else [name]
  {
    assert [name][..0] == [];
  }

  method OriginBranches(remoteNames: seq<string>) returns (branches: seq<string>)
    ensures branches == DirectBranches(remoteNames)
  {
    branches := [];
    var i := 0;
    while i < |remoteNames|
      invariant 0 <= i <= |remoteNames|
      invariant branches == DirectBranches(remoteNames[..i])
    {
      var name := remoteNames[i];
      assert remoteNames[..i + 1][..i] == remoteNames[..i];
      if !Includes(name, "->") {
        branches := branches + [name];
      }
      i := i + 1;
    }
    assert remoteNames[..i] == remoteNames;
  }

  lemma {:induction false} NotIncludes(s: string, t: string)
    requires t != [] && t[0] !in s
    ensures !Includes(s, t)
    decreases |s|
  {
    if s != [] {
      NotIncludes(s[1..], t);
    }
  }

  /** The case of the repository's own test: "master" is kept and "->" is dropped. */
  lemma DirectBranchesExample()
    ensures DirectBranches(["master", "->"]) == ["master"]
  {
    NotIncludes("master", "->");
    assert Includes("->", "->");
    assert ["master", "->"][..1] == ["master"];
    assert ["master"][..0] == [];
  }

  // ---------------------------------------------------------------------------
  // base_path, task_definition_config_path, update, fetch_config
  // ---------------------------------------------------------------------------

  /** The entry of the repository in the settings; its `base_path` may be nil. */
  datatype RepositoryConfig = RepositoryConfig(basePath: Option<string>)

  /** `base_path`: the clone directory, or the configured sub-directory of it. */
  function BasePath(reposPath: string, config: Option<RepositoryConfig>): string {
    if config.None? || config.value.basePath.None? then reposPath
    else JoinPath(reposPath, config.value.basePath.value)
  }

  /** A configured relative `base_path` of plain names is a sub-directory of the clone. */
  lemma BasePathNested(repos: seq<string>, sub: seq<string>)
    requires repos != [] && AllNormal(repos)
    requires sub != [] && AllNormal(sub)
    ensures BasePath(Render(Path(true, repos)), Some(RepositoryConfig(Some(JoinWith(sub, '/')))))
         == Render(Path(true, repos)) + "/" + JoinWith(sub, '/')
  {
    JoinPathNormal(true, repos, sub);
  }

  /** An absolute `base_path` replaces the clone directory. */
  lemma BasePathAbsolute(reposPath: string, sub: string)
    ensures BasePath(reposPath, Some(RepositoryConfig(Some("/" + sub)))) == "/" + sub
  {
    RenderParse("/" + sub);
  }

  /** `task_definition_config_path`: the path under `base_path`, expanded. */
  function TaskDefinitionConfigPath(basePath: string, path: string, cwd: seq<string>): (r: string)
    ensures SlashFree(cwd) ==> |r| > 0 && r[0] == '/'
  {
    Expand(JoinPath(basePath, path), cwd)
  }

  /** A "./"-relative path ends up directly beneath a normal absolute base path. */
  lemma TaskDefinitionConfigPathDotRelative(base: seq<string>, rel: seq<string>, cwd: seq<string>)
    requires base != [] && AllNormal(base)
    requires rel != [] && AllNormal(rel)
    ensures TaskDefinitionConfigPath(Render(Path(true, base)), "./" + JoinWith(rel, '/'), cwd)
         == Render(Path(true, base)) + "/" + JoinWith(rel, '/')
  {
    var bp := Path(true, base);
    var relStr := "./" + JoinWith(rel, '/');
    assert JoinPath(Render(bp), relStr) == Render(Path(true, base + rel)) by {
      ParseRender(bp);
      ParseDotRelative(rel);
      JoinDotNormal(true, base, rel);
    }
    RenderAppend(true, base, rel);
    ExpandNormal(base + rel, cwd);
  }

  /** The components of the repository's example path and their rendering. */
  lemma ExampleComponents()
    ensures AllNormal(["config", "deploy", "path.yml"])
    ensures JoinWith(["config", "deploy", "path.yml"], '/') == "config/deploy/path.yml"
  {
    var rel := ["config", "deploy", "path.yml"];
    assert rel[1..] == ["deploy", "path.yml"];
    assert rel[1..][1..] == ["path.yml"];
  }

  lemma ExampleDotted(j: string)
    requires j == "config/deploy/path.yml"
    ensures "./" + j == "./config/deploy/path.yml"
  {
  }

  lemma ExampleSlashed(j: string)
    requires j == "config/deploy/path.yml"
    ensures "/" + j == "/config/deploy/path.yml"
  {
  }

  lemma StringAssoc(a: string, b: string, c: string)
    ensures a + b + c == a + (b + c)
  {
  }

  /** The repository's test: "./config/deploy/path.yml" lands at "<base_path>/config/deploy/path.yml". */
  lemma TaskDefinitionConfigPathExample(base: seq<string>, path: string, cwd: seq<string>)
    requires base != [] && AllNormal(base)
    requires path == "./config/deploy/path.yml"
    ensures TaskDefinitionConfigPath(Render(Path(true, base)), path, cwd)
         == Render(Path(true, base)) + "/config/deploy/path.yml"
  {
    var rel := ["config", "deploy", "path.yml"];
    var j := JoinWith(rel, '/');
    ExampleComponents();
    ExampleDotted(j);
    ExampleSlashed(j);
    StringAssoc(Render(Path(true, base)), "/", j);
    TaskDefinitionConfigPathDotRelative(base, rel, cwd);
  }

  /** What `update` passes to `git checkout` and `git reset --hard`. */
  datatype Checkout = Checkout(checkout: string, resetHard: string)

  function TagRef(tag: Option<string>): string {
    "refs/tags/" + (if tag.Some? then tag.value else "")
  }

  /** A branch is checked out and reset to its remote head; otherwise the tag ref is used for both. */
  function UpdateRefs(branch: Option<string>, tag: Option<string>): (r: Checkout)
    ensures Present(branch) ==> r.checkout == branch.value && r.resetHard == "origin/" + r.checkout
    ensures !Present(branch) ==> r.checkout == r.resetHard == TagRef(tag)
  {
    if Present(branch) then Checkout(branch.value, "origin/" + branch.value)
    else Checkout(TagRef(tag), TagRef(tag))
  }

  /** The revision and file `fetch_config` passes to `git show`. */
  datatype ConfigSource = ConfigSource(revision: string, path: string)

  function FetchConfigSource(config: Option<RepositoryConfig>, branch: Option<string>, tag: Option<string>, path: string): (r: ConfigSource)
    ensures Present(branch) ==> r.revision == "origin/" + branch.value
    ensures !Present(branch) ==> r.revision == "tags/" + (if tag.Some? then tag.value else "")
    ensures (config.None? || !Present(config.value.basePath)) ==> r.path == path
  {
    var revision := if Present(branch) then "origin/" + branch.value
                    else "tags/" + (if tag.Some? then tag.value else "");
    var file := if config.Some? && Present(config.value.basePath)
                then Render(Clean(Join(Parse(config.value.basePath.value), Parse(path))))
                else path;
    ConfigSource(revision, file)
  }

  /** A relative base path of names joined with a relative path of names. */
  lemma JoinUnderBase(sub: seq<string>, file: seq<string>)
    requires sub != [] && AllNormal(sub)
    requires file != [] && AllNormal(file)
    ensures Join(Parse(JoinWith(sub, '/')), Parse(JoinWith(file, '/'))) == Path(false, sub + file)
  {
    ParseRender(Path(false, sub));
    ParseRender(Path(false, file));
    JoinNormal(false, sub, file);
  }

  /** With a relative base path of plain names, the configuration file is read from beneath it. */
  lemma FetchConfigUnderBasePath(sub: seq<string>, file: seq<string>, branch: Option<string>, tag: Option<string>)
    requires sub != [] && AllNormal(sub)
    requires file != [] && AllNormal(file)
    requires Present(Some(JoinWith(sub, '/')))
    ensures FetchConfigSource(Some(RepositoryConfig(Some(JoinWith(sub, '/')))), branch, tag, JoinWith(file, '/')).path
         == JoinWith(sub, '/') + "/" + JoinWith(file, '/')
  {
    JoinUnderBase(sub, file);
    AllNormalAppend(sub, file);
    CleanNormal(false, sub + file);
    RenderAppend(false, sub, file);
  }
}
