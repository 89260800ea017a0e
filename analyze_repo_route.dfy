/**
 * The `POST` handler of the analyze-repo route: four health scores and an
 * overall score computed from the file tree, and the list of suggested
 * services, lifted out of the HTTP handler.
 */
module AnalyzeRepoRoute {
  import opened Wrappers
  import opened Text
  import GitHub

  datatype Scores = Scores(documentation: nat, security: nat, ci: nat, hygiene: nat, overall: nat)

  const WorkflowsDir := GitHub.WorkflowsDir

  // ---------------------------------------------------------------------------
  // Path tests over the file tree
  // ---------------------------------------------------------------------------

  /** `fileTree.some(f => f.toLowerCase() === name)`, scanning from the front. */
  predicate SomeLowerEquals(tree: seq<string>, name: string) {
    |tree| > 0 && (ToLower(tree[0]) == name || SomeLowerEquals(tree[1..], name))
  }

  /** `fileTree.some(f => f.toLowerCase().includes(needle))` */
  predicate SomeLowerIncludes(tree: seq<string>, needle: string) {
    |tree| > 0 && (Includes(ToLower(tree[0]), needle) || SomeLowerIncludes(tree[1..], needle))
  }

  /** `fileTree.some(f => f.startsWith(prefix))` */
  predicate SomeStartsWith(tree: seq<string>, prefix: string) {
    |tree| > 0 && (StartsWith(tree[0], prefix) || SomeStartsWith(tree[1..], prefix))
  }

  /** The scan finds a path exactly when some path of the tree, lowercased, equals the name. */
  lemma {:induction false} SomeLowerEqualsExists(tree: seq<string>, name: string)
    ensures SomeLowerEquals(tree, name) <==> exists f :: f in tree && ToLower(f) == name
  {
    if |tree| > 0 {
      SomeLowerEqualsExists(tree[1..], name);
      assert tree == [tree[0]] + tree[1..];
    }
  }

  /** The scan finds a path exactly when some path of the tree, lowercased, contains the needle. */
  lemma {:induction false} SomeLowerIncludesExists(tree: seq<string>, needle: string)
    ensures SomeLowerIncludes(tree, needle) <==> exists f :: f in tree && Includes(ToLower(f), needle)
  {
    if |tree| > 0 {
      SomeLowerIncludesExists(tree[1..], needle);
      assert tree == [tree[0]] + tree[1..];
    }
  }

  /** The scan finds a path exactly when some path of the tree starts with the prefix. */
  lemma {:induction false} SomeStartsWithExists(tree: seq<string>, prefix: string)
    ensures SomeStartsWith(tree, prefix) <==> exists f :: f in tree && StartsWith(f, prefix)
  {
    if |tree| > 0 {
      SomeStartsWithExists(tree[1..], prefix);
      assert tree == [tree[0]] + tree[1..];
    }
  }

  /** `fileTree.filter(f => f.startsWith(prefix))` */
  function StartingWith(tree: seq<string>, prefix: string): seq<string> {
    if tree == [] then []
    else (if StartsWith(tree[0], prefix) then [tree[0]] else []) + StartingWith(tree[1..], prefix)
  }

  lemma {:induction false} StartingWithMembers(tree: seq<string>, prefix: string, f: string)
    ensures f in StartingWith(tree, prefix) <==> f in tree && StartsWith(f, prefix)
  {
    if tree != [] {
      StartingWithMembers(tree[1..], prefix, f);
      assert tree == [tree[0]] + tree[1..];
    }
  }

  /** A path kept by the `.filter` for a prefix means the `.some` test for that prefix succeeds. */
  lemma WorkflowCountImpliesSome(tree: seq<string>, prefix: string)
    requires |StartingWith(tree, prefix)| > 0
    ensures SomeStartsWith(tree, prefix)
  {
    var f := StartingWith(tree, prefix)[0];
    StartingWithMembers(tree, prefix, f);
    SomeStartsWithExists(tree, prefix);
  }

  /** Only a root-level `README.md` (any ASCII case) earns the bonus: a README in a subdirectory earns nothing. */
  lemma NestedReadmeEarnsNothing(tree: seq<string>)
    ensures SomeLowerEquals(tree, "readme.md") <==>
      exists f :: f in tree && '/' !in f && ToLower(f) == "readme.md"
  {
    forall f | f in tree && ToLower(f) == "readme.md" ensures '/' !in f {
      LowerKeepsSlash(f);
    }
    SomeLowerEqualsExists(tree, "readme.md");
  }

  /** `README.md` at the root earns the bonus, `docs/README.md` does not. */
  lemma ReadmeAtRootOnly()
    ensures SomeLowerEquals(["README.md"], "readme.md")
    ensures !SomeLowerEquals(["docs/README.md"], "readme.md")
  {
    assert ToLower("README.md") == "readme.md";
    assert SomeLowerEquals(["README.md"], "readme.md");
    assert "docs/README.md"[4] == '/';
    NestedReadmeEarnsNothing(["docs/README.md"]);
  }

  // ---------------------------------------------------------------------------
  // Scores
  // ---------------------------------------------------------------------------

  /** `Math.min` */
  function Min(a: int, b: int): (r: int)
    ensures r <= a && r <= b && (r == a || r == b)
  {
    if a <= b then a else b
  }

  /** `Math.round`: the nearest integer, halves rounded up. */
  function RoundHalfUp(x: real): int {
    (x + 0.5).Floor
  }

  /** Rounding a quarter of a non-negative integer to the nearest integer is `(sum + 2) div 4`. */
  lemma RoundQuarter(sum: nat)
    ensures RoundHalfUp(sum as real / 4.0) == (sum + 2) / 4
  {
    var q := (sum + 2) / 4;
    var r := (sum + 2) % 4;
    assert sum + 2 == 4 * q + r;
    assert sum as real / 4.0 + 0.5 == q as real + r as real / 4.0;
  }

  /**
   * The points of the documentation and hygiene scores: 40 when some path,
   * lowercased, is `name`, and 30 for each needle that some lowercased path
   * contains. The three bonuses never exceed 100, so the clamp is a no-op.
   */
  function PresencePoints(tree: seq<string>, name: string, needle1: string, needle2: string): (r: nat)
    ensures r <= 100
    ensures r in {40, 70, 100} <==> SomeLowerEquals(tree, name)
    ensures r in {0, 30, 60} <==> !SomeLowerEquals(tree, name)
  {
    (if SomeLowerEquals(tree, name) then 40 else 0)
    + (if SomeLowerIncludes(tree, needle1) then 30 else 0)
    + (if SomeLowerIncludes(tree, needle2) then 30 else 0)
  }

  /** The points of the security score: 30 for a Dependabot configuration, 30 for more than one workflow path. */
  function SecurityPoints(tree: seq<string>): (r: nat)
    ensures r in {0, 30, 60}
  {
    (if SomeStartsWith(tree, ".github/dependabot") then 30 else 0)
    + (if |StartingWith(tree, WorkflowsDir)| > 1 then 30 else 0)
  }

  /** The points of the CI score: all or nothing, depending on a path under `.github/workflows/`. */
  function CiPoints(tree: seq<string>): (r: nat)
    ensures r == 100 <==> SomeStartsWith(tree, WorkflowsDir)
    ensures r == 0 <==> !SomeStartsWith(tree, WorkflowsDir)
  {
    if SomeStartsWith(tree, WorkflowsDir) then 100 else 0
  }

  /**
   * `Math.round((documentation + security + ci + hygiene) / 4)`: the
   * average rounded to the nearest integer, halves up, and no more than
   * 100 when each score is at most 100.
   */
  function Overall(documentation: nat, security: nat, ci: nat, hygiene: nat): (r: int)
    ensures r == (documentation + security + ci + hygiene + 2) / 4
    ensures 4 * r - 2 <= documentation + security + ci + hygiene < 4 * r + 2
    ensures documentation <= 100 && security <= 100 && ci <= 100 && hygiene <= 100 ==> 0 <= r <= 100
  {
    RoundQuarter(documentation + security + ci + hygiene);
    RoundHalfUp((documentation + security + ci + hygiene) as real / 4.0)
  }

  /** The scores `POST` reports for a file tree. */
  function RouteScores(tree: seq<string>): Scores {
    var documentation := PresencePoints(tree, "readme.md", "contribut", "license");
    var security := SecurityPoints(tree);
    var ci := CiPoints(tree);
    var hygiene := PresencePoints(tree, ".gitignore", "codeowner", "changelog");
    Scores(documentation, security, ci, hygiene, Overall(documentation, security, ci, hygiene))
  }

  /**
   * What the reported scores promise: each lies in [0, 100]; security is 0,
   * 30 or 60, and 60 (which needs several workflow files) implies full CI;
   * the overall score is the rounded average and lies in [0, 100].
   */
  lemma RouteScoresProperties(tree: seq<string>)
    ensures var s := RouteScores(tree);
      && s.documentation <= 100 && s.security <= 100 && s.ci <= 100 && s.hygiene <= 100
      && s.security in {0, 30, 60}
      && (s.ci == 100 <==> SomeStartsWith(tree, WorkflowsDir))
      && (s.security == 60 ==> s.ci == 100)
      && s.overall == (s.documentation + s.security + s.ci + s.hygiene + 2) / 4
      && 0 <= s.overall <= 100
  {
    if |StartingWith(tree, WorkflowsDir)| > 1 {
      WorkflowCountImpliesSome(tree, WorkflowsDir);
    }
  }

  /** The documentation or hygiene block of `POST`: three `+=` bonuses, then `Math.min(score, 100)`. */
  method PresenceScore(tree: seq<string>, name: string, needle1: string, needle2: string) returns (score: nat)
    ensures score == PresencePoints(tree, name, needle1, needle2)
  {
    score := 0;
    if SomeLowerEquals(tree, name) { score := score + 40; }
    if SomeLowerIncludes(tree, needle1) { score := score + 30; }
    if SomeLowerIncludes(tree, needle2) { score := score + 30; }
    score := Min(score, 100);
  }

  /** The security block of `POST`: two `+=` bonuses, then `Math.min(security, 100)`. */
  method SecurityScore(tree: seq<string>) returns (security: nat)
    ensures security == SecurityPoints(tree)
  {
    security := 0;
    if SomeStartsWith(tree, ".github/dependabot") { security := security + 30; }
    if |StartingWith(tree, WorkflowsDir)| > 1 { security := security + 30; }
    security := Min(security, 100);
  }

  /** The CI block of `POST`: one `+=` bonus, then `Math.min(ci, 100)`. */
  method CiScore(tree: seq<string>) returns (ci: nat)
    ensures ci == CiPoints(tree)
  {
    ci := 0;
    if SomeStartsWith(tree, WorkflowsDir) { ci := ci + 100; }
    ci := Min(ci, 100);
  }

  /** The score block of `POST`: the four clamped scores and their rounded average. */
  method ComputeScores(tree: seq<string>) returns (s: Scores)
    ensures s == RouteScores(tree)
  {
    var documentation := PresenceScore(tree, "readme.md", "contribut", "license");
    var security := SecurityScore(tree);
    var ci := CiScore(tree);
    var hygiene := PresenceScore(tree, ".gitignore", "codeowner", "changelog");
    var overall := Overall(documentation, security, ci, hygiene);
    s := Scores(documentation, security, ci, hygiene, overall);
  }

  // ---------------------------------------------------------------------------
  // Suggested services
  // ---------------------------------------------------------------------------

  /** The services the route can suggest. */
  datatype Service =
    | ReviewDockerfile | GenerateDockerfile | ReviewWorkflow | GenerateWorkflow
    | SecurityAudit | GenerateDocs | ExplainDockerfile | ExplainWorkflow

  /** The identifier each service is pushed as. */
  function Id(sv: Service): string {
    match sv
    case ReviewDockerfile => "review-dockerfile"
    case GenerateDockerfile => "generate-dockerfile"
    case ReviewWorkflow => "review-workflow"
    case GenerateWorkflow => "generate-workflow"
    case SecurityAudit => "security-audit"
    case GenerateDocs => "generate-docs"
    case ExplainDockerfile => "explain-dockerfile"
    case ExplainWorkflow => "explain-workflow"
  }

  /** No two services share an identifier, so the identifiers in a response name the services unambiguously. */
  lemma IdInjective(a: Service, b: Service)
    ensures Id(a) == Id(b) <==> a == b
  {
    if a != b {
      if |Id(a)| == |Id(b)| {
        assert Id(a)[0] != Id(b)[0];
      }
    }
  }

  /**
   * The services suggested for a repository, given whether it has a
   * Dockerfile and whether it has workflows: review what exists and
   * generate what is missing, always the security audit and the docs,
   * then an explanation of each artifact that exists.
   */
  function Suggested(hasDockerfile: bool, hasWorkflows: bool): seq<Service> {
    [if hasDockerfile then ReviewDockerfile else GenerateDockerfile,
     if hasWorkflows then ReviewWorkflow else GenerateWorkflow,
     SecurityAudit, GenerateDocs]
    + (if hasDockerfile then [ExplainDockerfile] else [])
    + (if hasWorkflows then [ExplainWorkflow] else [])
  }

  /** The suggestions spelled out for each of the four kinds of repository. */
  lemma SuggestedCases(hasDockerfile: bool, hasWorkflows: bool)
    ensures var d := if hasDockerfile then ReviewDockerfile else GenerateDockerfile;
      var w := if hasWorkflows then ReviewWorkflow else GenerateWorkflow;
      var ss := Suggested(hasDockerfile, hasWorkflows);
      && (hasDockerfile && hasWorkflows ==> ss == [d, w, SecurityAudit, GenerateDocs, ExplainDockerfile, ExplainWorkflow])
      && (hasDockerfile && !hasWorkflows ==> ss == [d, w, SecurityAudit, GenerateDocs, ExplainDockerfile])
      && (!hasDockerfile && hasWorkflows ==> ss == [d, w, SecurityAudit, GenerateDocs, ExplainWorkflow])
      && (!hasDockerfile && !hasWorkflows ==> ss == [d, w, SecurityAudit, GenerateDocs])
  {
  }

  /** An explanation is offered exactly for the artifacts that are reviewed, and an artifact is reviewed exactly when it exists. */
  lemma SuggestedExplainsReviewed(hasDockerfile: bool, hasWorkflows: bool)
    ensures var ss := Suggested(hasDockerfile, hasWorkflows);
      && 4 <= |ss| <= 6
      && (ExplainDockerfile in ss <==> ReviewDockerfile in ss)
      && (ExplainWorkflow in ss <==> ReviewWorkflow in ss)
      && (ReviewDockerfile in ss <==> hasDockerfile)
      && (ReviewWorkflow in ss <==> hasWorkflows)
      && (GenerateDockerfile in ss <==> !hasDockerfile)
      && (GenerateWorkflow in ss <==> !hasWorkflows)
      && SecurityAudit in ss && GenerateDocs in ss
  {
    SuggestedCases(hasDockerfile, hasWorkflows);
  }

  /** No service is suggested twice, so neither are their identifiers. */
  lemma {:induction false} SuggestedDistinct(hasDockerfile: bool, hasWorkflows: bool)
    ensures var ss := Suggested(hasDockerfile, hasWorkflows);
      forall i, j :: 0 <= i < j < |ss| ==> ss[i] != ss[j] && Id(ss[i]) != Id(ss[j])
  {
    var ss := Suggested(hasDockerfile, hasWorkflows);
    SuggestedCases(hasDockerfile, hasWorkflows);
    forall i, j | 0 <= i < j < |ss| ensures ss[i] != ss[j] && Id(ss[i]) != Id(ss[j]) {
      IdInjective(ss[i], ss[j]);
    }
  }

  /** The `services` array built with `push`, in the order of the pushes. */
  method SuggestServices(tree: seq<string>, dockerfileContent: Option<string>) returns (services: seq<Service>)
    ensures services == Suggested(GitHub.Truthy(dockerfileContent), SomeStartsWith(tree, WorkflowsDir))
  {
    services := [];
    if GitHub.Truthy(dockerfileContent) {
      services := services + [ReviewDockerfile];
    } else {
      services := services + [GenerateDockerfile];
    }
    if SomeStartsWith(tree, WorkflowsDir) {
      services := services + [ReviewWorkflow];
    } else {
      services := services + [GenerateWorkflow];
    }
    services := services + [SecurityAudit];
    services := services + [GenerateDocs];
    if GitHub.Truthy(dockerfileContent) {
      services := services + [ExplainDockerfile];
    }
    if SomeStartsWith(tree, WorkflowsDir) {
      services := services + [ExplainWorkflow];
    }
  }

  // ---------------------------------------------------------------------------
  // The handler
  // ---------------------------------------------------------------------------

  datatype Body =
    | ErrorBody(message: string)
    | Report(analysis: GitHub.Analysis, services: seq<Service>, scores: Scores)

  datatype Response = Response(status: nat, body: Body)

  /**
   * `POST` with the request body's `repo` field (absent or a string): 400
   * without a repository, 500 when `analyzeRepo` throws, otherwise the
   * analysis with its services and scores.
   */
  method Post(repo: Option<string>, remote: GitHub.Remote) returns (resp: Response)
    requires GitHub.WellFormed(remote)
    ensures resp.status == 400 <==> !GitHub.Truthy(repo)
    ensures !GitHub.Truthy(repo) ==> resp == Response(400, ErrorBody("No repo provided"))
    ensures GitHub.Truthy(repo) && GitHub.ParseRepoUrl(repo.value).Failure? ==>
      resp == Response(500, ErrorBody(GitHub.InvalidUrlMessage))
    ensures GitHub.Truthy(repo) && GitHub.ParseRepoUrl(repo.value).Success? ==>
      var rr := GitHub.ParseRepoUrl(repo.value).value;
      && (rr !in remote ==> resp == Response(500, ErrorBody("repos.get")))
      && (rr in remote && remote[rr].languages.None? ==> resp == Response(500, ErrorBody("repos.listLanguages")))
      && (rr in remote && remote[rr].languages.Some? ==> resp.status == 200)
    ensures resp.status == 200 <==> resp.body.Report?
    ensures resp.status in {200, 400, 500}
    ensures resp.body.Report? ==>
      && GitHub.Truthy(repo) && GitHub.ParseRepoUrl(repo.value).Success?
      && var rr := GitHub.ParseRepoUrl(repo.value).value;
         && rr in remote
         && GitHub.AnalysisOf(resp.body.analysis, rr, remote[rr])
    ensures resp.body.Report? ==>
      && resp.body.scores == RouteScores(resp.body.analysis.fileTree)
      && resp.body.services ==
         Suggested(GitHub.Truthy(resp.body.analysis.dockerfileContent), resp.body.scores.ci == 100)
  {
    if !GitHub.Truthy(repo) {
      return Response(400, ErrorBody("No repo provided"));
    }
    var analysis := GitHub.AnalyzeRepo(repo.value, remote);
    if analysis.Failure? {
      return Response(500, ErrorBody(GitHub.Message(analysis.error)));
    }
    var a := analysis.value;
    var scores := ComputeScores(a.fileTree);
    var services := SuggestServices(a.fileTree, a.dockerfileContent);
    resp := Response(200, Report(a, services, scores));
  }
}
