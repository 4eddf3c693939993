/** The modification pipeline of src/code_modifier/safe_code_modifier.py: validate the
    request, generate the change, pass the security and quality gates, create a branch,
    write the file, commit. Git, Bandit, Pylint, the clock and the file system's failures
    are inputs; the target file is held as its parsed syntax tree. */
module CodeModifier {
  import opened Base
  import opened Text
  import opened PyAst
  import opened CodeTransforms

  const SrcPath := "/app/src"
  const DefaultThreshold := 8.0
  const BranchPrefix := "feature/nexus-auto-mod-"
  const AddTimeoutType := "add_timeout"
  const EnableCachingType := "enable_caching"
  const ServiceKey := "service"
  const TypeKey := "type"
  const DescriptionKey := "description"
  const CommitHead := "feat(autonomous): Apply '"

  /** The failing exits of the pipeline, in the order they are reached. */
  datatype Exit =
    | InvalidRequest
    | GenerationFailed
    | SecurityFailed
    | QualityFailed
    | BranchFailed
    | WriteError(message: string)
    | CommitFailed

  const WriteErrorPrefix := "File write error: "

  /** The `reason` string each exit carries. */
  function Reason(e: Exit): string
  {
    match e
    case InvalidRequest => "Invalid request."
    case GenerationFailed => "Code generation failed."
    case SecurityFailed => "Security scan failed."
    case QualityFailed => "Quality gate failed."
    case BranchFailed => "Could not create Git branch."
    case WriteError(message) => WriteErrorPrefix + message
    case CommitFailed => "Git commit failed."
  }

  /** Each exit can be told from the reason it carries. */
  lemma ReasonsDistinct(a: Exit, b: Exit)
    requires Reason(a) == Reason(b)
    ensures a == b
  {
    var pre := WriteErrorPrefix;
    if a.WriteError? || b.WriteError? {
      assert Reason(a)[0] == 'F';
      assert a.WriteError? && b.WriteError?;
      assert a.message == Reason(a)[|pre|..];
      assert b.message == Reason(b)[|pre|..];
    }
  }

  /** A Python source file: a module `ast.parse` accepts, or text it rejects with `SyntaxError`.
      Unparsing and formatting with black and isort are taken to give back the same tree. */
  datatype Source = Parsed(tree: Node) | Unparsable

  // ---------------------------------------------------------------------------
  // Request and names

  /** `_validate_request`: the keys `service`, `type` and `description` are present
      (their values may be empty). */
  predicate HasRequiredKeys(req: map<string, string>)
  {
    ServiceKey in req && TypeKey in req && DescriptionKey in req
  }

  /** `os.path.join(src_path, service, "app.py")`. */
  function TargetFile(service: string): string
  {
    PathJoin(PathJoin(SrcPath, service), "app.py")
  }

  /** The 14 digits `strftime('%Y%m%d%H%M%S')` produces. */
  predicate IsStamp(s: string)
  {
    |s| == 14 && forall i :: 0 <= i < |s| ==> '0' <= s[i] <= '9'
  }

  function BranchName(stamp: string): string
  {
    BranchPrefix + stamp
  }

  function CommitMessage(kind: string, service: string, description: string): string
  {
    CommitHead + kind + "' to " + service + "\n\n" + description
  }

  /** Where the change lands: under `/app/src/<service>/` for a plain service name, but an
      absolute service name replaces the source root altogether. */
  lemma TargetFilePlacement(service: string)
    ensures service != [] && service[0] != '/' && service[|service| - 1] != '/' ==>
      TargetFile(service) == "/app/src/" + service + "/app.py"
    ensures service == [] ==> TargetFile(service) == "/app/src/app.py"
    ensures service != [] && service[0] == '/' && service[|service| - 1] != '/' ==>
      TargetFile(service) == service + "/app.py"
  {
    if service != [] && service[0] != '/' && service[|service| - 1] != '/' {
      PathJoinRelative(SrcPath, service);
      var dir := SrcPath + "/" + service;
      assert dir[|dir| - 1] == service[|service| - 1];
      PathJoinRelative(dir, "app.py");
    }
    if service != [] && service[0] == '/' && service[|service| - 1] != '/' {
      PathJoinAbsolute(SrcPath, service);
      PathJoinRelative(service, "app.py");
    }
  }

  // ---------------------------------------------------------------------------
  // Code generation

  /** What `_generate_code_change` produces: nothing (`None`), a `SyntaxError` escaping
      from `ast.parse`, or the modified module. */
  datatype Generation = NoChange | ParseError | Change(modified: Node)

  predicate IsKnownType(kind: string)
  {
    kind == AddTimeoutType || kind == EnableCachingType
  }

  /** The file is read first (an unreadable file gives `None`), then the type is
      dispatched, then the chosen transform parses and rewrites the module. */
  function CodeChange(files: map<string, Source>, target: string, kind: string): Generation
  {
    if target !in files || !IsKnownType(kind) then NoChange
    else
      match files[target]
      case Unparsable => ParseError
      case Parsed(t) =>
        var modified := if kind == AddTimeoutType then AddTimeout(t) else EnableCaching(t);
        if modified.None? then NoChange else Change(modified.value)
  }

  /** Generation gives nothing exactly when the file cannot be read, the type is unknown, or
      the file parses but holds no suitable `get_knowledge_context` function; it raises
      exactly when a known transform meets a file that does not parse. */
  lemma CodeChangeFails(files: map<string, Source>, target: string, kind: string)
    ensures CodeChange(files, target, kind) == NoChange <==>
      target !in files || !IsKnownType(kind)
      || (files[target].Parsed? && kind == AddTimeoutType
          && forall p, q :: !PostInTarget(files[target].tree, p, q))
      || (files[target].Parsed? && kind == EnableCachingType
          && forall p :: !TargetAt(files[target].tree, p))
    ensures CodeChange(files, target, kind) == ParseError <==>
      target in files && IsKnownType(kind) && files[target] == Unparsable
  {
    if target in files && files[target].Parsed? {
      AddTimeoutFailsIff(files[target].tree);
      EnableCachingFailsIff(files[target].tree);
    }
  }

  // ---------------------------------------------------------------------------
  // Gates

  /** Severities in Bandit's ranking order. Bandit's constants module binds `MEDIUM` (and
      the other rank names) to the string itself, and an issue's severity is such a string. */
  datatype Severity = Undefined | Low | Medium | High

  function SeverityName(s: Severity): string
  {
    match s
    case Undefined => "UNDEFINED"
    case Low => "LOW"
    case Medium => "MEDIUM"
    case High => "HIGH"
  }

  /** Position in Bandit's `RANKING` list. */
  function Rank(s: Severity): nat
  {
    match s
    case Undefined => 0
    case Low => 1
    case Medium => 2
    case High => 3
  }

  /** What running Bandit gave: an exception, or the severities of the issues it reported. */
  datatype ScanReport = ScanRaised | Issues(severities: seq<Severity>)

  /** `issue.severity >= bandit.core.constants.MEDIUM` as the source writes it: a comparison
      of two strings. */
  predicate BlocksAsWritten(s: Severity)
  {
    StrGe(SeverityName(s), SeverityName(Medium))
  }

  predicate SecurityGateAsWritten(r: ScanReport)
  {
    r.Issues? && forall i :: 0 <= i < |r.severities| ==> !BlocksAsWritten(r.severities[i])
  }

  /** The comparison as written orders severities alphabetically: a HIGH issue passes the
      gate and an UNDEFINED one blocks it; LOW and MEDIUM are judged as intended. */
  lemma SeverityComparedAsText()
    ensures !BlocksAsWritten(High) && BlocksAsWritten(Undefined)
    ensures BlocksAsWritten(Medium) && !BlocksAsWritten(Low)
    ensures SecurityGateAsWritten(Issues([High]))
    ensures !SecurityGateAsWritten(Issues([Undefined]))
  {
    assert !SecurityGateAsWritten(Issues([Undefined])) by {
      assert Issues([Undefined]).severities[0] == Undefined;
    }
  }

  /** An issue blocks when it ranks at MEDIUM or above. */
  predicate Blocks(s: Severity)
  {
    Rank(s) >= Rank(Medium)
  }

  /** The gate as documented: it passes when Bandit ran and reported nothing of severity
      MEDIUM or HIGH. */
  predicate SecurityGate(r: ScanReport)
  {
    r.Issues? && forall i :: 0 <= i < |r.severities| ==> !Blocks(r.severities[i])
  }

  /** The two gates disagree exactly on HIGH and UNDEFINED issues. */
  lemma SecurityGatesDisagree(s: Severity)
    ensures BlocksAsWritten(s) != Blocks(s) <==> s == High || s == Undefined
    ensures Blocks(s) <==> s == Medium || s == High
  {
    SeverityComparedAsText();
    assert StrLess("LOW", "MEDIUM");
  }

  /** What Pylint gave: an exception, or the global score. */
  datatype LintReport = LintRaised | Score(score: real)

  /** The quality gate passes when Pylint ran and the score is not below the threshold. */
  predicate QualityGate(r: LintReport, threshold: real)
  {
    r.Score? && !(r.score < threshold)
  }

  // ---------------------------------------------------------------------------
  // The whole pipeline

  /** Everything outside the pipeline's own logic: the scanners' reports, whether Git
      accepts the branch and the commit, an `IOError` message from writing, and the
      clock's timestamp. */
  datatype World = World(
    scan: ScanReport,
    lint: LintReport,
    branchAccepted: bool,
    writeError: Option<string>,
    commitAccepted: bool,
    stamp: string)

  datatype Commit = Commit(branch: string, files: seq<string>, message: string)

  datatype Write = Write(path: string, content: Source)

  /** The returned dictionary: SUCCESS with file and branch, FAILED with a reason, or the
      `SyntaxError` that `ast.parse` raises and nothing catches. */
  datatype Outcome = Success(file: string, branch: string) | Failed(exit: Exit) | SyntaxErrorRaised

  /** The outcome together with the effects on the repository and the file system. */
  datatype Run = Run(outcome: Outcome, branch: Option<string>, write: Option<Write>, commit: Option<Commit>)

  /** `apply_modification` as a function of the request, the files, whether a repository
      exists, the quality threshold and the world. */
  function Pipeline(req: map<string, string>, files: map<string, Source>, hasRepo: bool,
                    threshold: real, w: World): Run
  {
    if !HasRequiredKeys(req) then Run(Failed(InvalidRequest), None, None, None)
    else
      var target := TargetFile(req[ServiceKey]);
      match CodeChange(files, target, req[TypeKey])
      case ParseError => Run(SyntaxErrorRaised, None, None, None)
      case NoChange => Run(Failed(GenerationFailed), None, None, None)
      case Change(modified) =>
        if !SecurityGate(w.scan) then Run(Failed(SecurityFailed), None, None, None)
        else if !QualityGate(w.lint, threshold) then Run(Failed(QualityFailed), None, None, None)
        else if !(hasRepo && w.branchAccepted) then Run(Failed(BranchFailed), None, None, None)
        else
          var branch := BranchName(w.stamp);
          if w.writeError.Some? then
            Run(Failed(WriteError(w.writeError.value)), Some(branch), None, None)
          else
            var write := Some(Write(target, Parsed(modified)));
            if !(hasRepo && w.commitAccepted) then Run(Failed(CommitFailed), Some(branch), write, None)
            else
              var message := CommitMessage(req[TypeKey], req[ServiceKey], req[DescriptionKey]);
              Run(Success(target, branch), Some(branch), write, Some(Commit(branch, [target], message)))
  }

  /** A request missing a required key fails first, with no branch, write or commit. */
  lemma InvalidRequestTouchesNothing(req: map<string, string>, files: map<string, Source>,
                                     hasRepo: bool, threshold: real, w: World)
    requires !HasRequiredKeys(req)
    ensures Pipeline(req, files, hasRepo, threshold, w) == Run(Failed(InvalidRequest), None, None, None)
  {
  }

  /** No branch is created and nothing is written unless the request is valid, generation
      produced a change, and both gates passed. */
  lemma NoEffectBeforeGates(req: map<string, string>, files: map<string, Source>,
                            hasRepo: bool, threshold: real, w: World)
    ensures var run := Pipeline(req, files, hasRepo, threshold, w);
      run.branch.Some? || run.write.Some? || run.commit.Some? ==>
        HasRequiredKeys(req) && CodeChange(files, TargetFile(req[ServiceKey]), req[TypeKey]).Change?
        && SecurityGate(w.scan) && QualityGate(w.lint, threshold)
  {
  }

  /** The write goes to the target file and holds the generated change, only after the
      branch exists; a commit comes only after the write and records it on that branch. */
  lemma EffectsInOrder(req: map<string, string>, files: map<string, Source>,
                       hasRepo: bool, threshold: real, w: World)
    ensures var run := Pipeline(req, files, hasRepo, threshold, w);
      run.write.Some? ==>
        run.branch.Some? && HasRequiredKeys(req)
        && run.write.value.path == TargetFile(req[ServiceKey])
        && CodeChange(files, TargetFile(req[ServiceKey]), req[TypeKey]) == Change(run.write.value.content.tree)
    ensures var run := Pipeline(req, files, hasRepo, threshold, w);
      run.commit.Some? ==>
        run.write.Some? && run.branch.Some?
        && run.commit.value == Commit(run.branch.value, [run.write.value.path],
                                      CommitMessage(req[TypeKey], req[ServiceKey], req[DescriptionKey]))
  {
  }

  /** SUCCESS exactly when every stage succeeded; it then names the target file and the
      timestamped branch, and the file was written and committed on that branch. */
  lemma SuccessIff(req: map<string, string>, files: map<string, Source>,
                   hasRepo: bool, threshold: real, w: World)
    ensures var run := Pipeline(req, files, hasRepo, threshold, w);
      run.outcome.Success? <==>
        HasRequiredKeys(req) && CodeChange(files, TargetFile(req[ServiceKey]), req[TypeKey]).Change?
        && SecurityGate(w.scan) && QualityGate(w.lint, threshold)
        && hasRepo && w.branchAccepted && w.writeError.None? && w.commitAccepted
    ensures var run := Pipeline(req, files, hasRepo, threshold, w);
      run.outcome.Success? ==>
        run.outcome.file == TargetFile(req[ServiceKey]) && run.outcome.branch == BranchName(w.stamp)
        && run.branch == Some(run.outcome.branch) && run.write.Some? && run.commit.Some?
    ensures var run := Pipeline(req, files, hasRepo, threshold, w);
      run.outcome.Success? && IsStamp(w.stamp) ==>
        |run.outcome.branch| == |BranchPrefix| + 14 && run.outcome.branch[..|BranchPrefix|] == BranchPrefix
  {
    var run := Pipeline(req, files, hasRepo, threshold, w);
    if run.outcome.Success? {
      assert run.outcome.branch == BranchPrefix + w.stamp;
    }
  }

  /** A rejected commit leaves the file written on the new branch; a rejected branch
      leaves the file untouched. */
  lemma GitFailures(req: map<string, string>, files: map<string, Source>,
                    hasRepo: bool, threshold: real, w: World)
    ensures var run := Pipeline(req, files, hasRepo, threshold, w);
      run.outcome == Failed(CommitFailed) ==> run.write.Some? && run.branch.Some? && run.commit.None?
    ensures var run := Pipeline(req, files, hasRepo, threshold, w);
      run.outcome == Failed(BranchFailed) ==> run.write.None? && run.branch.None?
    ensures var run := Pipeline(req, files, hasRepo, threshold, w);
      !hasRepo ==> !run.outcome.Success? && run.write.None? && run.branch.None? && run.commit.None?
  {
  }

  // ---------------------------------------------------------------------------
  // Stateful parts

  /** `GitManager`: a repository (or none), its branches, the checked-out branch and the
      commits made. Whether Git accepts an operation is passed in. */
  class GitManager {
    const hasRepo: bool
    var branches: seq<string>
    var head: string
    var commits: seq<Commit>

    constructor(hasRepo: bool, head: string)
      ensures this.hasRepo == hasRepo && this.head == head
      ensures branches == [] && commits == []
    {
      this.hasRepo := hasRepo;
      this.head := head;
      branches := [];
      commits := [];
    }

    /** `create_and_checkout_branch`: false without a repository or when Git raises. */
    method CreateAndCheckoutBranch(name: string, accepted: bool) returns (ok: bool)
      modifies this
      ensures ok <==> hasRepo && accepted
      ensures branches == if ok then old(branches) + [name] else old(branches)
      ensures head == if ok then name else old(head)
      ensures commits == old(commits)
    {
      if !hasRepo {
        return false;
      }
      if !accepted {
        return false;
      }
      branches := branches + [name];
      head := name;
      return true;
    }

    /** `commit_changes`: false without a repository or when Git raises; a commit lands on
      the checked-out branch. */
    method CommitChanges(files: seq<string>, message: string, accepted: bool) returns (ok: bool)
      modifies this
      ensures ok <==> hasRepo && accepted
      ensures commits == if ok then old(commits) + [Commit(head, files, message)] else old(commits)
      ensures branches == old(branches) && head == old(head)
    {
      if !hasRepo {
        return false;
      }
      if !accepted {
        return false;
      }
      commits := commits + [Commit(head, files, message)];
      return true;
    }
  }

  /** `EnterpriseCodeModifier` with the files under its source root. */
  class EnterpriseCodeModifier {
    const threshold: real
    const git: GitManager
    var files: map<string, Source>

    /** `pylint_threshold` from the configuration, 8.0 when absent. */
    constructor(pylintThreshold: Option<real>, git: GitManager, files: map<string, Source>)
      ensures threshold == pylintThreshold.GetOr(DefaultThreshold)
      ensures this.git == git && this.files == files
    {
      threshold := pylintThreshold.GetOr(DefaultThreshold);
      this.git := git;
      this.files := files;
    }

    /** `_generate_code_change`. */
    method GenerateCodeChange(target: string, kind: string) returns (g: Generation)
      ensures g == CodeChange(files, target, kind)
    {
      if target !in files {
        return NoChange;
      }
      var original := files[target];
      var modified: Option<Node>;
      if kind == AddTimeoutType {
        if original.Unparsable? {
          return ParseError;
        }
        modified := HandleAddTimeout(original.tree);
      } else if kind == EnableCachingType {
        if original.Unparsable? {
          return ParseError;
        }
        modified := HandleEnableCaching(original.tree);
      } else {
        return NoChange;
      }
      if modified.None? {
        return NoChange;
      }
      return Change(modified.value);
    }

    /** The loop of `_security_scan` over Bandit's results, stopping at the first blocking
      issue. */
    method SecurityScan(report: ScanReport) returns (passed: bool)
      ensures passed == SecurityGate(report)
    {
      if report.ScanRaised? {
        return false;
      }
      var i := 0;
      while i < |report.severities|
        invariant 0 <= i <= |report.severities|
        invariant forall j :: 0 <= j < i ==> !Blocks(report.severities[j])
      {
        if Rank(report.severities[i]) >= Rank(Medium) {
          return false;
        }
        i := i + 1;
      }
      return true;
    }

    /** `apply_modification`: the outcome, the files and the repository afterwards are those
      `Pipeline` describes. */
    method ApplyModification(req: map<string, string>, w: World) returns (out: Outcome)
      modifies this, git
      ensures var run := Pipeline(req, old(files), git.hasRepo, threshold, w);
        out == run.outcome
        && files == (if run.write.Some? then old(files)[run.write.value.path := run.write.value.content] else old(files))
        && git.branches == old(git.branches) + (if run.branch.Some? then [run.branch.value] else [])
        && git.head == (if run.branch.Some? then run.branch.value else old(git.head))
        && git.commits == old(git.commits) + (if run.commit.Some? then [run.commit.value] else [])
    {
      if !HasRequiredKeys(req) {
        return Failed(InvalidRequest);
      }
      var target := TargetFile(req[ServiceKey]);
      var change := GenerateCodeChange(target, req[TypeKey]);
      if change.ParseError? {
        return SyntaxErrorRaised;
      }
      if change.NoChange? {
        return Failed(GenerationFailed);
      }
      var secure := SecurityScan(w.scan);
      if !secure {
        return Failed(SecurityFailed);
      }
      if !QualityGate(w.lint, threshold) {
        return Failed(QualityFailed);
      }
      var branch := BranchName(w.stamp);
      var created := git.CreateAndCheckoutBranch(branch, w.branchAccepted);
      if !created {
        return Failed(BranchFailed);
      }
      if w.writeError.Some? {
        return Failed(WriteError(w.writeError.value));
      }
      files := files[target := Parsed(change.modified)];
      var message := CommitMessage(req[TypeKey], req[ServiceKey], req[DescriptionKey]);
      var committed := git.CommitChanges([target], message, w.commitAccepted);
      if committed {
        return Success(target, branch);
      }
      return Failed(CommitFailed);
    }
  }
}
