/** The rule-based checks that the blueprint creator runs on a generated blueprint:
    `verify_blueprint`, which collects an ordered list of issues, and
    `check_no_reprint_rule`, which refuses blueprints whose implementation files
    are printed in full. The blueprint is taken as already schema-validated. */
module BlueprintVerifier {
  import opened Text

  /** One entry of the blueprint's `files` mapping: a path and its content. */
  datatype FileEntry = FileEntry(path: string, content: string)

  /** The fields of a schema-validated blueprint that the checks read. `files`
      lists the mapping's entries in its iteration order; of `workflow_graph` only
      its key set is kept, since the checks only ask whether it is empty. */
  datatype Blueprint = Blueprint(
    projectName: string,
    workflowGraph: set<string>,
    stateSchema: string,
    fileTree: seq<string>,
    files: seq<FileEntry>,
    envVars: seq<string>)

  /** The keys that must be present and non-empty, in the order they are checked. */
  const RequiredKeys: seq<string> := ["project_name", "workflow_graph", "state_schema", "file_tree", "files"]

  /** `not blueprint[key]` for the `k`-th required key. */
  predicate EmptyKey(bp: Blueprint, k: nat)
    requires k < |RequiredKeys|
  {
    match k
    case 0 => bp.projectName == []
    case 1 => bp.workflowGraph == {}
    case 2 => bp.stateSchema == []
    case 3 => bp.fileTree == []
    case _ => bp.files == []
  }

  /** `'.env.example' in bp.files`, and its generalisation to any path. */
  predicate HasPath(files: seq<FileEntry>, path: string)
  {
    exists k :: 0 <= k < |files| && files[k].path == path
  }

  /** The patterns whose presence in a lower-cased file suggests a committed secret. */
  const SecretPatterns: seq<string> := ["api_key=", "password=", "secret=", "token="]

  /** The largest total number of lines the blueprint's files may have. */
  const MaxTotalLines := 2000

  function KeyIssue(key: string): string
  {
    "Missing or empty required key: " + key
  }

  function AbsoluteIssue(path: string): string
  {
    "Unsafe absolute path: " + path
  }

  function RelativeIssue(path: string): string
  {
    "Unsafe relative path with '..': " + path
  }

  const EnvIssue := "Missing .env.example file"

  const SchemaIssue := "State schema must be valid Pydantic or TypedDict code"

  function SecretIssue(path: string, pattern: string): string
  {
    "Potential secret in " + path + ": found '" + pattern + "'"
  }

  function SizeIssue(total: nat): string
  {
    "Total file content exceeds recommended limit: " + NatToString(total) + " lines > 2000"
  }

  /** The issues for the first `n` required keys, in order. */
  function KeyIssues(bp: Blueprint, n: nat): seq<string>
    requires n <= |RequiredKeys|
  {
    if n == 0 then []
    else KeyIssues(bp, n - 1) + (if EmptyKey(bp, n - 1) then [KeyIssue(RequiredKeys[n - 1])] else [])
  }

  /** The issues for one path of the file tree: absolute first, then `..`. */
  function PathIssue(path: string): seq<string>
  {
    (if StartsWith(path, "/") then [AbsoluteIssue(path)] else [])
    + (if Contains(path, "..") then [RelativeIssue(path)] else [])
  }

  /** A path raising no issue. */
  predicate SafePath(path: string)
  {
    !StartsWith(path, "/") && !Contains(path, "..")
  }

  /** The issues for the paths of the file tree, path by path. */
  function PathIssues(paths: seq<string>): seq<string>
  {
    if paths == [] then [] else PathIssues(paths[..|paths| - 1]) + PathIssue(paths[|paths| - 1])
  }

  /** The environment check: one issue at most, when variables are declared and no
      `.env.example` file documents them. */
  function EnvIssues(bp: Blueprint): seq<string>
  {
    if bp.envVars != [] && !HasPath(bp.files, ".env.example") then [EnvIssue] else []
  }

  /** A state schema that mentions neither a class nor `TypedDict` is refused. */
  predicate SchemaLooksValid(schema: string)
  {
    Contains(schema, "class") || Contains(schema, "TypedDict")
  }

  function SchemaIssues(bp: Blueprint): seq<string>
  {
    if SchemaLooksValid(bp.stateSchema) then [] else [SchemaIssue]
  }

  /** A secret is reported for pattern `pattern` in a file when the lower-cased
      content holds the pattern and the path does not contain `example`. */
  predicate Leaks(f: FileEntry, pattern: string)
  {
    Contains(Lower(f.content), pattern) && !Contains(f.path, "example")
  }

  /** The secret issues of one file for the given patterns, in pattern order. */
  function PatternIssues(f: FileEntry, patterns: seq<string>): seq<string>
  {
    if patterns == [] then []
    else
      var p := patterns[|patterns| - 1];
      PatternIssues(f, patterns[..|patterns| - 1]) + (if Leaks(f, p) then [SecretIssue(f.path, p)] else [])
  }

  /** The secret issues of the files, file by file. */
  function SecretIssues(files: seq<FileEntry>): seq<string>
  {
    if files == [] then []
    else SecretIssues(files[..|files| - 1]) + PatternIssues(files[|files| - 1], SecretPatterns)
  }

  /** `sum(len(content.split('\n')) for content in files.values())`. */
  function TotalLines(files: seq<FileEntry>): nat
  {
    if files == [] then 0 else TotalLines(files[..|files| - 1]) + LineCount(files[|files| - 1].content)
  }

  function SizeIssues(files: seq<FileEntry>): seq<string>
  {
    var total := TotalLines(files);
    if total > MaxTotalLines then [SizeIssue(total)] else []
  }

  /** The issue list `verify_blueprint` returns, section by section. */
  function Issues(bp: Blueprint): seq<string>
  {
    KeyIssues(bp, |RequiredKeys|) + PathIssues(bp.fileTree) + EnvIssues(bp) + SchemaIssues(bp)
    + SecretIssues(bp.files) + SizeIssues(bp.files)
  }

  /** A blueprint that passes every check, stated check by check. */
  predicate Acceptable(bp: Blueprint)
  {
    && (forall k :: 0 <= k < |RequiredKeys| ==> !EmptyKey(bp, k))
    && (forall i :: 0 <= i < |bp.fileTree| ==> SafePath(bp.fileTree[i]))
    && (bp.envVars == [] || HasPath(bp.files, ".env.example"))
    && SchemaLooksValid(bp.stateSchema)
    && (forall k, j :: 0 <= k < |bp.files| && 0 <= j < |SecretPatterns| ==> !Leaks(bp.files[k], SecretPatterns[j]))
    && TotalLines(bp.files) <= MaxTotalLines
  }

  // ---------------------------------------------------------------------------
  // verify_blueprint, one loop per check

  /** `verify_blueprint` on a schema-validated blueprint: the blueprint is valid
      exactly when no check reported an issue. */
  method VerifyBlueprint(bp: Blueprint) returns (isValid: bool, issues: seq<string>)
    ensures issues == Issues(bp)
    ensures isValid <==> issues == []
  {
    issues := CheckRequiredKeys(bp);
    issues := CheckPaths(bp.fileTree, issues);
    issues := CheckEnv(bp, issues);
    issues := CheckSchema(bp, issues);
    issues := CheckSecrets(bp.files, issues);
    issues := CheckSize(bp.files, issues);
    isValid := |issues| == 0;
  }

  method CheckSchema(bp: Blueprint, issues0: seq<string>) returns (issues: seq<string>)
    ensures issues == issues0 + SchemaIssues(bp)
  {
    issues := issues0;
    if !Contains(bp.stateSchema, "class") && !Contains(bp.stateSchema, "TypedDict") {
      issues := issues + [SchemaIssue];
    }
  }

  method CheckSize(files: seq<FileEntry>, issues0: seq<string>) returns (issues: seq<string>)
    ensures issues == issues0 + SizeIssues(files)
  {
    issues := issues0;
    var total := CountLines(files);
    if total > MaxTotalLines {
      issues := issues + [SizeIssue(total)];
    }
  }

  method CheckRequiredKeys(bp: Blueprint) returns (issues: seq<string>)
    ensures issues == KeyIssues(bp, |RequiredKeys|)
  {
    issues := [];
    for k := 0 to |RequiredKeys|
      invariant issues == KeyIssues(bp, k)
    {
      if EmptyKey(bp, k) {
        issues := issues + [KeyIssue(RequiredKeys[k])];
      }
    }
  }

  method CheckPaths(paths: seq<string>, issues0: seq<string>) returns (issues: seq<string>)
    ensures issues == issues0 + PathIssues(paths)
  {
    issues := issues0;
    for i := 0 to |paths|
      invariant issues == issues0 + PathIssues(paths[..i])
    {
      var path := paths[i];
      assert paths[..i + 1][..i] == paths[..i];
      if StartsWith(path, "/") {
        issues := issues + [AbsoluteIssue(path)];
      }
      if Contains(path, "..") {
        issues := issues + [RelativeIssue(path)];
      }
    }
    assert paths[..|paths|] == paths;
  }

  /** The loop over the environment variables, which stops at the first issue. */
  method CheckEnv(bp: Blueprint, issues0: seq<string>) returns (issues: seq<string>)
    ensures issues == issues0 + EnvIssues(bp)
  {
    issues := issues0;
    var documented := HasPathLoop(bp.files, ".env.example");
    var i := 0;
    while i < |bp.envVars|
      invariant 0 <= i <= |bp.envVars|
      invariant !documented ==> i == 0
      invariant issues == issues0
    {
      if !documented {
        issues := issues + [EnvIssue];
        break;
      }
      i := i + 1;
    }
  }

  /** `path in files`, by a scan of the keys. */
  method HasPathLoop(files: seq<FileEntry>, path: string) returns (found: bool)
    ensures found <==> HasPath(files, path)
  {
    found := false;
    for k := 0 to |files|
      invariant found <==> exists m :: 0 <= m < k && files[m].path == path
    {
      if files[k].path == path {
        found := true;
      }
    }
  }

  method CheckSecrets(files: seq<FileEntry>, issues0: seq<string>) returns (issues: seq<string>)
    ensures issues == issues0 + SecretIssues(files)
  {
    issues := issues0;
    for i := 0 to |files|
      invariant issues == issues0 + SecretIssues(files[..i])
    {
      assert files[..i + 1][..i] == files[..i];
      issues := CheckFileSecrets(files[i], issues);
    }
    assert files[..|files|] == files;
  }

  /** The inner loop over the secret patterns for one file. */
  method CheckFileSecrets(f: FileEntry, issues0: seq<string>) returns (issues: seq<string>)
    ensures issues == issues0 + PatternIssues(f, SecretPatterns)
  {
    issues := issues0;
    var contentLower := Lower(f.content);
    for j := 0 to |SecretPatterns|
      invariant issues == issues0 + PatternIssues(f, SecretPatterns[..j])
    {
      var pattern := SecretPatterns[j];
      assert SecretPatterns[..j + 1][..j] == SecretPatterns[..j];
      if Contains(contentLower, pattern) && !Contains(f.path, "example") {
        issues := issues + [SecretIssue(f.path, pattern)];
      }
    }
    assert SecretPatterns[..|SecretPatterns|] == SecretPatterns;
  }

  method CountLines(files: seq<FileEntry>) returns (total: nat)
    ensures total == TotalLines(files)
  {
    total := 0;
    for i := 0 to |files|
      invariant total == TotalLines(files[..i])
    {
      assert files[..i + 1][..i] == files[..i];
      total := total + LineCount(files[i].content);
    }
    assert files[..|files|] == files;
  }

  // ---------------------------------------------------------------------------
  // What the issue list says

  /** Every key issue names an empty required key, and every empty required key
      has its issue; there are never more than five. */
  lemma {:induction false} KeyIssuesSpec(bp: Blueprint, n: nat)
    requires n <= |RequiredKeys|
    ensures |KeyIssues(bp, n)| <= n
    ensures forall e :: e in KeyIssues(bp, n) ==>
              exists k :: 0 <= k < n && EmptyKey(bp, k) && e == KeyIssue(RequiredKeys[k])
    ensures forall k :: 0 <= k < n && EmptyKey(bp, k) ==> KeyIssue(RequiredKeys[k]) in KeyIssues(bp, n)
  {
    if n > 0 {
      KeyIssuesSpec(bp, n - 1);
    }
  }

  /** Every path issue names a path of the tree that is absolute or climbs with
      `..`, and every such path has its issue. */
  lemma {:induction false} PathIssuesSpec(paths: seq<string>)
    ensures forall e :: e in PathIssues(paths) ==>
              exists i :: 0 <= i < |paths| &&
                ((StartsWith(paths[i], "/") && e == AbsoluteIssue(paths[i]))
                 || (Contains(paths[i], "..") && e == RelativeIssue(paths[i])))
    ensures forall i :: 0 <= i < |paths| && StartsWith(paths[i], "/") ==> AbsoluteIssue(paths[i]) in PathIssues(paths)
    ensures forall i :: 0 <= i < |paths| && Contains(paths[i], "..") ==> RelativeIssue(paths[i]) in PathIssues(paths)
  {
    if paths != [] {
      var init := paths[..|paths| - 1];
      PathIssuesSpec(init);
      assert forall i :: 0 <= i < |init| ==> init[i] == paths[i];
    }
  }

  /** A path that is both absolute and climbs with `..` raises both issues. */
  lemma BothPathIssues()
    ensures PathIssue("/../x") == [AbsoluteIssue("/../x"), RelativeIssue("/../x")]
  {
    assert At("/../x", "..", 1);
    ContainsSpec("/../x", "..");
  }

  /** The secret issues of one file are those of the patterns it leaks. */
  lemma {:induction false} PatternIssuesSpec(f: FileEntry, patterns: seq<string>)
    ensures |PatternIssues(f, patterns)| <= |patterns|
    ensures Contains(f.path, "example") ==> PatternIssues(f, patterns) == []
    ensures forall e :: e in PatternIssues(f, patterns) ==>
              exists j :: 0 <= j < |patterns| && Leaks(f, patterns[j]) && e == SecretIssue(f.path, patterns[j])
    ensures forall j :: 0 <= j < |patterns| && Leaks(f, patterns[j]) ==> SecretIssue(f.path, patterns[j]) in PatternIssues(f, patterns)
  {
    if patterns != [] {
      var init := patterns[..|patterns| - 1];
      PatternIssuesSpec(f, init);
      assert forall j :: 0 <= j < |init| ==> init[j] == patterns[j];
    }
  }

  /** One secret issue per (file, pattern) pair the file leaks, and no other. */
  lemma {:induction false} SecretIssuesSpec(files: seq<FileEntry>)
    ensures forall e :: e in SecretIssues(files) ==>
              exists k, j :: 0 <= k < |files| && 0 <= j < |SecretPatterns| && Leaks(files[k], SecretPatterns[j])
                             && e == SecretIssue(files[k].path, SecretPatterns[j])
    ensures forall k, j :: 0 <= k < |files| && 0 <= j < |SecretPatterns| && Leaks(files[k], SecretPatterns[j])
              ==> SecretIssue(files[k].path, SecretPatterns[j]) in SecretIssues(files)
  {
    if files != [] {
      var init, last := files[..|files| - 1], files[|files| - 1];
      SecretIssuesSpec(init);
      PatternIssuesSpec(last, SecretPatterns);
      assert forall k :: 0 <= k < |init| ==> init[k] == files[k];
    }
  }

  lemma KeysPass(bp: Blueprint)
    ensures KeyIssues(bp, |RequiredKeys|) == [] <==> forall k :: 0 <= k < |RequiredKeys| ==> !EmptyKey(bp, k)
  {
    KeyIssuesSpec(bp, |RequiredKeys|);
    if KeyIssues(bp, |RequiredKeys|) != [] {
      assert KeyIssues(bp, |RequiredKeys|)[0] in KeyIssues(bp, |RequiredKeys|);
    }
  }

  lemma PathsPass(paths: seq<string>)
    ensures PathIssues(paths) == [] <==> forall i :: 0 <= i < |paths| ==> SafePath(paths[i])
  {
    PathIssuesSpec(paths);
    if PathIssues(paths) != [] {
      assert PathIssues(paths)[0] in PathIssues(paths);
    }
  }

  lemma SecretsPass(files: seq<FileEntry>)
    ensures SecretIssues(files) == [] <==>
      forall k, j :: 0 <= k < |files| && 0 <= j < |SecretPatterns| ==> !Leaks(files[k], SecretPatterns[j])
  {
    SecretIssuesSpec(files);
    if SecretIssues(files) != [] {
      assert SecretIssues(files)[0] in SecretIssues(files);
    }
  }

  /** The blueprint is valid exactly when it passes every check. */
  lemma ValidIffAcceptable(bp: Blueprint)
    ensures Issues(bp) == [] <==> Acceptable(bp)
  {
    KeysPass(bp);
    PathsPass(bp.fileTree);
    SecretsPass(bp.files);
    var a, b, c, d, e, f := KeyIssues(bp, |RequiredKeys|), PathIssues(bp.fileTree), EnvIssues(bp),
                            SchemaIssues(bp), SecretIssues(bp.files), SizeIssues(bp.files);
    assert |Issues(bp)| == |a| + |b| + |c| + |d| + |e| + |f|;
  }

  // ---------------------------------------------------------------------------
  // check_no_reprint_rule

  /** A Python implementation file (not a test) longer than the manifest threshold. */
  predicate Oversized(f: FileEntry)
  {
    EndsWith(f.path, ".py") && !Contains(f.path, "test") && LineCount(f.content) > 100
  }

  /** `check_no_reprint_rule`: the blueprint follows the rule exactly when none of
      its files is an oversized implementation file. */
  method CheckNoReprintRule(bp: Blueprint) returns (ok: bool)
    ensures ok <==> forall k :: 0 <= k < |bp.files| ==> !Oversized(bp.files[k])
  {
    for k := 0 to |bp.files|
      invariant forall m :: 0 <= m < k ==> !Oversized(bp.files[m])
    {
      var f := bp.files[k];
      var lines := LineCount(f.content);
      if EndsWith(f.path, ".py") && !Contains(f.path, "test") {
        if lines > 100 {
          return false;
        }
      }
    }
    return true;
  }
}
