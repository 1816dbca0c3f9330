/**
  The fixture for tests that need a git repository holding the two
  scripts: where the scripts sit relative to the repository's top level,
  the `.clang-format` text written for a style, and the lifecycle of the
  fixture's `repo` and `scripts_dir` fields across `setUp` and `tearDown`
  for each way of provisioning the repository.
 */
module ScriptsRepo {
  import opened Wrappers
  import opened PyStr
  import PosixPath
  import opened Os
  import opened MixinGit

  // ---------------------------------------------------------------------
  // Script paths
  // ---------------------------------------------------------------------

  const ApplyFormatName: string := "apply-format"
  const PreCommitHookName: string := "git-pre-commit-format"

  /** `bool(self.scripts_dir)`: set, and not empty. */
  predicate HasScriptsDir(scriptsDir: Option<string>)
  {
    scriptsDir.Some? && Truthy(scriptsDir.value)
  }

  /** `_get_script_path`: the name under the scripts directory, or the bare name without one. */
  function ScriptPath(scriptsDir: Option<string>, scriptName: string): string
  {
    if HasScriptsDir(scriptsDir) then PosixPath.Join(scriptsDir.value, scriptName) else scriptName
  }

  /** The `apply_format_path` property. */
  function ApplyFormatPath(scriptsDir: Option<string>): string
  {
    ScriptPath(scriptsDir, ApplyFormatName)
  }

  /** The `pre_commit_hook_path` property. */
  function PreCommitHookPath(scriptsDir: Option<string>): string
  {
    ScriptPath(scriptsDir, PreCommitHookName)
  }

  /** What comes before a script's name in its path: nothing, or the directory and a `/`. */
  function ScriptsPrefix(scriptsDir: Option<string>): string
  {
    if HasScriptsDir(scriptsDir) then PosixPath.DirPrefix(scriptsDir.value) else ""
  }

  /** A relative script name sits right after the scripts prefix. */
  lemma ScriptPathIsPrefixed(scriptsDir: Option<string>, scriptName: string)
    requires scriptName == [] || scriptName[0] != '/'
    ensures ScriptPath(scriptsDir, scriptName) == ScriptsPrefix(scriptsDir) + scriptName
    ensures !HasScriptsDir(scriptsDir) ==> ScriptPath(scriptsDir, scriptName) == scriptName
  {
    if HasScriptsDir(scriptsDir) {
      PosixPath.JoinRelative(scriptsDir.value, scriptName);
    }
  }

  /** The two scripts share their directory part and differ only in their names. */
  lemma ScriptPathsShareDirectory(scriptsDir: Option<string>)
    ensures ApplyFormatPath(scriptsDir) == ScriptsPrefix(scriptsDir) + ApplyFormatName
    ensures PreCommitHookPath(scriptsDir) == ScriptsPrefix(scriptsDir) + PreCommitHookName
  {
    ScriptPathIsPrefixed(scriptsDir, ApplyFormatName);
    ScriptPathIsPrefixed(scriptsDir, PreCommitHookName);
  }

  // ---------------------------------------------------------------------
  // Ways of provisioning the repository
  // ---------------------------------------------------------------------

  /**
    Which `config_repo` the fixture uses: the base class's own (which
    raises), a clone of this repository, a new repository with this one as
    a submodule, or a new repository into which the scripts are copied.
   */
  datatype RepoVariant = Unconfigured | Cloned | Submodule | CopiedFiles

  const SubmoduleDir: string := "submodule"

  /** `os.path.join('foo', 'bar', 'scripts')`. */
  const CopiedScriptsDir: string := PosixPath.JoinAll("foo", ["bar", "scripts"])

  /** The `scripts_dir` each `config_repo` sets. */
  function ConfiguredScriptsDir(variant: RepoVariant): Option<string>
    requires variant != Unconfigured
  {
    match variant
    case Cloned => Some(".")
    case Submodule => Some(SubmoduleDir)
    case CopiedFiles => Some(CopiedScriptsDir)
  }

  /** The directory name the repository gets inside a fresh temporary directory. */
  function RepoDirName(variant: RepoVariant): string
  {
    if variant == Cloned then "cloned" else "new"
  }

  /** `os.path.join('foo', 'bar', 'scripts')` is `foo/bar/scripts`. */
  lemma CopiedScriptsDirValue()
    ensures CopiedScriptsDir == "foo/bar/scripts"
  {
    assert !EndsWith("foo", "/");
    assert PosixPath.Join("foo", "bar") == "foo/bar";
    assert !EndsWith("foo/bar", "/");
    assert PosixPath.Join("foo/bar", "scripts") == "foo/bar/scripts";
  }

  /** In a clone the scripts are at the top level, reached through `.`. */
  lemma ClonedScriptPaths()
    ensures ApplyFormatPath(ConfiguredScriptsDir(Cloned)) == "./" + ApplyFormatName
    ensures PreCommitHookPath(ConfiguredScriptsDir(Cloned)) == "./" + PreCommitHookName
  {
    assert !EndsWith(".", "/");
    ScriptPathsShareDirectory(ConfiguredScriptsDir(Cloned));
  }

  /** With this repository as a submodule, the scripts are under `submodule`. */
  lemma SubmoduleScriptPaths()
    ensures ApplyFormatPath(ConfiguredScriptsDir(Submodule)) == "submodule/" + ApplyFormatName
    ensures PreCommitHookPath(ConfiguredScriptsDir(Submodule)) == "submodule/" + PreCommitHookName
  {
    assert !EndsWith(SubmoduleDir, "/");
    PlainDirScriptPaths(SubmoduleDir);
    assert SubmoduleDir + "/" == "submodule/";
  }

  /** Under a directory that does not end in `/`, the scripts are that directory, a `/` and their names. */
  lemma PlainDirScriptPaths(dir: string)
    requires dir != [] && !EndsWith(dir, "/")
    ensures ApplyFormatPath(Some(dir)) == dir + "/" + ApplyFormatName
    ensures PreCommitHookPath(Some(dir)) == dir + "/" + PreCommitHookName
  {
    ScriptPathsShareDirectory(Some(dir));
  }

  /** With copied scripts, they are under `foo/bar/scripts`. */
  lemma CopiedScriptPaths()
    ensures ApplyFormatPath(ConfiguredScriptsDir(CopiedFiles)) == "foo/bar/scripts/" + ApplyFormatName
    ensures PreCommitHookPath(ConfiguredScriptsDir(CopiedFiles)) == "foo/bar/scripts/" + PreCommitHookName
  {
    CopiedScriptsDirValue();
    var dir := "foo/bar/scripts";
    assert !EndsWith(dir, "/");
    PlainDirScriptPaths(dir);
    assert dir + "/" == "foo/bar/scripts/";
  }

  // ---------------------------------------------------------------------
  // write_style
  // ---------------------------------------------------------------------

  /** One `key: value` line of a `.clang-format` file. */
  function StyleLine(entry: (string, string)): string
  {
    entry.0 + ": " + entry.1
  }

  /** The lines for a style mapping given as its entries in iteration order. */
  function StyleLines(style: seq<(string, string)>): (lines: seq<string>)
    ensures |lines| == |style|
    ensures forall i :: 0 <= i < |style| ==> lines[i] == StyleLine(style[i])
  {
    seq(|style|, i requires 0 <= i < |style| => StyleLine(style[i]))
  }

  /** The text `write_style` puts in `.clang-format`: the lines joined, with no final newline. */
  function StyleText(style: seq<(string, string)>): string
  {
    Join(StyleLines(style), '\n')
  }

  /** An empty mapping writes an empty file. */
  lemma EmptyStyleText()
    ensures StyleText([]) == ""
  {
  }

  /** Read back line by line, the text has exactly one `key: value` line per entry, in order. */
  lemma StyleTextLines(style: seq<(string, string)>)
    requires |style| >= 1
    requires forall i :: 0 <= i < |style| ==> '\n' !in style[i].0 && '\n' !in style[i].1
    ensures Split(StyleText(style), '\n') == StyleLines(style)
  {
    var lines := StyleLines(style);
    forall i | 0 <= i < |lines| ensures '\n' !in lines[i] {
      assert lines[i] == style[i].0 + ": " + style[i].1;
    }
    SplitJoin(lines, '\n');
  }

  /** The style of the indentation test: `BasedOnStyle: llvm` then `IndentWidth: 8`. */
  lemma IndentStyleText()
    ensures StyleText([("BasedOnStyle", "llvm"), ("IndentWidth", "8")]) == "BasedOnStyle: llvm\nIndentWidth: 8"
  {
    var style := [("BasedOnStyle", "llvm"), ("IndentWidth", "8")];
    var lines := StyleLines(style);
    assert lines[0] == "BasedOnStyle: llvm";
    assert lines[1] == "IndentWidth: 8";
    assert lines[1..] == ["IndentWidth: 8"];
    assert Join(lines, '\n') == lines[0] + "\n" + Join(lines[1..], '\n');
  }

  // ---------------------------------------------------------------------
  // The fixture object
  // ---------------------------------------------------------------------

  class ScriptsRepoFixture {
    /** The derived class's choice of `config_repo`. */
    const variant: RepoVariant
    /** `self.repo`. */
    var repo: Option<GitRepository>
    /** `self.scripts_dir`, relative to the repository's top level. */
    var scriptsDir: Option<string>

    /** `__init__`: neither field is set. */
    constructor (variant: RepoVariant)
      ensures this.variant == variant && repo == None && scriptsDir == None
    {
      this.variant := variant;
      repo := None;
      scriptsDir := None;
    }

    /**
      `setUp`: with both fields unset, let `config_repo` set the scripts
      directory and provision the repository inside the fresh temporary
      directory `tmpSubDir`. The base class's own `config_repo` raises
      instead, leaving both fields as they were.
     */
    method SetUp(tmpSubDir: string) returns (raised: bool)
      requires repo == None && !HasScriptsDir(scriptsDir)
      modifies this`repo, this`scriptsDir
      ensures raised <==> variant == Unconfigured
      ensures raised ==> repo == None && scriptsDir == old(scriptsDir)
      ensures !raised ==> && repo.Some? && fresh(repo.value)
                          && repo.value.repoDir == PosixPath.Join(tmpSubDir, RepoDirName(variant))
                          && scriptsDir == ConfiguredScriptsDir(variant)
    {
      if variant == Unconfigured {
        raised := true;
        return;
      }
      scriptsDir := ConfiguredScriptsDir(variant);
      var created := new GitRepository(PosixPath.Join(tmpSubDir, RepoDirName(variant)));
      repo := Some(created);
      raised := false;
    }

    /** `tearDown`: both fields are unset again. */
    method TearDown()
      modifies this`repo, this`scriptsDir
      ensures repo == None && scriptsDir == None
    {
      repo := None;
      scriptsDir := None;
    }

    /** `write_style`: write the style's text to `.clang-format` at the repository's top level. */
    method WriteStyle(os: OsState, style: seq<(string, string)>)
      requires repo.Some?
      modifies os`files
      ensures os.files == old(os.files)[PosixPath.Join(repo.value.repoDir, ".clang-format") := StyleText(style)]
    {
      var contentList := StyleLines(style);
      var content := Join(contentList, '\n');
      os.files := os.files[PosixPath.Join(repo.value.repoDir, ".clang-format") := content];
    }
  }

  /** A set-up fixture can be torn down and set up again, ending with the same scripts directory. */
  method SetUpTearDownCycle(fixture: ScriptsRepoFixture, tmpSubDir: string, nextTmpSubDir: string)
    requires fixture.variant != Unconfigured
    requires fixture.repo == None && fixture.scriptsDir == None
    modifies fixture
    ensures fixture.repo.Some? && fixture.scriptsDir == ConfiguredScriptsDir(fixture.variant)
  {
    var raised := fixture.SetUp(tmpSubDir);
    fixture.TearDown();
    raised := fixture.SetUp(nextTmpSubDir);
  }
}
