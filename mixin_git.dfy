/**
  The logic of the git helpers of the tests: the unified-diff simplifier
  used to compare `git show` and patch output with fixtures, the way a
  commit is launched (its arguments, the environment override through
  which the hook reads its answer, the temporary answer file), and the
  parse of a work tree's `.git` file into the main git directory.
 */
module MixinGit {
  import opened Wrappers
  import opened PyStr
  import opened Os
  import opened TestUtils

  // ---------------------------------------------------------------------
  // simplify_diff
  // ---------------------------------------------------------------------

  /** What every hunk header is rewritten to. */
  const HunkPlaceholder: string := "@@ ... @@"

  /**
    `re.match('^@@.*@@$', line)` for a line without a newline: at least four
    characters, beginning with `@@` and ending with `@@`.
   */
  predicate IsHunkHeader(line: string)
  {
    |line| >= 4 && line[..2] == "@@" && line[|line| - 2..] == "@@"
  }

  /** One input line after stripping trailing whitespace and rewriting a hunk header. */
  function NormalizeLine(raw: string): string
  {
    var line := RStrip(raw);
    if IsHunkHeader(line) then HunkPlaceholder else line
  }

  /** Blank lines and context lines (those starting with a space) are dropped. */
  predicate IsDropped(line: string)
  {
    line == "" || line[0] == ' '
  }

  /** The normalized line, if it survives. */
  function KeepLine(raw: string): seq<string>
  {
    var line := NormalizeLine(raw);
    if IsDropped(line) then [] else [line]
  }

  /** The surviving normalized lines, in input order. */
  function KeptLines(lines: seq<string>): seq<string>
    decreases |lines|
  {
    if |lines| == 0 then [] else KeptLines(lines[..|lines| - 1]) + KeepLine(lines[|lines| - 1])
  }

  /** The simplified diff: the surviving lines joined by newlines, plus a final newline. */
  function Simplified(diff: string): string
  {
    Join(KeptLines(Split(diff, '\n')), '\n') + "\n"
  }

  /** `simplify_diff`: a loop over the lines that appends each surviving line. */
  method SimplifyDiff(diff: string) returns (simplified: string)
    ensures simplified == Simplified(diff)
  {
    var lines := Split(diff, '\n');
    var result: seq<string> := [];
    for i := 0 to |lines|
      invariant result == KeptLines(lines[..i])
    {
      var line := RStrip(lines[i]);
      if IsHunkHeader(line) {
        line := HunkPlaceholder;
      }
      assert lines[..i + 1][..i] == lines[..i];
      if line == "" || line[0] == ' ' {
        continue;
      }
      result := result + [line];
    }
    assert lines[..|lines|] == lines;
    simplified := Join(result, '\n') + "\n";
  }

  /** A line as it can appear in a simplified diff. */
  predicate IsSimplifiedLine(line: string)
  {
    && line != ""
    && line[0] != ' '
    && !IsSpace(line[|line| - 1])
    && '\n' !in line
    && (IsHunkHeader(line) ==> line == HunkPlaceholder)
  }

  /** Every surviving line of newline-free input lines has the simplified shape. */
  lemma {:induction false} KeptLinesAreSimplified(lines: seq<string>)
    requires forall i :: 0 <= i < |lines| ==> '\n' !in lines[i]
    ensures forall j :: 0 <= j < |KeptLines(lines)| ==> IsSimplifiedLine(KeptLines(lines)[j])
    decreases |lines|
  {
    if |lines| > 0 {
      KeptLinesAreSimplified(lines[..|lines| - 1]);
      var raw := lines[|lines| - 1];
      var stripped := RStrip(raw);
      assert forall c :: c in stripped ==> c in raw;
    }
  }

  /** Dropping and order: the surviving lines of a concatenation are those of each part. */
  lemma {:induction false} KeptLinesConcat(a: seq<string>, b: seq<string>)
    ensures KeptLines(a + b) == KeptLines(a) + KeptLines(b)
    decreases |b|
  {
    if |b| > 0 {
      var b' := b[..|b| - 1];
      KeptLinesConcat(a, b');
      assert (a + b)[..|a + b| - 1] == a + b';
      assert (a + b)[|a + b| - 1] == b[|b| - 1];
    } else {
      assert a + b == a;
    }
  }

  /** A line survives exactly when some input line normalizes to it and is not dropped. */
  lemma {:induction false} KeptLinesMembership(lines: seq<string>, line: string)
    ensures line in KeptLines(lines) <==>
      exists i :: 0 <= i < |lines| && NormalizeLine(lines[i]) == line && !IsDropped(line)
    decreases |lines|
  {
    if |lines| > 0 {
      var init := lines[..|lines| - 1];
      KeptLinesMembership(init, line);
      if line in KeptLines(lines) && line !in KeptLines(init) {
        assert NormalizeLine(lines[|lines| - 1]) == line;
      }
      if exists i :: 0 <= i < |lines| && NormalizeLine(lines[i]) == line && !IsDropped(line) {
        var i :| 0 <= i < |lines| && NormalizeLine(lines[i]) == line && !IsDropped(line);
        if i < |lines| - 1 {
          assert init[i] == lines[i];
        }
      }
    }
  }

  /** A line already in simplified shape survives unchanged. */
  lemma SimplifiedLineIsFixed(line: string)
    requires IsSimplifiedLine(line)
    ensures KeepLine(line) == [line]
  {
    RStripNoTrailingSpace(line);
  }

  /** A non-empty sequence is its prefix followed by its last element. */
  lemma InitPlusLast<T>(s: seq<T>)
    requires |s| > 0
    ensures s[..|s| - 1] + [s[|s| - 1]] == s
  {
  }

  /** Lines already in simplified shape all survive, unchanged and in order. */
  lemma {:induction false} KeptLinesOfSimplified(lines: seq<string>)
    requires forall j :: 0 <= j < |lines| ==> IsSimplifiedLine(lines[j])
    ensures KeptLines(lines) == lines
    decreases |lines|
  {
    if |lines| > 0 {
      var init, last := lines[..|lines| - 1], lines[|lines| - 1];
      forall j | 0 <= j < |init|
        ensures IsSimplifiedLine(init[j])
      {
        assert init[j] == lines[j];
      }
      KeptLinesOfSimplified(init);
      SimplifiedLineIsFixed(last);
      InitPlusLast(lines);
    }
  }

  /** Simplifying the join of newline-free lines keeps just their surviving lines. */
  lemma SimplifiedOfJoin(lines: seq<string>)
    requires |lines| >= 1
    requires forall i :: 0 <= i < |lines| ==> '\n' !in lines[i]
    ensures Simplified(Join(lines, '\n')) == Join(KeptLines(lines), '\n') + "\n"
  {
    SplitJoin(lines, '\n');
  }

  /** A lone newline, the simplification of a diff with no surviving line, is left unchanged. */
  lemma NewlineIsFixed()
    ensures Simplified("\n") == "\n"
  {
    assert "\n" == Join(["", ""], '\n');
    SimplifiedOfJoin(["", ""]);
    assert KeptLines(["", ""]) == KeptLines([""]) + KeepLine("");
  }

  /** Lines in simplified shape followed by an empty last piece keep exactly those lines. */
  lemma KeptLinesWithEmptyLast(lines: seq<string>)
    requires forall j :: 0 <= j < |lines| ==> IsSimplifiedLine(lines[j])
    ensures KeptLines(lines + [""]) == lines
    ensures forall i :: 0 <= i < |lines + [""]| ==> '\n' !in (lines + [""])[i]
  {
    var parts := lines + [""];
    forall i | 0 <= i < |parts| ensures '\n' !in parts[i] {
      if i < |lines| {
        assert parts[i] == lines[i] && IsSimplifiedLine(lines[i]);
      }
    }
    KeptLinesConcat(lines, [""]);
    KeptLinesOfSimplified(lines);
    assert KeptLines([""]) == KeptLines([]) + KeepLine("");
  }

  /** Lines in simplified shape, joined and newline-terminated, are left unchanged. */
  lemma NonEmptyFixedPoint(lines: seq<string>)
    requires |lines| > 0
    requires forall j :: 0 <= j < |lines| ==> IsSimplifiedLine(lines[j])
    ensures Simplified(Join(lines, '\n') + "\n") == Join(lines, '\n') + "\n"
  {
    var text := Join(lines, '\n') + "\n";
    var parts := lines + [""];
    JoinAppend(lines, '\n', "");
    assert text == Join(parts, '\n');
    KeptLinesWithEmptyLast(lines);
    SplitJoin(parts, '\n');
    assert Split(text, '\n') == parts;
    assert KeptLines(Split(text, '\n')) == lines;
  }

  /** The text `'\n'.join(lines) + '\n'` of lines in simplified shape is left unchanged. */
  lemma FixedPoint(lines: seq<string>)
    requires forall j :: 0 <= j < |lines| ==> IsSimplifiedLine(lines[j])
    ensures Simplified(Join(lines, '\n') + "\n") == Join(lines, '\n') + "\n"
  {
    if |lines| == 0 {
      NewlineIsFixed();
    } else {
      NonEmptyFixedPoint(lines);
    }
  }

  /** Simplifying twice is the same as simplifying once. */
  lemma Idempotent(diff: string)
    ensures Simplified(Simplified(diff)) == Simplified(diff)
  {
    SplitPiecesLackSep(diff, '\n');
    KeptLinesAreSimplified(Split(diff, '\n'));
    FixedPoint(KeptLines(Split(diff, '\n')));
  }

  /** The lines of the result are exactly the surviving lines, followed by the final newline. */
  lemma OutputLines(diff: string)
    ensures var kept := KeptLines(Split(diff, '\n'));
      && (forall j :: 0 <= j < |kept| ==> IsSimplifiedLine(kept[j]))
      && (kept == [] ==> Simplified(diff) == "\n")
      && (kept != [] ==> Split(Simplified(diff), '\n') == kept + [""])
  {
    var kept := KeptLines(Split(diff, '\n'));
    SplitPiecesLackSep(diff, '\n');
    KeptLinesAreSimplified(Split(diff, '\n'));
    if kept != [] {
      JoinAppend(kept, '\n', "");
      assert Simplified(diff) == Join(kept + [""], '\n');
      SplitJoin(kept + [""], '\n');
    }
  }

  /** The result always ends in a newline; the empty diff simplifies to a lone newline. */
  lemma EndsWithNewline(diff: string)
    ensures |Simplified(diff)| >= 1 && Simplified(diff)[|Simplified(diff)| - 1] == '\n'
    ensures Simplified("") == "\n"
  {
    assert Split("", '\n') == [""];
    assert KeptLines([""]) == KeptLines([]) + KeepLine("");
  }

  /** Removed and added lines, file headers included, survive with trailing whitespace stripped. */
  lemma ChangeLineKept(raw: string)
    requires raw != "" && (raw[0] == '-' || raw[0] == '+')
    ensures KeepLine(raw) == [RStrip(raw)]
  {
    assert RStrip(raw) != "" && RStrip(raw)[0] == raw[0];
  }

  /** A hunk header, trailing whitespace and all, becomes the placeholder. */
  lemma HunkHeaderRewritten(raw: string)
    requires IsHunkHeader(RStrip(raw))
    ensures KeepLine(raw) == [HunkPlaceholder]
  {
  }

  /** The lines of the fixture `data.PATCH`, the expected simplified staged-content patch. */
  const PatchFixture: seq<string> :=
    ["--- foo.c\t(before formatting)", "+++ foo.c\t(after formatting)", "@@ ... @@", "-  return a;", "+    return a;"]

  /** The fixture `data.PATCH`, its lines joined and newline-terminated, is its own simplification. */
  lemma PatchFixtureIsFixed()
    ensures Simplified(Join(PatchFixture, '\n') + "\n") == Join(PatchFixture, '\n') + "\n"
  {
    forall j | 0 <= j < |PatchFixture| ensures IsSimplifiedLine(PatchFixture[j]) {
      assert !IsSpace(PatchFixture[j][|PatchFixture[j]| - 1]);
    }
    FixedPoint(PatchFixture);
  }

  // ---------------------------------------------------------------------
  // GitRepository: launching git, and commit
  // ---------------------------------------------------------------------

  /** The environment variable through which the hook reads the operator's answer. */
  const TtyVariable: string := "PRE_COMMIT_HOOK_TTY"

  /** The arguments after `git commit`: a fixed message, and `--no-verify` to skip the hook. */
  function CommitArgs(verify: bool): (args: seq<string>)
    ensures |args| == (if verify then 2 else 3)
    ensures args[..2] == ["-m", "test"]
    ensures ("--no-verify" in args) <==> !verify
  {
    var args := ["-m", "test"];
    if verify then args else args + ["--no-verify"]
  }

  /** The variables overwritten for the commit: the answer file, exactly when an answer is given. */
  function OverwriteEnv(inputText: Option<string>, tmpPath: string): (overwrite: map<string, string>)
    ensures (TtyVariable in overwrite) <==> inputText.Some?
    ensures overwrite.Keys <= {TtyVariable}
    ensures TtyVariable in overwrite ==> overwrite[TtyVariable] == tmpPath
  {
    if inputText.Some? then map[TtyVariable := tmpPath] else map[]
  }

  /** The files while git runs: the answer file exists, with the answer, only for a non-empty answer. */
  function FilesWithAnswer(files: map<string, string>, inputText: Option<string>, tmpPath: string): (r: map<string, string>)
    ensures inputText.Some? && inputText.value != "" ==> tmpPath in r && r[tmpPath] == inputText.value
    ensures (inputText.None? || inputText.value == "") ==> r == files
    ensures forall path :: path != tmpPath ==> (path in r <==> path in files)
    ensures forall path :: path != tmpPath && path in files ==> r[path] == files[path]
  {
    if inputText.Some? && inputText.value != "" then files[tmpPath := inputText.value] else files
  }

  /** What `os.unlink` can raise. */
  datatype OsError = FileNotFound(path: string)

  /** The `finally` block: `os.unlink` of the given path, if any; a missing file raises. */
  function Unlink(files: map<string, string>, path: Option<string>): Result<map<string, string>, OsError>
  {
    match path
    case None => Ok(files)
    case Some(p) => if p in files then Ok(files - {p}) else Err(FileNotFound(p))
  }

  /** As written, the `finally` block unlinks the temporary name whenever one was picked. */
  function UnlinkedAsWritten(inputText: Option<string>, tmpPath: string): Option<string>
  {
    if inputText.Some? then Some(tmpPath) else None
  }

  /** As intended, it unlinks the temporary file only when one was written. */
  function UnlinkedTmp(inputText: Option<string>, tmpPath: string): Option<string>
  {
    if inputText.Some? && inputText.value != "" then Some(tmpPath) else None
  }

  /**
    As written, an empty answer makes `commit` raise: no file is written
    for it, yet its name, which `mktemp` picked unused, is unlinked.
   */
  lemma EmptyAnswerUnlinkFails(files: map<string, string>, tmpPath: string)
    requires tmpPath !in files
    ensures Unlink(FilesWithAnswer(files, Some(""), tmpPath), UnlinkedAsWritten(Some(""), tmpPath))
         == Err(FileNotFound(tmpPath))
  {
  }

  /** Unlinking only a written answer file always succeeds and leaves the files as they were. */
  lemma CleanupRestoresFiles(files: map<string, string>, inputText: Option<string>, tmpPath: string)
    requires inputText.Some? ==> tmpPath !in files
    ensures Unlink(FilesWithAnswer(files, inputText, tmpPath), UnlinkedTmp(inputText, tmpPath)) == Ok(files)
  {
    if inputText.Some? && inputText.value != "" {
      assert files[tmpPath := inputText.value] - {tmpPath} == files;
    }
  }

  class GitRepository {
    /** The directory of the repository's work tree. */
    const repoDir: string

    constructor (repoDir: string)
      ensures this.repoDir == repoDir
    {
      this.repoDir := repoDir;
    }

    /** `check_output`: run a command from the repository's directory, then come back. */
    method CheckOutput(os: OsState, argv: seq<string>)
      modifies os`cwd, os`calls
      ensures os.calls == old(os.calls) + [Invocation(repoDir, argv, os.env, os.files)]
      ensures os.cwd == old(os.cwd)
    {
      var wd := new WorkDir(Some(repoDir));
      wd.Enter(os);
      os.calls := os.calls + [Invocation(os.cwd, argv, os.env, os.files)];
      wd.Exit(os);
    }

    /**
      `commit`: run `git commit -m test`, with `--no-verify` unless the hook
      is to run, and, when an answer for the hook is given, with
      `PRE_COMMIT_HOOK_TTY` naming a temporary file holding it. `tmpPath` is
      the name `tempfile.mktemp` returns. As written, the `finally` block
      unlinks that name whenever an answer is given, so an empty answer,
      for which no file is written, ends in `FileNotFoundError`. Either way
      the directory, the environment and the files are afterwards what
      they were.
     */
    method Commit(os: OsState, verify: bool, inputText: Option<string>, tmpPath: string) returns (err: Option<OsError>)
      requires inputText.Some? ==> tmpPath !in os.files
      modifies os
      ensures err == (if inputText == Some("") then Some(FileNotFound(tmpPath)) else None)
      ensures os.calls == old(os.calls) + [Invocation(
        repoDir,
        ["git", "commit"] + CommitArgs(verify),
        Overwritten(old(os.env), OverwriteEnv(inputText, tmpPath)),
        FilesWithAnswer(old(os.files), inputText, tmpPath))]
      ensures os.cwd == old(os.cwd) && os.env == old(os.env) && os.files == old(os.files)
    {
      var args := CommitArgs(verify);
      var overwrite: map<string, string> := map[];
      if inputText.Some? {
        if inputText.value != "" {
          os.files := os.files[tmpPath := inputText.value];
        }
        overwrite := overwrite[TtyVariable := tmpPath];
      }
      var adder := new EnvAdder(overwrite);
      adder.Enter(os);
      CheckOutput(os, ["git", "commit"] + args);
      CanRestoreAfterEnter(old(os.env), overwrite);
      EnterExitRestoresEnv(old(os.env), overwrite);
      var keyError := adder.Exit(os);
      if inputText == Some("") {
        EmptyAnswerUnlinkFails(old(os.files), tmpPath);
      } else {
        CleanupRestoresFiles(old(os.files), inputText, tmpPath);
      }
      match Unlink(os.files, UnlinkedAsWritten(inputText, tmpPath))
      case Ok(files) =>
        os.files := files;
        err := None;
      case Err(e) =>
        err := Some(e);
    }
  }

  // ---------------------------------------------------------------------
  // GitRepository.git_dir: the `.git` file of a work tree
  // ---------------------------------------------------------------------

  /** The prefix of a `.git` file that points elsewhere. */
  const GitDirIntro: string := "gitdir: "

  /** Why a `.git` file cannot be read as a work tree's. */
  datatype GitFileError =
    | UnexpectedContent(content: string)  // the assertion on the intro fails
    | TooFewComponents                    // `components[-2]` raises IndexError
    | NotAWorktree                        // the assertion on `worktrees` fails

  /**
    The main git directory named by the text of a `.git` file: the path
    after `gitdir: `, split on `/`, must have `worktrees` as its next-to-last
    component, and everything before that is the answer.
   */
  function MainGitDir(fileText: string): (r: Result<string, GitFileError>)
    ensures (r.Err? && r.error.UnexpectedContent?) <==> !StartsWith(RStrip(fileText), GitDirIntro)
    ensures r.Err? && r.error.UnexpectedContent? ==> r.error.content == RStrip(fileText)
    ensures r == Err(TooFewComponents) <==>
      StartsWith(RStrip(fileText), GitDirIntro) && '/' !in RStrip(fileText)[|GitDirIntro|..]
  {
    var content := RStrip(fileText);
    if !StartsWith(content, GitDirIntro) then Err(UnexpectedContent(content))
    else
      var path := content[|GitDirIntro|..];
      var components := Split(path, '/');
      SplitSingle(path, '/');
      if |components| < 2 then Err(TooFewComponents)
      else if components[|components| - 2] != "worktrees" then Err(NotAWorktree)
      else Ok(Join(components[..|components| - 2], '/'))
  }

  /** The components of `prefix/middle/name` for a single-component `name`. */
  lemma {:induction false} SplitUnder(prefix: string, middle: string, name: string)
    requires '/' !in middle && '/' !in name
    ensures Split(prefix + "/" + middle + "/" + name, '/') == Split(prefix, '/') + [middle, name]
  {
    SplitConcat(prefix, '/', middle + "/" + name);
    assert prefix + "/" + middle + "/" + name == prefix + ['/'] + (middle + ['/'] + name);
    SplitAtSep(middle, '/', name);
    SplitNoSep(name, '/');
  }

  /**
    The `.git` file git writes for a work tree, `gitdir: MAIN/worktrees/NAME`
    with a trailing newline, yields `MAIN`.
   */
  lemma WorktreeGitFile(main: string, name: string, trailing: string)
    requires name != "" && '/' !in name && !IsSpace(name[|name| - 1])
    requires forall i :: 0 <= i < |trailing| ==> IsSpace(trailing[i])
    ensures MainGitDir(GitDirIntro + main + "/worktrees/" + name + trailing) == Ok(main)
  {
    var path := main + "/" + "worktrees" + "/" + name;
    var content := GitDirIntro + path;
    assert GitDirIntro + main + "/worktrees/" + name + trailing == content + trailing;
    RStripAppendedSpace(content, trailing);
    assert content[..|GitDirIntro|] == GitDirIntro;
    assert content[|GitDirIntro|..] == path;
    SplitUnder(main, "worktrees", name);
    var components := Split(main, '/') + ["worktrees", name];
    assert components[..|components| - 2] == Split(main, '/');
    JoinSplit(main, '/');
  }

  /**
    A `.git` file `gitdir: PATH/MIDDLE/NAME` whose next-to-last component
    is not `worktrees` fails the assertion on it.
   */
  lemma NotAWorktreeGitFile(path: string, middle: string, name: string, trailing: string)
    requires '/' !in middle && middle != "worktrees"
    requires name != "" && '/' !in name && !IsSpace(name[|name| - 1])
    requires forall i :: 0 <= i < |trailing| ==> IsSpace(trailing[i])
    ensures MainGitDir(GitDirIntro + path + "/" + middle + "/" + name + trailing) == Err(NotAWorktree)
  {
    var full := path + "/" + middle + "/" + name;
    var content := GitDirIntro + full;
    assert GitDirIntro + path + "/" + middle + "/" + name + trailing == content + trailing;
    RStripAppendedSpace(content, trailing);
    assert content[..|GitDirIntro|] == GitDirIntro;
    assert content[|GitDirIntro|..] == full;
    SplitUnder(path, middle, name);
  }

  /** A submodule's `.git` file, `gitdir: PATH/modules/NAME`, is rejected. */
  lemma SubmoduleGitFile(path: string, name: string, trailing: string)
    requires name != "" && '/' !in name && !IsSpace(name[|name| - 1])
    requires forall i :: 0 <= i < |trailing| ==> IsSpace(trailing[i])
    ensures MainGitDir(GitDirIntro + path + "/modules/" + name + trailing) == Err(NotAWorktree)
  {
    assert GitDirIntro + path + "/" + "modules" + "/" + name + trailing
        == GitDirIntro + path + "/modules/" + name + trailing by {
      assert "/" + "modules" + "/" == "/modules/";
    }
    NotAWorktreeGitFile(path, "modules", name, trailing);
  }

  /**
    Components whose next-to-last one is `worktrees` join to the join of
    those before it, `/worktrees/` and the last one, or, when none comes
    before, to `worktrees/` and the last one.
   */
  lemma JoinWorktreeComponents(comps: seq<string>)
    requires |comps| >= 2 && comps[|comps| - 2] == "worktrees"
    ensures |comps| == 2 ==> Join(comps, '/') == "worktrees/" + comps[1]
    ensures |comps| > 2 ==>
      Join(comps, '/') == Join(comps[..|comps| - 2], '/') + "/worktrees/" + comps[|comps| - 1]
  {
    var n := |comps|;
    var name := comps[n - 1];
    var tail := comps[n - 2..];
    assert Join(tail, '/') == "worktrees/" + name by {
      assert tail == ["worktrees", name];
    }
    if n == 2 {
      assert comps == tail;
    } else {
      var main := Join(comps[..n - 2], '/');
      assert Join(comps, '/') == main + "/" + Join(tail, '/') by {
        assert comps[..n - 2] + tail == comps;
        JoinConcat(comps[..n - 2], tail, '/');
      }
      WorktreesInfix(main, name);
    }
  }

  /** Regrouping `MAIN/` and `worktrees/NAME` as `MAIN`, `/worktrees/` and `NAME`. */
  lemma WorktreesInfix(main: string, name: string)
    ensures main + "/" + ("worktrees/" + name) == main + "/worktrees/" + name
  {
    assert "/" + "worktrees/" == "/worktrees/";
  }

  /** The shape of a path whose next-to-last `/`-component is `worktrees`. */
  lemma WorktreePathShape(path: string)
    requires var comps := Split(path, '/'); |comps| >= 2 && comps[|comps| - 2] == "worktrees"
    ensures var comps := Split(path, '/');
      var main, name := Join(comps[..|comps| - 2], '/'), comps[|comps| - 1];
      '/' !in name && (path == main + "/worktrees/" + name || (main == "" && path == "worktrees/" + name))
  {
    var comps := Split(path, '/');
    SplitPiecesLackSep(path, '/');
    JoinSplit(path, '/');
    JoinWorktreeComponents(comps);
  }

  /**
    Conversely, a parsed main directory comes from a path `MAIN/worktrees/NAME`
    for a single component `NAME`, or from `worktrees/NAME`, which yields
    the empty directory.
   */
  lemma MainGitDirOk(fileText: string)
    requires MainGitDir(fileText).Ok?
    ensures var path, main := RStrip(fileText)[|GitDirIntro|..], MainGitDir(fileText).value;
      exists name :: '/' !in name &&
        (path == main + "/worktrees/" + name || (main == "" && path == "worktrees/" + name))
  {
    var path := RStrip(fileText)[|GitDirIntro|..];
    var comps := Split(path, '/');
    WorktreePathShape(path);
    var name := comps[|comps| - 1];
    assert '/' !in name;
  }

  /** A `.git` file that does not start with `gitdir: ` is rejected with its stripped content. */
  lemma NotAGitdirFile(fileText: string)
    requires !StartsWith(RStrip(fileText), GitDirIntro)
    ensures MainGitDir(fileText) == Err(UnexpectedContent(RStrip(fileText)))
  {
  }
}
