# clang-format-hooks test scaffolding, in Dafny

The repository `clang-format-hooks` ships two shell scripts: `apply-format`, which turns
clang-format's output into a patch, and `git-pre-commit-format`, a git pre-commit hook that
stops an improperly formatted commit or fixes it when asked. Its Python test suite copies
those scripts into throw-away git repositories and runs them.

This project models the logic that the test suite itself contains. The model proves facts
about it:

- **the unified-diff simplifier** (`simplify_diff`). Tests compare `git show` and patch output
  with fixtures after this normalisation. It strips trailing whitespace, rewrites hunk headers
  to `@@ ... @@`, drops blank and context lines, and ends the text with one newline. The model
  proves that it is idempotent, what shape every output line has, which lines survive and in
  what order, and that the `data.PATCH` fixture is a fixed point;
- **how a commit is launched** (`GitRepository.commit`). This covers git's arguments, the
  `PRE_COMMIT_HOOK_TTY` override through which the hook reads the operator's answer, the
  temporary answer file, and the proof that directory, environment and files are restored
  afterwards;
- **the `.git` file of a work tree** (`git_dir`), parsed into the main git directory;
- **the two context managers** of the test utilities. `WorkDir` saves and restores the current
  directory. `EnvAdder` overwrites environment variables and then restores each one exactly,
  deleting those that were absent before;
- **the test runner's argument preprocessing**. It adds the default test modules when no test
  is named, and inserts `-v` after the script name when `V` is set;
- **the scripts fixture**: where the scripts sit for each way the repository is provisioned,
  the `.clang-format` text written for a style, and the `repo`/`scripts_dir` lifecycle across
  `setUp` and `tearDown`.

Files, one module each (plus two helper modules):

| file | module | models |
|---|---|---|
| `wrappers.dfy` | `Wrappers` | Python `None`-or-value (`Option`) and raise-or-return (`Result`) |
| `pystr.dfy` | `PyStr`, `PosixPath` | `str.split`, `str.join`, `str.rstrip` (Python's exact `isspace` list), `startswith`, `posixpath.join` |
| `os_state.dfy` | `Os` | the process state: `cwd`, `environ`, files, and a log of launched subprocesses |
| `testutils.dfy` | `TestUtils` | `WorkDir`, `EnvAdder` |
| `mixin_git.dfy` | `MixinGit` | `simplify_diff`, `GitRepository.check_output`, `GitRepository.commit`, the `git_dir` parse |
| `run.dfy` | `Run` | the argv preprocessing of the runner's `main` |
| `mixin_scripts_repo.dfy` | `ScriptsRepo` | script paths, `write_style`, `setUp`/`tearDown` of the fixture |

Process state is an `OsState` object passed to the methods that change it. Its fields are
`cwd`, `env`, `files` and `calls`. The classes keep the source's fields (`_old_work_dir`,
`_saved`, `repo`, `scripts_dir`) and change them in place. Python `assert`s at the top of a
method are `requires` clauses. Exceptions the code can raise (`KeyError`, `IndexError`,
`FileNotFoundError`, a failed `assert` in the middle of a parse) are error results.

Where the code and the repository's prose disagree, the model follows the code. `EnvAdder`'s
docstring says it adds a directory to `$PATH`, but the code overwrites an arbitrary set of
variables, and that is what is modelled. The Python test suite has no implementation of the
hook's decision workflow (apply/force/cancel); it lives in the shell scripts, which are not part
of this model.

Two source constructs are modelled by equivalent definitions:

- The hunk-header regular expression `^@@.*@@$` is applied with `re.match` to a line that
  contains no newline. On such a line it matches exactly when the line is at least four
  characters long and starts and ends with `@@`. `IsHunkHeader` says exactly that.
- `'\n'`-`split` and `join` are recursive functions. The model proves that they invert each
  other on newline-free pieces (`PyStr.SplitJoin`, `PyStr.JoinSplit`).

## Model

| member | source | states |
|---|---|---|
| `PyStr.RStrip` | tests/mixin_git.py:179 | the result is a prefix of the line, does not end in whitespace, and only whitespace was removed |
| `PyStr.Split` | tests/mixin_git.py:178 | `s.split(sep)`: the pieces between separators, at least one; `JoinSplit`, `SplitJoin`, `SplitPiecesLackSep` and `SplitSingle` characterise it |
| `PyStr.Join` | tests/mixin_git.py:189 | `sep.join(parts)`: the pieces with one separator between neighbours; it inverts `Split` (`JoinSplit`, `SplitJoin`) |
| `PyStr.SplitSingle` | tests/mixin_git.py:55-56 | a split has a single piece exactly when the separator does not occur, which is when `components[-2]` raises |
| `PyStr.JoinSplit` | tests/mixin_git.py:178 | joining the pieces of a `'\n'` split gives back the text |
| `PyStr.SplitJoin` | tests/mixin_git.py:178-189 | splitting a join of separator-free pieces gives back the pieces |
| `PyStr.SplitPiecesLackSep` | tests/mixin_git.py:178 | no piece of a split contains the separator |
| `PosixPath.JoinRelative` | tests/mixin_scripts_repo.py:79 | `os.path.join(d, name)` for a relative name is the directory, a `/` unless empty or already there, then the name |
| `PosixPath.Join` | tests/mixin_scripts_repo.py:79 | `posixpath.join(a, b)`: `b` when it is absolute, otherwise `a`, a `/` unless `a` is empty or ends in one, then `b`; `JoinRelative` states the relative case |
| `PosixPath.JoinAll` | tests/mixin_scripts_repo.py:185 | `os.path.join(first, *rest)` as repeated two-argument joins; `ScriptsRepo.CopiedScriptsDirValue` evaluates the one use |
| `MixinGit.SimplifyDiff` | tests/mixin_git.py:165-189 | the loop appending surviving lines yields exactly the simplified diff: surviving normalized lines joined by `\n`, plus a final `\n` |
| `MixinGit.NormalizeLine` | tests/mixin_git.py:179-182 | one line stripped of trailing whitespace, and replaced by `@@ ... @@` if it then matches `^@@.*@@$`; `HunkHeaderRewritten` and `ChangeLineKept` state its cases |
| `MixinGit.KeptLines` | tests/mixin_git.py:177-187 | the normalized lines that are neither blank nor context lines, in input order; `KeptLinesMembership`, `KeptLinesConcat` and `KeptLinesAreSimplified` characterise it |
| `MixinGit.Simplified` | tests/mixin_git.py:178-189 | the specification of `simplify_diff`: the surviving lines joined by `\n`, plus `\n`; `Idempotent`, `OutputLines`, `EndsWithNewline` and `FixedPoint` are its properties |
| `MixinGit.KeptLinesAreSimplified` | tests/mixin_git.py:178-187 | every output line is non-empty, does not start with a space, has no trailing whitespace and no newline, and is the placeholder if it looks like a hunk header |
| `MixinGit.HunkHeaderRewritten` | tests/mixin_git.py:175-182 | a line that, once stripped, starts and ends with `@@` (length at least 4) becomes exactly `@@ ... @@` |
| `MixinGit.ChangeLineKept` | tests/mixin_git.py:184-187 | removed and added lines, `--- /dev/null` and `+++ b/foo.c` file headers included, survive with trailing whitespace stripped |
| `MixinGit.KeptLinesMembership` | tests/mixin_git.py:178-187 | a line is in the output iff some input line normalizes to it and it is neither blank nor a context line |
| `MixinGit.KeptLinesConcat` | tests/mixin_git.py:177-187 | the output of a concatenation is the output of each part, in order: lines keep their input order and only blank and context lines are dropped |
| `MixinGit.SimplifiedOfJoin` | tests/mixin_git.py:178-189 | simplifying newline-joined lines keeps just their surviving lines |
| `MixinGit.OutputLines` | tests/mixin_git.py:189 | the output is `\n` when no line survives, and otherwise splits into exactly the surviving lines followed by one empty piece |
| `MixinGit.EndsWithNewline` | tests/mixin_git.py:189 | the output always ends in `\n`, and the empty diff gives `\n` |
| `MixinGit.SimplifiedLineIsFixed` | tests/mixin_git.py:179-187 | a line already in output shape survives unchanged |
| `MixinGit.KeptLinesOfSimplified` | tests/mixin_git.py:178-187 | lines already in output shape all survive, unchanged and in order |
| `MixinGit.FixedPoint` | tests/mixin_git.py:178-189 | the newline-terminated join of lines in output shape is its own simplification |
| `MixinGit.Idempotent` | tests/mixin_git.py:178-189 | simplifying twice equals simplifying once |
| `MixinGit.PatchFixtureIsFixed` | tests/data.py:56-62 | the `PATCH` fixture is a fixed point of the simplifier |
| `MixinGit.CommitArgs` | tests/mixin_git.py:100-102 | the arguments start with `-m test` and contain `--no-verify` exactly when `verify` is false |
| `MixinGit.OverwriteEnv` | tests/mixin_git.py:107-113 | `PRE_COMMIT_HOOK_TTY` is overridden iff an answer is given, to the temporary path, and nothing else is |
| `MixinGit.FilesWithAnswer` | tests/mixin_git.py:108-112 | while git runs the answer file holds the answer when it is non-empty, and no file is created otherwise |
| `MixinGit.Unlink` | tests/mixin_git.py:119-120 | `os.unlink`: removes an existing file and raises `FileNotFoundError` for a missing one; nothing happens when no name was picked |
| `MixinGit.UnlinkedAsWritten` | tests/mixin_git.py:109-120 | the name the `finally` block unlinks: the temporary name whenever an answer is given, even an empty one; `EmptyAnswerUnlinkFails` shows the consequence |
| `MixinGit.EmptyAnswerUnlinkFails` | tests/mixin_git.py:108-120 | as written, an empty answer makes the `finally` block unlink a file that was never created, which raises `FileNotFoundError` |
| `MixinGit.CleanupRestoresFiles` | tests/mixin_git.py:118-120 | unlinking the answer file only when it was written always succeeds and restores the files |
| `MixinGit.GitRepository.constructor` | tests/mixin_git.py:18-25 | the repository records its directory |
| `MixinGit.GitRepository.CheckOutput` | tests/mixin_git.py:60-75 | the command runs with the repository's directory as cwd and the current environment, and the cwd is restored |
| `MixinGit.MainGitDir` | tests/mixin_git.py:42-58 | the `.git` file parse: it fails with the stripped content exactly when that does not start with `gitdir: `, and with `IndexError` exactly when the path after it has no `/`; `WorktreeGitFile`, `MainGitDirOk` (both directions of the success case) and `NotAWorktreeGitFile` state the other outcomes |
| `MixinGit.GitRepository.Commit` | tests/mixin_git.py:99-120 | git runs as `git commit -m test [--no-verify]` in the repository, with the override environment, and with the answer file only when the answer is non-empty; the call ends in `FileNotFoundError` exactly for an empty answer, and otherwise without error; either way cwd, environment and files afterwards equal the old ones |
| `MixinGit.WorktreeGitFile` | tests/mixin_git.py:41-58 | `gitdir: MAIN/worktrees/NAME` plus trailing whitespace yields `MAIN` |
| `MixinGit.MainGitDirOk` | tests/mixin_git.py:52-58 | conversely, a parsed main directory `MAIN` comes from a path `MAIN/worktrees/NAME` with `NAME` a single component, or from `worktrees/NAME`, which yields the empty directory |
| `MixinGit.SubmoduleGitFile` | tests/mixin_git.py:32-33 | a submodule's `gitdir: PATH/modules/NAME` is rejected, since its next-to-last component is not `worktrees` |
| `MixinGit.NotAWorktreeGitFile` | tests/mixin_git.py:55-56 | any `gitdir: PATH/MIDDLE/NAME` whose next-to-last component `MIDDLE` is not `worktrees` is rejected |
| `MixinGit.NotAGitdirFile` | tests/mixin_git.py:42-45 | content not starting with `gitdir: ` is rejected, reporting the stripped content |
| `TestUtils.WorkDir.constructor` | tests/testutils.py:31-38 | a new `WorkDir` holds its target and no saved directory |
| `TestUtils.WorkDir.Enter` | tests/testutils.py:40-47 | requires not entered and a non-null target; saves the previous cwd and changes to the target, touching nothing else |
| `TestUtils.WorkDir.Exit` | tests/testutils.py:49-53 | requires a prior enter; restores the saved cwd and clears the saved slot |
| `TestUtils.WorkDirRoundTrip` | tests/testutils.py:40-53 | enter then exit leaves cwd unchanged and the object ready to be entered again |
| `TestUtils.Overwritten` | tests/testutils.py:77-79 | after overwriting, every named variable has its given value and every other variable is unchanged |
| `TestUtils.SavedValues` | tests/testutils.py:76-78 | the saved map has exactly the overwritten names, each with its previous value, or absent iff it was not set |
| `TestUtils.Restored` | tests/testutils.py:86-90 | variables saved as absent are deleted, those saved with a value get it back, all others are unchanged |
| `TestUtils.CanRestoreAfterEnter` | tests/testutils.py:73-92 | right after enter, exit cannot hit a missing variable |
| `TestUtils.EnterExitRestoresEnv` | tests/testutils.py:73-92 | with no change in between, exit after enter restores the environment map exactly |
| `TestUtils.OtherVariablesUntouched` | tests/testutils.py:77-90 | variables not named in `overwrite_env` are untouched by enter, by exit from any environment, and so across enter followed by exit |
| `TestUtils.EnvAdder.constructor` | tests/testutils.py:63-71 | a new `EnvAdder` holds its overrides and nothing saved |
| `TestUtils.EnvAdder.Enter` | tests/testutils.py:73-81 | requires nothing saved; saves the previous values and overwrites the variables |
| `TestUtils.EnvAdder.Exit` | tests/testutils.py:83-92 | requires a prior enter; succeeds iff every variable saved as absent is present, and then restores the environment and clears the saved values; on `KeyError` nothing saved is cleared, and variables not saved are untouched either way |
| `TestUtils.EnvAdderRoundTrip` | tests/testutils.py:73-92 | enter then exit, with nothing changing the environment in between, leaves the environment equal to the old one and the object ready to be entered again |
| `Run.HasTestName` | tests/run.py:29-32 | the loop's flag is true iff some element of `argv[1:]` does not start with `-` |
| `Run.NamesATest` | tests/run.py:29-32 | some argument after the script name does not start with `-`; `NamesATestIff` restates it by index |
| `Run.Extended` | tests/run.py:34-36 | the arguments followed by the default tests when none is named; `ExtendedAppendsAllTests` |
| `Run.Prepared` | tests/run.py:34-42 | the extended arguments with `-v` inserted at index 1 when verbose; `PreparedShape`, `VerboseInsertion` and the examples characterise it |
| `Run.NamesATestIff` | tests/run.py:29-32 | that is, iff some `argv[i]`, `i >= 1`, does not start with `-` (the empty string counts as a name) |
| `Run.ExtendedAppendsAllTests` | tests/run.py:34-36 | with no test name, the default tests follow the given arguments in order; otherwise nothing is added |
| `Run.VerboseInsertion` | tests/run.py:40-42 | `-v` is at index 1 when `V` is set, and removing it gives the extended list; otherwise nothing is inserted |
| `Run.PreparedShape` | tests/run.py:34-42 | `argv[0]` is never changed, and the length grows by the number of default tests when none is named, plus 1 when `V` is set |
| `Run.EmptyArgv` | tests/run.py:29-42 | an empty list becomes the default tests, with `-v` between them when `V` is set |
| `Run.OptionsOnly` | tests/run.py:29-36 | options alone do not name a test, so the default tests are appended |
| `Run.NamedTest` | tests/run.py:29-42 | a named test suppresses the defaults and `-v` goes right after the script name |
| `Run.ArgList.constructor` | tests/run.py:19 | the list holds the given arguments |
| `Run.PrepareArgv` | tests/run.py:29-42 | the caller's list is changed in place to the extended and annotated arguments, with verbosity read from `V` in the environment |
| `ScriptsRepo.ScriptPathIsPrefixed` | tests/mixin_scripts_repo.py:77-81 | with no scripts directory (None or empty) the path is the bare name; otherwise it is the directory joined with the name |
| `ScriptsRepo.ScriptPath` | tests/mixin_scripts_repo.py:77-81 | `_get_script_path`: the name joined under `scripts_dir` when that is set and non-empty, the bare name otherwise; `ScriptPathIsPrefixed` states it |
| `ScriptsRepo.ApplyFormatPath` | tests/mixin_scripts_repo.py:83-88 | the `apply_format_path` property: `ScriptPath` of `apply-format`; the per-variant values are in the lemmas below |
| `ScriptsRepo.PreCommitHookPath` | tests/mixin_scripts_repo.py:90-95 | the `pre_commit_hook_path` property: `ScriptPath` of `git-pre-commit-format`; `ScriptPathsShareDirectory` relates the two |
| `ScriptsRepo.ScriptPathsShareDirectory` | tests/mixin_scripts_repo.py:83-95 | both script paths have the same directory part and differ only in `apply-format` and `git-pre-commit-format` |
| `ScriptsRepo.CopiedScriptsDirValue` | tests/mixin_scripts_repo.py:185 | `os.path.join('foo', 'bar', 'scripts')` is `foo/bar/scripts` |
| `ScriptsRepo.ConfiguredScriptsDir` | tests/mixin_scripts_repo.py:152-189 | the `scripts_dir` each `config_repo` sets: `.` for a clone, `submodule` for the submodule layout, `foo/bar/scripts` for copied scripts; the path lemmas below evaluate each |
| `ScriptsRepo.RepoDirName` | tests/mixin_git.py:134-150 | the repository's directory name inside its fresh temporary directory: `cloned` for a clone, `new` for a new repository; `SetUp` uses it |
| `ScriptsRepo.ClonedScriptPaths` | tests/mixin_scripts_repo.py:152-154 | in a cloned repository the scripts are `./apply-format` and `./git-pre-commit-format` |
| `ScriptsRepo.SubmoduleScriptPaths` | tests/mixin_scripts_repo.py:165-169 | with the submodule layout they are under `submodule/` |
| `ScriptsRepo.CopiedScriptPaths` | tests/mixin_scripts_repo.py:185-189 | with copied scripts they are under `foo/bar/scripts/` |
| `ScriptsRepo.StyleLines` | tests/mixin_scripts_repo.py:98 | one `key: value` line per entry, in iteration order |
| `ScriptsRepo.StyleText` | tests/mixin_scripts_repo.py:98-99 | the `.clang-format` text: the entry lines joined by `\n`, with no final newline; `StyleTextLines` and `EmptyStyleText` characterise it |
| `ScriptsRepo.EmptyStyleText` | tests/mixin_scripts_repo.py:97-100 | an empty mapping writes `''` |
| `ScriptsRepo.StyleTextLines` | tests/mixin_scripts_repo.py:97-100 | the text splits back into exactly the entry lines, so it has no trailing newline |
| `ScriptsRepo.IndentStyleText` | tests/test_apply_format.py:242-245 | the indentation test's style writes `BasedOnStyle: llvm\nIndentWidth: 8` |
| `ScriptsRepo.ScriptsRepoFixture.constructor` | tests/mixin_scripts_repo.py:23-27 | a new fixture has neither `repo` nor `scripts_dir` |
| `ScriptsRepo.ScriptsRepoFixture.SetUp` | tests/mixin_scripts_repo.py:29-38 | requires `repo` and `scripts_dir` unset; the base `config_repo` raises; every variant ends with a fresh `repo` at `TMP/cloned` or `TMP/new` and its own `scripts_dir` |
| `ScriptsRepo.ScriptsRepoFixture.TearDown` | tests/mixin_scripts_repo.py:56-60 | resets both fields to None |
| `ScriptsRepo.ScriptsRepoFixture.WriteStyle` | tests/mixin_scripts_repo.py:97-100 | writes the style text to `.clang-format` under the repository directory and changes no other file |
| `ScriptsRepo.SetUpTearDownCycle` | tests/mixin_scripts_repo.py:29-60 | after tearDown the fixture can be set up again |

## Left out

- The `apply-format` and `git-pre-commit-format` scripts, and the hook's apply/force/cancel
  workflow. The scripts are not part of this model, and the Python code only copies and runs
  them.
- tests/test_apply_format.py and tests/test_hook.py run those scripts as subprocesses and
  contain no logic of their own. Only `PATCH` from tests/data.py is used, as a fixed-point
  example of the simplifier.
- What the launched programs do: git's and the scripts' effects, output and exit status. This
  includes `CalledProcessError` and its note. `GitRepository.CheckOutput` records the
  invocation that git would see and returns nothing.
- `MixinGit.GitRepository.Commit`: returns no output. It assumes the name from
  `tempfile.mktemp` is unused, because `mktemp` picks it that way. It models the cleanup as
  written, so an empty answer ends in `FileNotFoundError`; the corrected cleanup is
  `MixinGit.UnlinkedTmp`, proved by `MixinGit.CleanupRestoresFiles` (see Findings).
- `check_call`, `git_check_call`, `add`, `write_file` and `read_file` (beyond `WriteStyle`),
  `git_show`, `git_get_head`, `new_repo`, `clone_repo`, `this_repo_path`, `update_scripts`,
  the work-tree fixture's `setUp`, `TempDirMixin` and `makedirs`. They are git, subprocess and
  filesystem plumbing.
- `MixinGit.MainGitDir`: models only the parse of the `.git` file's content. The branch taken
  when `.git` is a directory (`isdir`/`abspath`) and the file read are I/O. It treats
  `os.path.normpath` as the identity, so it is exact only for paths that are already
  normalised, as git writes them.
- `TestUtils.WorkDir.Enter`: treats `os.chdir` as always succeeding. A missing directory is a
  filesystem error that the model does not have.
- `TestUtils.EnvAdder.Exit`: dict iteration order is not modelled. On a `KeyError` the contract
  says that some variable saved as absent was missing, that nothing saved is cleared, and that
  unsaved variables are untouched. It does not say which variable, or how much of the
  environment was already restored.
- `ScriptsRepo.ScriptsRepoFixture.SetUp`: leaves out `TempDirMixin.setUp`, the git commands
  that create, clone or extend the repository, and `update_scripts`. The temporary directory
  is a parameter.
- `ScriptsRepo.StyleText`: models style values as strings, as every caller passes them.
  `'{}'.format` of other Python types is not modelled. The mapping is a sequence of entries
  in iteration order.
- `unittest.main` and the success flag it returns, in tests/run.py:49-50. They belong to a
  foreign library.

## Findings

| source | as written | input that shows it | evidently intended | confidence | as-written member | corrected member |
|---|---|---|---|---|---|---|
| tests/mixin_git.py:108-120 | for an empty answer no temporary file is written, but the `finally` block still calls `os.unlink` on its name, which raises `FileNotFoundError` once git has run, whether or not the commit succeeded | `commit(input_text='')` | unlink the temporary file only when it was written, so that the files are left as they were | medium; not executed | `MixinGit.EmptyAnswerUnlinkFails` | `MixinGit.CleanupRestoresFiles` |
