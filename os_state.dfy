/**
  The slice of process state the test scaffolding touches through Python's
  `os` module: the current directory, the environment, the files written
  by the scaffolding itself, and a log of the subprocesses launched. Each
  launch is recorded with what the child process observes.
 */
module Os {

  /** What a launched subprocess sees: where it runs, its argv, environment and files. */
  datatype Invocation = Invocation(
    cwd: string,
    argv: seq<string>,
    env: map<string, string>,
    files: map<string, string>)

  class OsState {
    /** `os.getcwd()`. */
    var cwd: string
    /** `os.environ`. */
    var env: map<string, string>
    /** Files by path, with their text contents. */
    var files: map<string, string>
    /** The subprocesses launched so far, oldest first. */
    var calls: seq<Invocation>

    constructor (cwd: string, env: map<string, string>, files: map<string, string>)
      ensures this.cwd == cwd && this.env == env && this.files == files && calls == []
    {
      this.cwd := cwd;
      this.env := env;
      this.files := files;
      calls := [];
    }
  }
}
