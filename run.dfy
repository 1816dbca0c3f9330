/**
  The command-line preprocessing of the test runner: when no test name is
  among the arguments, every test module is added; when `V` is set in the
  environment, `-v` is put right after the script name.
 */
module Run {
  import opened PyStr
  import opened Os

  /** The test modules, fastest and lowest-level first. */
  const AllTests: seq<string> := ["test_apply_format", "test_hook"]

  /** `argv[1:]`, which is empty for an empty list. */
  function Arguments(argv: seq<string>): seq<string>
  {
    if |argv| == 0 then [] else argv[1..]
  }

  /** Some argument after the script name is not an option (the empty string counts as a name). */
  predicate NamesATest(argv: seq<string>)
  {
    exists arg :: arg in Arguments(argv) && !StartsWith(arg, "-")
  }

  /** `os.environ.get('V')` is truthy: `V` is set to a non-empty value. */
  predicate Verbose(env: map<string, string>)
  {
    "V" in env && Truthy(env["V"])
  }

  /** The arguments with the default tests added when no test is named. */
  function Extended(argv: seq<string>): seq<string>
  {
    if NamesATest(argv) then argv else argv + AllTests
  }

  /** The arguments handed to the test framework. */
  function Prepared(argv: seq<string>, verbose: bool): (r: seq<string>)
  {
    var ext := Extended(argv);
    assert |argv| == 0 ==> |ext| == |AllTests|;
    if verbose then ext[..1] + ["-v"] + ext[1..] else ext
  }

  /** The `has_test_name` loop over `argv[1:]`. */
  method HasTestName(argv: seq<string>) returns (hasTestName: bool)
    ensures hasTestName <==> NamesATest(argv)
  {
    hasTestName := false;
    var args := Arguments(argv);
    for i := 0 to |args|
      invariant hasTestName <==> exists j :: 0 <= j < i && !StartsWith(args[j], "-")
    {
      if !StartsWith(args[i], "-") {
        hasTestName := true;
      }
    }
  }

  /** A Python list of strings, changed in place. */
  class ArgList {
    var items: seq<string>

    constructor (items: seq<string>)
      ensures this.items == items
    {
      this.items := items;
    }
  }

  /** The part of `main` before the tests run: extend and annotate the caller's list. */
  method PrepareArgv(argv: ArgList, os: OsState)
    modifies argv
    ensures argv.items == Prepared(old(argv.items), Verbose(os.env))
  {
    var hasTestName := HasTestName(argv.items);
    if !hasTestName {
      argv.items := argv.items + AllTests;
    }
    if "V" in os.env && os.env["V"] != "" {
      argv.items := argv.items[..1] + ["-v"] + argv.items[1..];
    }
  }

  /** An argument that does not start with `-` is a test name, wherever it stands after the first. */
  lemma NamesATestIff(argv: seq<string>)
    ensures NamesATest(argv) <==> exists i :: 1 <= i < |argv| && !StartsWith(argv[i], "-")
  {
    if NamesATest(argv) {
      var arg :| arg in Arguments(argv) && !StartsWith(arg, "-");
      var j :| 0 <= j < |Arguments(argv)| && Arguments(argv)[j] == arg;
      assert argv[j + 1] == arg;
    }
    if exists i :: 1 <= i < |argv| && !StartsWith(argv[i], "-") {
      var i :| 1 <= i < |argv| && !StartsWith(argv[i], "-");
      assert Arguments(argv)[i - 1] == argv[i];
    }
  }

  /** Without a named test, the default tests follow the given arguments in order; otherwise nothing is added. */
  lemma ExtendedAppendsAllTests(argv: seq<string>)
    ensures !NamesATest(argv) ==> Extended(argv)[..|argv|] == argv && Extended(argv)[|argv|..] == AllTests
    ensures NamesATest(argv) ==> Extended(argv) == argv
  {
  }

  /** `-v` is at index 1 exactly when `V` is set; removing it gives the extended arguments. */
  lemma VerboseInsertion(argv: seq<string>, verbose: bool)
    ensures verbose ==> |Prepared(argv, verbose)| >= 2 && Prepared(argv, verbose)[1] == "-v"
    ensures verbose ==> Prepared(argv, verbose)[..1] + Prepared(argv, verbose)[2..] == Extended(argv)
    ensures !verbose ==> Prepared(argv, verbose) == Extended(argv)
  {
    if verbose {
      var ext := Extended(argv);
      var r := Prepared(argv, verbose);
      assert r[..1] == ext[..1];
      assert r[2..] == ext[1..];
    }
  }

  /** The script name is never replaced, and the list grows by the default tests and `-v` only. */
  lemma PreparedShape(argv: seq<string>, verbose: bool)
    ensures |argv| > 0 ==> Prepared(argv, verbose)[0] == argv[0]
    ensures |Prepared(argv, verbose)|
         == |argv| + (if NamesATest(argv) then 0 else |AllTests|) + (if verbose then 1 else 0)
  {
  }

  /** An empty list gets the default tests, with `-v` between them when `V` is set. */
  lemma EmptyArgv(verbose: bool)
    ensures Prepared([], verbose)
         == if verbose then ["test_apply_format", "-v", "test_hook"] else AllTests
  {
    assert !NamesATest([]);
  }

  /** Options alone do not name a test: `run.py -f` runs everything. */
  lemma OptionsOnly()
    ensures Prepared(["run.py", "-f"], false) == ["run.py", "-f", "test_apply_format", "test_hook"]
  {
    NamesATestIff(["run.py", "-f"]);
  }

  /** A named test replaces the default list: `V=1 run.py test_hook` runs only it, verbosely. */
  lemma NamedTest()
    ensures Prepared(["run.py", "test_hook"], true) == ["run.py", "-v", "test_hook"]
  {
    var argv := ["run.py", "test_hook"];
    assert "test_hook"[..1] == "t";
    assert !StartsWith(argv[1], "-");
    NamesATestIff(argv);
    assert Extended(argv) == argv;
    assert argv[..1] + ["-v"] + argv[1..] == ["run.py", "-v", "test_hook"];
  }
}
