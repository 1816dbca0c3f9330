/**
  The two context managers of the test utilities: `WorkDir`, which changes
  the current directory for the duration of a `with` block, and `EnvAdder`,
  which overwrites a set of environment variables for the duration of a
  `with` block and then restores each one, deleting those that did not
  exist before.
 */
module TestUtils {
  import opened Wrappers
  import opened Os

  // ---------------------------------------------------------------------
  // WorkDir
  // ---------------------------------------------------------------------

  class WorkDir {
    /** The directory to change to; `None` models a Python `None` argument. */
    const newWorkDir: Option<string>
    /** The directory to return to, set while the block is entered. */
    var oldWorkDir: Option<string>

    constructor (newWorkDir: Option<string>)
      ensures this.newWorkDir == newWorkDir && oldWorkDir == None
    {
      this.newWorkDir := newWorkDir;
      oldWorkDir := None;
    }

    /** `__enter__`: remember the current directory, then change to the new one. */
    method Enter(os: OsState)
      requires oldWorkDir == None
      requires newWorkDir.Some?
      modifies this`oldWorkDir, os`cwd
      ensures oldWorkDir == Some(old(os.cwd))
      ensures os.cwd == newWorkDir.value
    {
      oldWorkDir := Some(os.cwd);
      os.cwd := newWorkDir.value;
    }

    /** `__exit__`: go back to the remembered directory and forget it. */
    method Exit(os: OsState)
      requires oldWorkDir.Some?
      modifies this`oldWorkDir, os`cwd
      ensures os.cwd == old(oldWorkDir).value
      ensures oldWorkDir == None
    {
      os.cwd := oldWorkDir.value;
      oldWorkDir := None;
    }
  }

  /**
    A `with WorkDir(d):` block whose body leaves the directory alone:
    afterwards the directory is what it was and the object can be entered again.
   */
  method WorkDirRoundTrip(wd: WorkDir, os: OsState)
    requires wd.oldWorkDir == None && wd.newWorkDir.Some?
    modifies wd`oldWorkDir, os`cwd
    ensures os.cwd == old(os.cwd)
    ensures wd.oldWorkDir == None
  {
    wd.Enter(os);
    wd.Exit(os);
  }

  // ---------------------------------------------------------------------
  // EnvAdder: the specification of its effect on the environment
  // ---------------------------------------------------------------------

  /** `os.environ.get(name)`. */
  function EnvGet(env: map<string, string>, name: string): Option<string>
  {
    if name in env then Some(env[name]) else None
  }

  /** The environment after `os.environ[name] = value` for every overwritten variable. */
  function Overwritten(env: map<string, string>, overwrite: map<string, string>): (r: map<string, string>)
    ensures r.Keys == env.Keys + overwrite.Keys
    ensures forall name :: name in overwrite ==> r[name] == overwrite[name]
    ensures forall name :: name in env && name !in overwrite ==> r[name] == env[name]
  {
    env + overwrite
  }

  /** What `__enter__` saves: for each overwritten variable, its previous value or absence. */
  function SavedValues(env: map<string, string>, overwrite: map<string, string>): (saved: map<string, Option<string>>)
    ensures saved.Keys == overwrite.Keys
    ensures forall name :: name in saved ==> (saved[name] == None <==> name !in env)
    ensures forall name :: name in saved && name in env ==> saved[name] == Some(env[name])
  {
    map name | name in overwrite :: EnvGet(env, name)
  }

  /** `__exit__` can run to the end: every variable it must delete is still there. */
  predicate CanRestore(env: map<string, string>, saved: map<string, Option<string>>)
  {
    forall name :: name in saved && saved[name] == None ==> name in env
  }

  /**
    The environment after `__exit__`: variables saved as absent are deleted,
    those saved with a value get it back, all others are left as they are.
   */
  function Restored(env: map<string, string>, saved: map<string, Option<string>>): (r: map<string, string>)
    ensures forall name :: name in saved ==> (name in r <==> saved[name].Some?)
    ensures forall name :: name in saved && saved[name].Some? ==> r[name] == saved[name].value
    ensures forall name :: name !in saved ==> (name in r <==> name in env)
    ensures forall name :: name !in saved && name in env ==> r[name] == env[name]
  {
    map name | name in env.Keys + saved.Keys && !(name in saved && saved[name] == None) ::
      if name in saved then saved[name].value else env[name]
  }

  /** Right after `__enter__`, `__exit__` cannot fail on a missing variable. */
  lemma CanRestoreAfterEnter(env: map<string, string>, overwrite: map<string, string>)
    ensures CanRestore(Overwritten(env, overwrite), SavedValues(env, overwrite))
  {
  }

  /** With nothing in between, `__exit__` after `__enter__` gives back the environment exactly. */
  lemma EnterExitRestoresEnv(env: map<string, string>, overwrite: map<string, string>)
    ensures Restored(Overwritten(env, overwrite), SavedValues(env, overwrite)) == env
  {
  }

  /**
    Variables that are not overwritten are untouched by `__enter__`, and by `__exit__` from
    whatever environment `now` it runs in; so across the `with` block they keep their values.
   */
  lemma OtherVariablesUntouched(env: map<string, string>, now: map<string, string>,
                                overwrite: map<string, string>, name: string)
    requires name !in overwrite
    ensures EnvGet(Overwritten(env, overwrite), name) == EnvGet(env, name)
    ensures EnvGet(Restored(now, SavedValues(env, overwrite)), name) == EnvGet(now, name)
    ensures EnvGet(Restored(Overwritten(env, overwrite), SavedValues(env, overwrite)), name) == EnvGet(env, name)
  {
  }

  /** One iteration of `__enter__`: one more variable saved and overwritten. */
  lemma EnterStep(env: map<string, string>, overwrite: map<string, string>, todo: set<string>, name: string)
    requires name in todo && todo <= overwrite.Keys
    ensures EnvGet(Overwritten(env, overwrite - todo), name) == EnvGet(env, name)
    ensures SavedValues(env, overwrite - todo)[name := EnvGet(env, name)]
         == SavedValues(env, overwrite - (todo - {name}))
    ensures Overwritten(env, overwrite - todo)[name := overwrite[name]]
         == Overwritten(env, overwrite - (todo - {name}))
  {
    var done, done' := overwrite - todo, overwrite - (todo - {name});
    assert done' == done[name := overwrite[name]];
    assert SavedValues(env, done)[name := EnvGet(env, name)] == SavedValues(env, done') by {
      var a, b := SavedValues(env, done)[name := EnvGet(env, name)], SavedValues(env, done');
      assert a.Keys == b.Keys;
    }
    assert Overwritten(env, done)[name := overwrite[name]] == Overwritten(env, done') by {
      var a, b := Overwritten(env, done)[name := overwrite[name]], Overwritten(env, done');
      assert a.Keys == b.Keys;
    }
  }

  /** One iteration of `__exit__`: one more saved variable restored, or the `KeyError`. */
  lemma ExitStep(env: map<string, string>, saved: map<string, Option<string>>, todo: set<string>, name: string)
    requires name in todo && todo <= saved.Keys
    requires CanRestore(env, saved - todo)
    ensures saved[name] == None && name !in Restored(env, saved - todo) ==> !CanRestore(env, saved)
    ensures saved[name] == None && name in Restored(env, saved - todo) ==>
      && CanRestore(env, saved - (todo - {name}))
      && Restored(env, saved - todo) - {name} == Restored(env, saved - (todo - {name}))
    ensures saved[name].Some? ==>
      && CanRestore(env, saved - (todo - {name}))
      && Restored(env, saved - todo)[name := saved[name].value] == Restored(env, saved - (todo - {name}))
  {
    var done, done' := saved - todo, saved - (todo - {name});
    assert done' == done[name := saved[name]];
    var before := Restored(env, done);
    assert name !in done;
    if saved[name] == None {
      if name in before {
        var a, b := before - {name}, Restored(env, done');
        assert a.Keys == b.Keys;
      }
    } else {
      var a, b := before[name := saved[name].value], Restored(env, done');
      assert a.Keys == b.Keys;
    }
  }

  // ---------------------------------------------------------------------
  // EnvAdder: the object
  // ---------------------------------------------------------------------

  class EnvAdder {
    /** The variables to overwrite, with their new values. */
    const overwriteEnv: map<string, string>
    /** The previous values, kept while the block is entered; `None` outside it. */
    var saved: Option<map<string, Option<string>>>

    constructor (overwriteEnv: map<string, string>)
      ensures this.overwriteEnv == overwriteEnv && saved == None
    {
      this.overwriteEnv := overwriteEnv;
      saved := None;
    }

    /** `__enter__`: save each variable's previous value, then overwrite it. */
    method Enter(os: OsState)
      requires saved == None
      modifies this`saved, os`env
      ensures saved == Some(SavedValues(old(os.env), overwriteEnv))
      ensures os.env == Overwritten(old(os.env), overwriteEnv)
    {
      saved := Some(map[]);
      var todo := overwriteEnv.Keys;
      while todo != {}
        invariant todo <= overwriteEnv.Keys
        invariant saved == Some(SavedValues(old(os.env), overwriteEnv - todo))
        invariant os.env == Overwritten(old(os.env), overwriteEnv - todo)
        decreases todo
      {
        var name :| name in todo;
        EnterStep(old(os.env), overwriteEnv, todo, name);
        saved := Some(saved.value[name := EnvGet(os.env, name)]);
        os.env := os.env[name := overwriteEnv[name]];
        todo := todo - {name};
      }
      assert overwriteEnv - todo == overwriteEnv;
    }

    /**
      `__exit__`: restore each saved variable, deleting those saved as absent.
      A variable saved as absent that is missing again makes `del` raise
      `KeyError`; the loop stops there, `saved` is left set, and the name is
      returned.
     */
    method Exit(os: OsState) returns (keyError: Option<string>)
      requires saved.Some?
      modifies this`saved, os`env
      ensures keyError == None <==> CanRestore(old(os.env), old(saved).value)
      ensures keyError == None ==> os.env == Restored(old(os.env), old(saved).value) && saved == None
      ensures keyError.Some? ==> saved == old(saved)
      ensures keyError.Some? ==> keyError.value in old(saved).value && old(saved).value[keyError.value] == None
      ensures forall name :: name !in old(saved).value ==> EnvGet(os.env, name) == EnvGet(old(os.env), name)
    {
      var values := saved.value;
      var todo := values.Keys;
      while todo != {}
        invariant todo <= values.Keys
        invariant saved == old(saved)
        invariant CanRestore(old(os.env), values - todo)
        invariant os.env == Restored(old(os.env), values - todo)
        decreases todo
      {
        var name :| name in todo;
        ExitStep(old(os.env), values, todo, name);
        if values[name] == None {
          if name !in os.env {
            keyError := Some(name);
            return;
          }
          os.env := os.env - {name};
        } else {
          os.env := os.env[name := values[name].value];
        }
        todo := todo - {name};
      }
      assert values - todo == values;
      keyError := None;
      saved := None;
    }
  }

  /**
    A `with EnvAdder(overwrite):` block whose body leaves the environment
    alone: afterwards the environment is exactly what it was and the object
    can be entered again. (Inside the block, `Enter`'s contract says every
    overwritten variable has its new value.)
   */
  method EnvAdderRoundTrip(adder: EnvAdder, os: OsState)
    requires adder.saved == None
    modifies adder`saved, os`env
    ensures os.env == old(os.env)
    ensures adder.saved == None
  {
    adder.Enter(os);
    CanRestoreAfterEnter(old(os.env), adder.overwriteEnv);
    EnterExitRestoresEnv(old(os.env), adder.overwriteEnv);
    var _ := adder.Exit(os);
  }
}
