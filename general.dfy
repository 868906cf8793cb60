/**
 * src/podflix/utils/general.py: checking that environment variables are set and
 * that a module can be imported.  The environment and the importable modules are
 * parameters.
 */
module GeneralUtils {
  import opened Wrappers

  const EnvVarMessagePrefix := "Please set "
  const EnvVarMessageSuffix := " env var."

  /** The `ValueError` message for a variable that is not set. */
  function MissingEnvVarMessage(name: string): string {
    EnvVarMessagePrefix + name + EnvVarMessageSuffix
  }

  /** The first variable, in list order, that is not set. */
  function FirstUnset(env: map<string, string>, vars: seq<string>): Option<string>
    decreases |vars|
  {
    if vars == [] then None
    else if vars[0] !in env then Some(vars[0])
    else FirstUnset(env, vars[1..])
  }

  /** `check_env_vars`: nothing to check for `None`, otherwise the first unset variable raises. */
  function CheckEnvVars(env: map<string, string>, envVars: Option<seq<string>>): Result<(), string> {
    if envVars.None? then Success(())
    else
      match FirstUnset(env, envVars.value)
      case Some(name) => Failure(MissingEnvVarMessage(name))
      case None => Success(())
  }

  /**
   * The first unset variable is unset and every variable before it is set; there
   * is none exactly when all are set, whatever their values, the empty string
   * included.
   */
  lemma {:induction false} FirstUnsetIff(env: map<string, string>, vars: seq<string>)
    ensures FirstUnset(env, vars).None? <==> forall k :: 0 <= k < |vars| ==> vars[k] in env
    ensures FirstUnset(env, vars).Some? ==>
      exists k :: 0 <= k < |vars| && vars[k] == FirstUnset(env, vars).value && vars[k] !in env
        && (forall j :: 0 <= j < k ==> vars[j] in env)
    decreases |vars|
  {
    if vars != [] && vars[0] in env {
      var tail := vars[1..];
      FirstUnsetIff(env, tail);
      assert forall k :: 0 < k < |vars| ==> vars[k] == tail[k - 1];
      if FirstUnset(env, tail).Some? {
        var k :| 0 <= k < |tail| && tail[k] == FirstUnset(env, tail).value && tail[k] !in env
          && (forall j :: 0 <= j < k ==> tail[j] in env);
        assert vars[k + 1] == tail[k];
      }
    }
  }

  /**
   * `check_env_vars` succeeds for `None` and exactly when every listed variable is
   * set; otherwise its message names the first unset one.
   */
  lemma CheckEnvVarsIff(env: map<string, string>, envVars: Option<seq<string>>)
    ensures envVars.None? ==> CheckEnvVars(env, envVars).Success?
    ensures envVars.Some? ==>
      (CheckEnvVars(env, envVars).Success? <==> forall k :: 0 <= k < |envVars.value| ==> envVars.value[k] in env)
    ensures CheckEnvVars(env, envVars).Failure? ==>
      exists k :: 0 <= k < |envVars.value| && envVars.value[k] !in env
        && CheckEnvVars(env, envVars).error == MissingEnvVarMessage(envVars.value[k])
        && (forall j :: 0 <= j < k ==> envVars.value[j] in env)
  {
    if envVars.Some? {
      FirstUnsetIff(env, envVars.value);
    }
  }

  /** The `ImportError` message for a module that is not installed. */
  function NotInstalledMessage(name: string): string {
    "Module " + name + " is not installed."
  }

  /** `is_module_installed`: whether the module imports, raising instead of `False` when asked to. */
  function IsModuleInstalled(installed: set<string>, moduleName: string, throwError: bool): (r: Result<bool, string>)
    ensures moduleName in installed ==> r == Success(true)
    ensures moduleName !in installed && !throwError ==> r == Success(false)
    ensures moduleName !in installed && throwError ==> r == Failure(NotInstalledMessage(moduleName))
  {
    if moduleName in installed then Success(true)
    else if throwError then Failure(NotInstalledMessage(moduleName))
    else Success(false)
  }

  /** The result never disagrees with the installed modules, whichever mode is used. */
  lemma IsModuleInstalledAgrees(installed: set<string>, moduleName: string, throwError: bool)
    ensures IsModuleInstalled(installed, moduleName, throwError).Success? ==>
      (IsModuleInstalled(installed, moduleName, throwError).value <==> moduleName in installed)
    ensures IsModuleInstalled(installed, moduleName, throwError).Failure? <==> moduleName !in installed && throwError
  {
  }
}
