/** How `ScriptProcess.start` configures the child it spawns: the argument
    vector, the working directory and the environment (app.py:33-47). */
module Launch {
  import opened Common

  /** `VENV_DIR/bin`, prepended to the child's search path. */
  const VenvBin: string := VenvDir + "/bin"

  /** The interpreter every script is run with. */
  const Interpreter: string := VenvBin + "/python"

  /** What is handed to `subprocess.Popen`: argv, `cwd=` and `env=`. */
  datatype SpawnRequest = SpawnRequest(argv: seq<string>, cwd: string, env: map<string, string>)

  /** Why `start` raised: the service's own environment has no `PATH`
      (the `KeyError` of `env['PATH']`), or `Popen` itself failed. */
  datatype LaunchError = PathUnset | SpawnFailed(reason: string)

  /** The folder when it is truthy (neither `None` nor empty), else
      `SCRIPTS_DIR`. Used both as working directory and as `PYTHONPATH`. */
  function WorkDir(folder: Option<string>): (dir: string)
    ensures dir != []
    ensures dir == ScriptsDir || folder == Some(dir)
    ensures folder.Some? && folder.value != "" ==> dir == folder.value
  {
    if folder.Some? && folder.value != "" then folder.value else ScriptsDir
  }

  /** The child's environment: a copy of the service's environment with
      `PYTHONPATH`, `PATH` and `VIRTUAL_ENV` overridden. */
  function ChildEnv(osEnv: map<string, string>, folder: Option<string>): (r: Result<map<string, string>, LaunchError>)
    ensures r.Ok? <==> "PATH" in osEnv
    ensures r.Err? ==> r.error == PathUnset
    ensures r.Ok? ==> r.value.Keys == osEnv.Keys + {"PYTHONPATH", "VIRTUAL_ENV"}
    ensures r.Ok? ==> r.value["PATH"] == VenvBin + ":" + osEnv["PATH"]
    ensures r.Ok? ==> r.value["VIRTUAL_ENV"] == VenvDir
    ensures r.Ok? ==> r.value["PYTHONPATH"] == WorkDir(folder)
    ensures r.Ok? ==> forall k | k in osEnv && k != "PATH" && k != "PYTHONPATH" && k != "VIRTUAL_ENV" :: r.value[k] == osEnv[k]
  {
    if "PATH" !in osEnv then Err(PathUnset)
    else
      var env := osEnv["PYTHONPATH" := WorkDir(folder)];
      Ok(env["PATH" := VenvBin + ":" + osEnv["PATH"]]["VIRTUAL_ENV" := VenvDir])
  }

  /** The complete `Popen` request for running `scriptPath`. The child's
      working directory and its module search path are always the same
      directory. */
  function ChildRequest(scriptPath: string, folder: Option<string>, osEnv: map<string, string>): (r: Result<SpawnRequest, LaunchError>)
    ensures r.Ok? <==> "PATH" in osEnv
    ensures r.Err? ==> r.error == PathUnset
    ensures r.Ok? ==> r.value.argv == [Interpreter, scriptPath]
    ensures r.Ok? ==> ChildEnv(osEnv, folder) == Ok(r.value.env)
    ensures r.Ok? ==> "PYTHONPATH" in r.value.env && r.value.env["PYTHONPATH"] == r.value.cwd
    ensures r.Ok? ==> r.value.cwd == (if folder.Some? && folder.value != "" then folder.value else ScriptsDir)
  {
    match ChildEnv(osEnv, folder)
    case Err(e) => Err(e)
    case Ok(env) => Ok(SpawnRequest([Interpreter, scriptPath], WorkDir(folder), env))
  }
}
