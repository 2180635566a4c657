/** Shared vocabulary of the dashboard: optional values, error-carrying
    results, and the three directories fixed at the top of app.py. */
module Common {

  /** Python's `None` or a value. */
  datatype Option<+T> = None | Some(value: T)

  /** A value, or the exception that was raised instead. */
  datatype Result<+T, +E> = Ok(value: T) | Err(error: E)

  /** A call that returns nothing, or the exception it raised. */
  datatype Outcome<+E> = Pass | Fail(error: E)

  /** Directory that is walked for scripts and the default working directory. */
  const ScriptsDir: string := "/scripts"

  /** Directory holding one `<name>.log` file per script name. */
  const LogsDir: string := "/logs"

  /** The shared virtual environment every script runs in. */
  const VenvDir: string := "/venv"
}
