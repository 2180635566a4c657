# Script supervisor core, modelled in Dafny

The dashboard (`app.py`) finds Python scripts under `/scripts`, starts each
one as a child process in the shared virtual environment `/venv`, streams
the child's output to the browser, and appends it to `/logs/<name>.log`.
This project models the logic under the web glue:

- **Launch** (`launch.dfy`): the environment, working directory and argument
  vector `ScriptProcess.start` hands to `Popen`.
- **Process** (`process.dfy`): the `ScriptProcess` handle. Its `start`,
  `stop` and `_read_output` are first defined as transitions on a
  `HandleState` value (`StartStep`, `StopStep`, `PumpRun`). Then a class
  `ScriptProcess` with the same fields is proved to perform exactly those
  transitions. The log is the sequence of entries the handle appends to its
  log file. The markers carry no timestamps.
- **Registry** (`registry.dfy`): the `running_scripts` table as a class over
  a `map<string, ScriptProcess>`, with the `start_script`, `stop_script` and
  `list_scripts` routes as its methods.
- **Discovery** (`discovery.dfy`): `discover_scripts` as a method with the
  source's two nested loops, proved equal to a recursive definition.
  Soundness and completeness lemmas say that exactly the `.py` files are
  listed.
- **Paths** and **Common**: `os.path.basename`, `os.path.join`,
  `str.endswith`, and the three directory constants.

The operating system is an input. Whether `Popen` succeeds is a
`SpawnOutcome` parameter. Each `readline()` followed by `poll()` in the
reader is an `Observation`. The calls the handle makes (spawning the child
and its reader thread, `terminate()`, `socketio.emit`) are recorded in order
in its `effects` field.

Script names are not unique. A nested script is named after the basename of
its directory, so `/scripts/a/tools/run.py` and `/scripts/b/tools/run.py`
are both listed as `tools/run.py` (`ListingCollision`). The registry is
keyed by that name, and a reused handle keeps the path it was created with
(`StartScript`). So whichever of two colliding scripts is started first fixes
the path: a later start of the other one runs that first path again once the
handle has stopped, and does nothing while it is still running.

Some behaviour a process supervisor is often expected to have is absent
from `app.py`. The model follows the code:
- The process reference is never cleared. It stays set after `stop` and
  after the child exits.
- A partial last line is not flushed separately.
- A failing log write is not recovered.
- There is no locking.
- The handle's state is the boolean `is_running`. "Never started" and
  "stopped" differ only in whether `process` is set.

## Model

| member | source | states |
|---|---|---|
| `Paths.Basename` | app.py:94 | The result is the longest slash-free suffix of the path: it contains no '/', and it is the whole path or is preceded by '/'. |
| `Paths.EndsWith` | app.py:84 | `s` ends with `suffix` exactly when `s` is some text followed by `suffix`. |
| `Paths.Join` | app.py:86 | An absolute second component replaces the first. Otherwise the result starts with the first component and ends with the second. |
| `Paths.JoinPlain` | app.py:52 | A relative component joined onto a directory not ending in '/' gets exactly one '/' between them. |
| `Paths.BasenameUnique` | app.py:94 | Whatever follows the last '/' of a path is its basename. |
| `Paths.BasenameOfJoin` | app.py:86 | A file name joined onto any directory is the basename of the joined path. |
| `Paths.JoinInjective` | app.py:86 | For a relative file name, joining onto two directories gives equal paths only when the directories are equal. |
| `Launch.WorkDir` | app.py:34-46 | The directory is never empty. It is the folder when the folder is set and non-empty; otherwise it is `/scripts`. |
| `Launch.ChildEnv` | app.py:33-36 | The child's environment exists only when the service's own has `PATH`; otherwise the `KeyError` is the result. It has `PATH` = `/venv/bin:` + old `PATH`, `VIRTUAL_ENV` = `/venv`, `PYTHONPATH` = the truthy folder or `/scripts`, and every other variable unchanged. |
| `Launch.ChildRequest` | app.py:33-47 | argv is `/venv/bin/python` and the script path. The working directory equals `PYTHONPATH`, which is the folder when it is neither `None` nor empty, else `/scripts`. The request fails exactly when `PATH` is unset. |
| `Discovery.Describe` | app.py:84-99 | A record is listed as not running, its path is the file joined onto its directory, it carries the directory's `requirements.txt` flag, and any folder it has is its directory. For a well-formed walk entry (relative path "." exactly for `/scripts`), it has a folder exactly when its directory is not `/scripts`. For a slash-free file name, the path's basename is the file. A top-level script is named by the basename of its path. A nested one is named by the basename of its folder, then '/', then the basename of its path. |
| `Discovery.Discover` | app.py:80-100 | The nested loops build exactly the recursive listing `Discovered` of the walk. |
| `Discovery.DiscoveredSound` | app.py:82-84 | Every listed script is the record of some `.py` file of some walked directory. |
| `Discovery.DiscoveredComplete` | app.py:82-84 | Every `.py` file of every walked directory is listed. |
| `Discovery.NestedNamesCollide` | app.py:94 | Two distinct nested directories with the same basename give files of the same name equal script names but different paths and folders. |
| `Discovery.ListingCollision` | app.py:82-99 | The same collision, shown in the list discovery returns. |
| `Process.LogFile` | app.py:52 | A relative script name's log is `/logs/<name>.log`. An absolute name escapes `/logs`. |
| `Process.NestedLogInSubdirectory` | app.py:52 | A nested script named `dir/file` logs to `file.log` inside the sub-directory `/logs/dir`, not directly in `/logs`. |
| `Process.StartStep` | app.py:31-53 | On a running handle, start changes nothing and succeeds. Otherwise it succeeds exactly when `PATH` is set and `Popen` returns. Then the handle is running on the new process, its log gains exactly one start marker, and one spawn is recorded. A failing `Popen` yields `SpawnFailed` carrying the reason it raised. On failure nothing changes. |
| `Process.StopStep` | app.py:71-76 | Afterwards the handle is not running. A handle that was not running is unchanged. A running one gets one `terminate()` for its process and one stop marker after its existing log. Its process reference is kept, and stop does not wait for exit. |
| `Process.PumpStep` | app.py:57-69 | One reader iteration keeps the process. Afterwards the handle is running exactly when it was and the observation did not report an exit. An empty line changes nothing else. A non-empty line is appended to the log, the queue and the broadcast effects. |
| `Process.PumpRun` | app.py:55-69 | The reader never sets the handle running, keeps its process, and keeps "running implies a process". |
| `Process.PumpRunAppendOnly` | app.py:57-65 | Across any run of the reader, the old log, queue and effects are prefixes of the new ones. |
| `Process.Delivered` | app.py:57-58 | The lines a reader delivers are all non-empty, and there are at most as many as observations. |
| `Process.PumpStepAppends` | app.py:57-65 | When later iterations append some lines after one iteration, the log, the queue and the broadcast altogether gain this iteration's line (if non-empty) followed by those lines. |
| `Process.PumpRunDelivers` | app.py:56-65 | On a running handle, the log, queue and broadcast each gain exactly the delivered lines, in the same order. |
| `Process.PumpRunStopsOnExit` | app.py:56-69 | The handle is still running after the reader exactly when no observation reported the process as exited. |
| `Process.PumpRunStopsAtExit` | app.py:67-69 | Once an observation reports an exit, the reader stops: later observations have no effect. |
| `Process.PumpRunIdle` | app.py:56 | A reader on a handle that is not running changes nothing. |
| `Process.StartIdempotent` | app.py:31-32 | A second start after a successful one, with no stop in between, changes nothing: no second process, no second marker. |
| `Process.StartThenStop` | app.py:31-76 | Start followed at once by stop logs a start marker then a stop marker. It records one spawn then one terminate of the same process, and leaves the handle not running. |
| `Process.HelloWorldRun` | app.py:31-69 | On the schedule where `poll()` first reports the exit after end of stream, a script that prints "hello" and "world" leaves the log as start marker, "hello", "world". The handle is no longer running, without any stop. |
| `Process.HelloWorldEarlyExit` | app.py:56-69 | On the schedule where `poll()` already reports the exit after "hello" is read, the log gains exactly start marker, "hello": "world" is never logged, and the handle is no longer running. |
| `Process.ScriptProcess.constructor` | app.py:23-29 | A new handle keeps its name, path and folder, is not running, has no process and has appended nothing. |
| `Process.ScriptProcess.Start` | app.py:31-53 | Performs exactly `StartStep` on the handle's fields and keeps "running implies a process". |
| `Process.ScriptProcess.ReadOutput` | app.py:55-69 | The `while self.is_running` loop performs exactly `PumpRun` on the handle's fields. |
| `Process.ScriptProcess.Stop` | app.py:71-76 | Performs exactly `StopStep` on the handle's fields. |
| `Registry.RunningScripts.constructor` | app.py:78 | The table starts empty. |
| `Registry.RunningScripts.StartScript` | app.py:115-126 | The keys become the old keys plus the name, and every existing entry keeps its handle. A new handle is created only for an absent name, with the request's path and folder. The named handle then undergoes `StartStep`. Every other handle is unchanged. After a successful start, the name is reported as running. |
| `Registry.RunningScripts.StopScript` | app.py:128-133 | The table is unchanged. A known name's handle undergoes `StopStep` and is then not running. Every other handle, and all of them when the name is unknown, is unchanged. |
| `Registry.RunningScripts.ListScripts` | app.py:106-113 | The listing is discovery's list with `running` set to the registry's flag when the name has a handle, and false otherwise. |

## Left out

- `subprocess.Popen`, `terminate`, `readline` and `poll` are not executed. Their results are inputs (`SpawnOutcome`, `Observation`), and the calls are recorded in `effects`.
- Process.ScriptProcess.ReadOutput: covers a finite run of the reader. When the observations run out, the real reader would block on `readline`, so the model stops there with the handle still running.
- The daemon thread, and every interleaving of `stop` or `start` with a running reader, are not modelled. One case is not captured: a reader from a previous run that is still blocked when `start` is called again will then read from the new process.
- `socketio.emit` is recorded only as an `Emitted` effect. Delivery to clients is not modelled.
- Log files are not modelled as files. A handle's `log` holds what it appended during the service's life. Earlier content of the file, and timestamps from `datetime.now()`, are absent. A failing `open` or `write` is not modelled; in the source it would raise after the handle was already marked running.
- `os.walk`, `os.path.relpath` and `os.path.exists` are inputs. Each walked directory comes with its relative path, its files and whether `requirements.txt` exists.
- The pip routes (`list_packages`, `install_package`, `uninstall_package`, `install_requirements`) wrap an external tool and are not modelled.
- `get_logs`, the Flask routing, `jsonify`, `render_template`, and server start-up are not modelled.
- Process.ScriptProcess.Start: the source starts the reader thread (app.py:50) before it writes the start marker (app.py:52-53). The model appends the marker first, so an output line the source could log before the marker always follows it in the model.
- Lost output: output still unread in the pipe when `poll()` first reports the exit is never logged or broadcast (see `HelloWorldEarlyExit`), because the reader breaks out of its loop at that point (app.py:67-69). The model shows this loss but does not decide which schedule the operating system picks.
- Nested names: a nested script's log lies in `/logs/<dir>/` (`NestedLogInSubdirectory`), but only `/logs` is created at start-up (app.py:219). Unless that sub-directory exists, the `open` at app.py:52 raises after `is_running` is already set, and each write at app.py:64 raises and ends the reader while the handle stays running. This failure path is not modelled; the model treats every log write as succeeding.
- Each `Observation` line stands for one line of the child's merged stdout and stderr text stream (`stdout=PIPE`, `stderr=STDOUT`, `text=True`, app.py:40-44). The line buffering (`bufsize=1`) and text decoding are not modelled.
- The routes take the request's fields as parameters. A missing `script` or `path` key in the request JSON is not modelled.
- `output_queue` is modelled as a sequence that only grows. Nothing in the source consumes it.
