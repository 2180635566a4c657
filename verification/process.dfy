/** `ScriptProcess` (app.py:22-76): one supervised script. Its lifecycle is
    a small state machine over the `is_running` flag and the process
    reference, and every transition appends to the script's log.

    The operating system and the broadcast channel are outside the model:
    whether `Popen` succeeds is an input (SpawnOutcome), each
    `readline()`/`poll()` pair of the reader is an input (Observation), and
    the calls made to them (`Popen`, `terminate`, `socketio.emit`) are
    recorded in the handle's `effects` trace. The transitions are first
    defined as functions on a HandleState value; the class's methods are
    proved to perform exactly those transitions. */
module Process {
  import opened Common
  import opened Paths
  import opened Launch

  /** The `Popen` object of a running child. */
  datatype Proc = Proc(pid: nat)

  /** One record of `LOGS_DIR/<name>.log`: the "Script started" and "Script
      stopped" markers (without their timestamps) and raw output lines. */
  datatype LogEntry = Started | Stopped | Output(line: string)

  /** Calls the handle makes outside the process: spawning the child together
      with its reader thread, `terminate()`, and `socketio.emit`. */
  datatype Effect =
    | Spawned(request: SpawnRequest, proc: Proc)
    | Terminated(proc: Proc)
    | Emitted(script: string, line: string)

  /** What `subprocess.Popen` does: return a process, or raise. */
  datatype SpawnOutcome = Launched(proc: Proc) | Raised(reason: string)

  /** One iteration of the reader: what `readline()` returned ("" at end of
      stream) and whether `poll()` then reported the process as exited. */
  datatype Observation = Observation(line: string, exited: bool)

  /** The mutable part of a ScriptProcess. */
  datatype HandleState = HandleState(
    isRunning: bool,
    process: Option<Proc>,
    log: seq<LogEntry>,
    queue: seq<string>,
    effects: seq<Effect>)
  {
    /** A running handle always has a process to terminate. */
    predicate Valid() {
      isRunning ==> process.Some?
    }
  }

  /** A handle as `__init__` leaves it. */
  const Initial: HandleState := HandleState(false, None, [], [], [])

  /** The file a handle's log entries are appended to. */
  function LogFile(name: string): (path: string)
    ensures name != [] && name[0] != '/' ==> path == LogsDir + "/" + name + ".log"
    ensures name != [] && name[0] == '/' ==> path == name + ".log"
  {
    Join(LogsDir, name + ".log")
  }

  /** The log of a nested script, named `dir/file`, is the file
      `file.log` inside the sub-directory `LOGS_DIR/dir`. Only `LOGS_DIR`
      itself is created at start-up, so unless that sub-directory exists,
      every append to this log fails. */
  lemma NestedLogInSubdirectory(dir: string, file: string)
    requires dir != [] && dir[0] != '/' && dir[|dir| - 1] != '/'
    requires file == [] || file[0] != '/'
    ensures LogFile(dir + "/" + file) == Join(Join(LogsDir, dir), file + ".log")
    ensures Join(LogsDir, dir) == LogsDir + "/" + dir
  {
    var sub := LogsDir + "/" + dir;
    var log := file + ".log";
    JoinPlain(LogsDir, dir);
    assert sub[|sub| - 1] == dir[|dir| - 1];
    assert log[0] != '/';
    JoinPlain(sub, log);
    assert (dir + "/" + file)[0] == dir[0];
    assert LogFile(dir + "/" + file) == LogsDir + "/" + (dir + "/" + file) + ".log";
    assert sub + "/" + log == LogsDir + "/" + (dir + "/" + file) + ".log";
  }

  /** `start()`: a running handle is left alone; otherwise the child is
      configured and spawned, and only a successful spawn changes anything. */
  function StartStep(s: HandleState, scriptPath: string, folder: Option<string>, osEnv: map<string, string>, spawn: SpawnOutcome)
    : (r: (HandleState, Outcome<LaunchError>))
    ensures s.isRunning ==> r == (s, Pass)
    ensures !s.isRunning ==> (r.1.Pass? <==> "PATH" in osEnv && spawn.Launched?)
    ensures r.1 == Fail(PathUnset) <==> !s.isRunning && "PATH" !in osEnv
    ensures !s.isRunning && "PATH" in osEnv && spawn.Raised? ==> r.1 == Fail(SpawnFailed(spawn.reason))
    ensures r.1.Fail? ==> r.0 == s
    ensures !s.isRunning && r.1.Pass? ==>
      && r.0.isRunning
      && r.0.process == Some(spawn.proc)
      && r.0.log == s.log + [Started]
      && r.0.queue == s.queue
      && r.0.effects == s.effects + [Spawned(ChildRequest(scriptPath, folder, osEnv).value, spawn.proc)]
  {
    if s.isRunning then (s, Pass)
    else
      match ChildRequest(scriptPath, folder, osEnv)
      case Err(e) => (s, Fail(e))
      case Ok(request) =>
        match spawn
        case Raised(reason) => (s, Fail(SpawnFailed(reason)))
        case Launched(p) =>
          (s.(isRunning := true, process := Some(p), log := s.log + [Started],
              effects := s.effects + [Spawned(request, p)]), Pass)
  }

  /** `stop()`: a handle that is not running is left alone; a running one
      has its process sent `terminate()` and is marked stopped at once,
      without waiting for the process to exit. */
  function StopStep(s: HandleState): (r: HandleState)
    requires s.Valid()
    ensures !r.isRunning && r.Valid()
    ensures !s.isRunning ==> r == s
    ensures s.isRunning ==>
      && r.process == s.process
      && r.log == s.log + [Stopped]
      && r.queue == s.queue
      && r.effects == s.effects + [Terminated(s.process.value)]
  {
    if s.isRunning then
      s.(isRunning := false, log := s.log + [Stopped], effects := s.effects + [Terminated(s.process.value)])
    else s
  }

  /** One iteration of the body of `_read_output`'s loop. */
  function PumpStep(s: HandleState, name: string, o: Observation): (r: HandleState)
    ensures r.isRunning <==> s.isRunning && !o.exited
    ensures r.process == s.process
    ensures o.line == "" ==> r.log == s.log && r.queue == s.queue && r.effects == s.effects
    ensures o.line != "" ==> r.log == s.log + [Output(o.line)]
    ensures o.line != "" ==> r.queue == s.queue + [o.line]
    ensures o.line != "" ==> r.effects == s.effects + [Emitted(name, o.line)]
  {
    var s' :=
      if o.line == "" then s
      else s.(queue := s.queue + [o.line],
              effects := s.effects + [Emitted(name, o.line)],
              log := s.log + [Output(o.line)]);
    if o.exited then s'.(isRunning := false) else s'
  }

  /** `_read_output` fed the observations `obs`: it iterates while the
      handle is running and observations remain (when they run out, the
      reader is blocked waiting for the child). The reader can only clear
      the running flag, never set it. */
  function PumpRun(s: HandleState, name: string, obs: seq<Observation>): (r: HandleState)
    ensures r.isRunning ==> s.isRunning
    ensures r.process == s.process
    ensures s.Valid() ==> r.Valid()
    decreases |obs|
  {
    if !s.isRunning || obs == [] then s
    else PumpRun(PumpStep(s, name, obs[0]), name, obs[1..])
  }

  /** The reader only appends: whatever the log, the queue and the effects
      held before it ran is still their prefix afterwards. */
  lemma {:induction false} PumpRunAppendOnly(s: HandleState, name: string, obs: seq<Observation>)
    ensures var r := PumpRun(s, name, obs);
      s.log <= r.log && s.queue <= r.queue && s.effects <= r.effects
    decreases |obs|
  {
    if s.isRunning && obs != [] {
      var s1 := PumpStep(s, name, obs[0]);
      PumpRunAppendOnly(s1, name, obs[1..]);
      assert s.log <= s1.log && s.queue <= s1.queue && s.effects <= s1.effects;
    }
  }

  /** Independent description of what a reader started on a running handle
      delivers: each non-empty line read, in order, up to and including the
      observation at which the process is seen to have exited. */
  function Delivered(obs: seq<Observation>): (lines: seq<string>)
    ensures |lines| <= |obs|
    ensures forall k | 0 <= k < |lines| :: lines[k] != ""
  {
    if obs == [] then []
    else LineOf(obs[0]) + (if obs[0].exited then [] else Delivered(obs[1..]))
  }

  /** The line an observation contributes: none at end of stream. */
  function LineOf(o: Observation): seq<string> {
    if o.line != "" then [o.line] else []
  }

  /** Some observation reports the process as exited. */
  predicate Exits(obs: seq<Observation>) {
    exists k | 0 <= k < |obs| :: obs[k].exited
  }

  /** The log entries of delivered lines, one `Output` per line, in order. */
  function AsLog(lines: seq<string>): seq<LogEntry> {
    if lines == [] then [] else [Output(lines[0])] + AsLog(lines[1..])
  }

  /** The `socketio.emit` effects of delivered lines, one per line, in order. */
  function AsBroadcast(name: string, lines: seq<string>): seq<Effect> {
    if lines == [] then [] else [Emitted(name, lines[0])] + AsBroadcast(name, lines[1..])
  }

  /** One reader iteration appends the line it read, if any, to the log,
      the queue and the broadcast alike, ahead of whatever later
      iterations append. */
  lemma PumpStepAppends(s: HandleState, name: string, o: Observation, later: seq<string>, r: HandleState)
    requires r.log == PumpStep(s, name, o).log + AsLog(later)
    requires r.queue == PumpStep(s, name, o).queue + later
    requires r.effects == PumpStep(s, name, o).effects + AsBroadcast(name, later)
    ensures r.log == s.log + AsLog(LineOf(o) + later)
    ensures r.queue == s.queue + (LineOf(o) + later)
    ensures r.effects == s.effects + AsBroadcast(name, LineOf(o) + later)
  {
    var s1 := PumpStep(s, name, o);
    if o.line != "" {
      var lines := [o.line] + later;
      assert lines[1..] == later;
      assert s1.log == s.log + [Output(o.line)];
      assert s1.queue == s.queue + [o.line];
      assert s1.effects == s.effects + [Emitted(name, o.line)];
      calc {
        s.log + AsLog(lines);
        s.log + ([Output(o.line)] + AsLog(later));
        (s.log + [Output(o.line)]) + AsLog(later);
      }
      calc {
        s.effects + AsBroadcast(name, lines);
        s.effects + ([Emitted(name, o.line)] + AsBroadcast(name, later));
        (s.effects + [Emitted(name, o.line)]) + AsBroadcast(name, later);
      }
    } else {
      assert LineOf(o) + later == later;
      assert s1.log == s.log && s1.queue == s.queue && s1.effects == s.effects;
    }
  }

  /** An observation that is not an exit does not change whether an exit
      is reported. */
  lemma ExitsTail(obs: seq<Observation>)
    requires obs != [] && !obs[0].exited
    ensures Exits(obs) <==> Exits(obs[1..])
  {
    if Exits(obs) {
      var k :| 0 <= k < |obs| && obs[k].exited;
      assert obs[1..][k - 1] == obs[k];
    }
  }

  /** What the reader does to a running handle: the log, the queue and the
      broadcast each gain exactly the delivered lines, in the same order. */
  lemma {:induction false} PumpRunDelivers(s: HandleState, name: string, obs: seq<Observation>)
    requires s.isRunning
    ensures var r := PumpRun(s, name, obs);
      && r.log == s.log + AsLog(Delivered(obs))
      && r.queue == s.queue + Delivered(obs)
      && r.effects == s.effects + AsBroadcast(name, Delivered(obs))
    decreases |obs|
  {
    if obs != [] {
      var o := obs[0];
      var s1 := PumpStep(s, name, o);
      if o.exited {
        assert PumpRun(s, name, obs) == s1;
        assert Delivered(obs) == LineOf(o) + [];
        PumpStepAppends(s, name, o, [], s1);
      } else {
        assert PumpRun(s, name, obs) == PumpRun(s1, name, obs[1..]);
        PumpRunDelivers(s1, name, obs[1..]);
        PumpStepAppends(s, name, o, Delivered(obs[1..]), PumpRun(s1, name, obs[1..]));
      }
    }
  }

  /** A reader started on a running handle leaves it running exactly when
      none of the observations reported the process as exited. */
  lemma {:induction false} PumpRunStopsOnExit(s: HandleState, name: string, obs: seq<Observation>)
    requires s.isRunning
    ensures PumpRun(s, name, obs).isRunning <==> !Exits(obs)
    decreases |obs|
  {
    if obs != [] {
      var s1 := PumpStep(s, name, obs[0]);
      if obs[0].exited {
        assert PumpRun(s, name, obs) == s1;
        assert Exits(obs) by { assert obs[0].exited; }
      } else {
        assert PumpRun(s, name, obs) == PumpRun(s1, name, obs[1..]);
        PumpRunStopsOnExit(s1, name, obs[1..]);
        ExitsTail(obs);
      }
    }
  }

  /** The reader never touches a handle that is not running. */
  lemma PumpRunIdle(s: HandleState, name: string, obs: seq<Observation>)
    requires !s.isRunning
    ensures PumpRun(s, name, obs) == s
  {
  }

  /** Calling `start` twice without a `stop` in between spawns exactly one
      process and writes exactly one start marker. */
  lemma StartIdempotent(s: HandleState, scriptPath: string, folder: Option<string>, osEnv: map<string, string>, spawn: SpawnOutcome,
                        osEnv2: map<string, string>, spawn2: SpawnOutcome)
    ensures var first := StartStep(s, scriptPath, folder, osEnv, spawn);
      first.1.Pass? ==> StartStep(first.0, scriptPath, folder, osEnv2, spawn2) == (first.0, Pass)
  {
  }

  /** Starting and immediately stopping a handle logs a start marker followed
      by a stop marker, with no output line needed in between, and leaves
      the handle not running although its process may still be alive. */
  lemma StartThenStop(s: HandleState, scriptPath: string, folder: Option<string>, osEnv: map<string, string>, p: Proc)
    requires s.Valid() && !s.isRunning && "PATH" in osEnv
    ensures var started := StartStep(s, scriptPath, folder, osEnv, Launched(p)).0;
      var stopped := StopStep(started);
      && stopped.log == s.log + [Started, Stopped]
      && !stopped.isRunning
      && stopped.process == Some(p)
      && stopped.effects[|s.effects|..] == [Spawned(ChildRequest(scriptPath, folder, osEnv).value, p), Terminated(p)]
  {
  }

  /** Observations after the first one that reports an exit are never
      consumed: the reader leaves its loop there, so any output still in
      the pipe is neither logged nor broadcast. */
  lemma {:induction false} PumpRunStopsAtExit(s: HandleState, name: string, obs: seq<Observation>, k: nat)
    requires k < |obs| && obs[k].exited
    ensures PumpRun(s, name, obs) == PumpRun(s, name, obs[..k + 1])
    decreases k
  {
    if s.isRunning {
      var s1 := PumpStep(s, name, obs[0]);
      assert obs[..k + 1][0] == obs[0];
      if k > 0 {
        assert obs[..k + 1][1..] == obs[1..][..k];
        PumpRunStopsAtExit(s1, name, obs[1..], k - 1);
      } else {
        assert !s1.isRunning;
      }
    }
  }

  /** A script that prints "hello" and "world" and exits, on the schedule
      where `poll()` first reports the exit after end of stream: its log
      holds the start marker and the two lines, and the handle becomes not
      running without any `stop`. */
  lemma HelloWorldRun(s: HandleState, name: string, scriptPath: string, folder: Option<string>, osEnv: map<string, string>, p: Proc)
    requires !s.isRunning && "PATH" in osEnv
    ensures var started := StartStep(s, scriptPath, folder, osEnv, Launched(p)).0;
      var done := PumpRun(started, name,
        [Observation("hello\n", false), Observation("world\n", false), Observation("", true)]);
      && done.log == s.log + [Started, Output("hello\n"), Output("world\n")]
      && !done.isRunning
  {
    var started := StartStep(s, scriptPath, folder, osEnv, Launched(p)).0;
    var obs := [Observation("hello\n", false), Observation("world\n", false), Observation("", true)];
    PumpRunDelivers(started, name, obs);
    PumpRunStopsOnExit(started, name, obs);
    assert obs[1..][1..][1..] == [];
    assert Delivered(obs) == ["hello\n", "world\n"];
    assert Exits(obs) by { assert obs[2].exited; }
  }

  /** The same script on the schedule where the child has already exited
      when "hello" is read: `poll()` reports the exit at once, the reader
      stops, and "world", still in the pipe, never reaches the log. */
  lemma HelloWorldEarlyExit(s: HandleState, name: string, scriptPath: string, folder: Option<string>, osEnv: map<string, string>, p: Proc)
    requires !s.isRunning && "PATH" in osEnv
    ensures var started := StartStep(s, scriptPath, folder, osEnv, Launched(p)).0;
      var done := PumpRun(started, name,
        [Observation("hello\n", true), Observation("world\n", false), Observation("", true)]);
      && done.log == s.log + [Started, Output("hello\n")]
      && !done.isRunning
  {
    var started := StartStep(s, scriptPath, folder, osEnv, Launched(p)).0;
    var obs := [Observation("hello\n", true), Observation("world\n", false), Observation("", true)];
    PumpRunStopsAtExit(started, name, obs, 0);
    var done := PumpRun(started, name, obs[..1]);
    assert done == PumpStep(started, name, obs[0]);
  }

  /** A supervised script (`ScriptProcess`). The log, the output queue and
      the effects trace are fields the methods extend. */
  class ScriptProcess {
    const name: string
    const scriptPath: string
    const folder: Option<string>
    var process: Option<Proc>
    var queue: seq<string>
    var isRunning: bool
    var log: seq<LogEntry>
    var effects: seq<Effect>

    function State(): HandleState
      reads this
    {
      HandleState(isRunning, process, log, queue, effects)
    }

    ghost predicate Valid()
      reads this
    {
      State().Valid()
    }

    constructor (name: string, scriptPath: string, folder: Option<string>)
      ensures this.name == name && this.scriptPath == scriptPath && this.folder == folder
      ensures State() == Initial && Valid()
    {
      this.name := name;
      this.scriptPath := scriptPath;
      this.folder := folder;
      process := None;
      queue := [];
      isRunning := false;
      log := [];
      effects := [];
    }

    /** `start()`. The exception `start` may raise is returned as `Fail`. */
    method Start(osEnv: map<string, string>, spawn: SpawnOutcome) returns (outcome: Outcome<LaunchError>)
      requires Valid()
      modifies this
      ensures Valid()
      ensures (State(), outcome) == StartStep(old(State()), scriptPath, folder, osEnv, spawn)
    {
      if !isRunning {
        var request := ChildRequest(scriptPath, folder, osEnv);
        if request.Err? {
          return Fail(request.error);
        }
        match spawn
        case Raised(reason) =>
          return Fail(SpawnFailed(reason));
        case Launched(p) =>
          process := Some(p);
          isRunning := true;
          effects := effects + [Spawned(request.value, p)];
          log := log + [Started];
      }
      return Pass;
    }

    /** `_read_output()`, run until the handle stops or the observations
        run out. */
    method ReadOutput(obs: seq<Observation>)
      requires Valid()
      modifies this
      ensures Valid()
      ensures State() == PumpRun(old(State()), name, obs)
    {
      var i := 0;
      while isRunning && i < |obs|
        invariant 0 <= i <= |obs|
        invariant Valid()
        invariant PumpRun(State(), name, obs[i..]) == PumpRun(old(State()), name, obs)
        decreases |obs| - i
      {
        var line := obs[i].line;
        if line != "" {
          queue := queue + [line];
          effects := effects + [Emitted(name, line)];
          log := log + [Output(line)];
        }
        if obs[i].exited {
          isRunning := false;
        }
        i := i + 1;
      }
    }

    /** `stop()`. */
    method Stop()
      requires Valid()
      modifies this
      ensures Valid()
      ensures State() == StopStep(old(State()))
    {
      if isRunning {
        effects := effects + [Terminated(process.value)];
        isRunning := false;
        log := log + [Stopped];
      }
    }
  }
}
