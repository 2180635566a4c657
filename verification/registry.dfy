/** The process-wide `running_scripts` table and the three routes that use
    it: `start_script`, `stop_script` and `list_scripts` (app.py:78,
    app.py:106-133). Request parsing and the JSON replies are not modelled:
    each route takes the fields it reads from the request as parameters. */
module Registry {
  import opened Common
  import opened Launch
  import opened Discovery
  import opened Process

  /** `running_scripts`: script name to its handle. Entries are added and
      never removed. */
  class RunningScripts {
    var handles: map<string, ScriptProcess>

    /** Each handle is filed under its own name, so distinct names hold
        distinct handles. */
    ghost predicate Valid()
      reads this, handles.Values
    {
      forall n | n in handles :: handles[n].name == n && handles[n].Valid()
    }

    constructor ()
      ensures Valid() && handles == map[]
    {
      handles := map[];
    }

    /** The `running` value `list_scripts` reports for a name: the handle's
        flag, or false when no handle exists. */
    function IsRunning(name: string): (b: bool)
      reads this, handles.Values
      ensures b ==> name in handles
    {
      name in handles && handles[name].isRunning
    }

    /** `start_script`: create a handle only when the name is new, then
        start whichever handle the name maps to. A reused handle keeps the
        path and folder it was created with. Nothing else changes. */
    method StartScript(name: string, path: string, folder: Option<string>, osEnv: map<string, string>, spawn: SpawnOutcome)
      returns (outcome: Outcome<LaunchError>)
      requires Valid()
      modifies this, handles.Values
      ensures Valid()
      ensures handles.Keys == old(handles.Keys) + {name}
      ensures forall n | n in old(handles) :: handles[n] == old(handles[n])
      ensures name !in old(handles) ==>
        fresh(handles[name]) && handles[name].scriptPath == path && handles[name].folder == folder
      ensures (handles[name].State(), outcome) ==
        StartStep(if name in old(handles) then old(handles[name].State()) else Initial,
                  handles[name].scriptPath, handles[name].folder, osEnv, spawn)
      ensures forall n | n in old(handles) && n != name :: handles[n].State() == old(handles[n].State())
      ensures outcome.Pass? ==> IsRunning(name)
    {
      if name !in handles {
        var h := new ScriptProcess(name, path, folder);
        handles := handles[name := h];
      }
      outcome := handles[name].Start(osEnv, spawn);
    }

    /** `stop_script`: stop the named handle if there is one. An unknown
        name changes nothing; the table itself never changes. */
    method StopScript(name: string)
      requires Valid()
      modifies handles.Values
      ensures Valid()
      ensures handles == old(handles)
      ensures name in handles ==> handles[name].State() == StopStep(old(handles[name].State()))
      ensures name in handles ==> !IsRunning(name)
      ensures forall n | n in handles && n != name :: handles[n].State() == old(handles[n].State())
    {
      if name in handles {
        handles[name].Stop();
      }
    }

    /** `list_scripts`: discovery's list with each `running` overwritten by
        the registry's flag when the name has a handle. */
    method ListScripts(walk: seq<WalkEntry>) returns (scripts: seq<Script>)
      ensures |scripts| == |Discovered(walk)|
      ensures forall k | 0 <= k < |scripts| ::
        scripts[k] == Discovered(walk)[k].(running := IsRunning(Discovered(walk)[k].name))
    {
      scripts := Discover(walk);
      ghost var found := scripts;
      for i := 0 to |scripts|
        invariant |scripts| == |found|
        invariant forall k | 0 <= k < i :: scripts[k] == found[k].(running := IsRunning(found[k].name))
        invariant forall k | i <= k < |scripts| :: scripts[k] == found[k]
      {
        var scriptName := scripts[i].name;
        if scriptName in handles {
          scripts := scripts[i := scripts[i].(running := handles[scriptName].isRunning)];
        }
      }
    }
  }
}
