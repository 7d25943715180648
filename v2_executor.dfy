/**
 * The generic V2 strategy script run inside a bot container
 * (services/hummingbot-gateway/v2_generic_executor.py): it loads its controllers
 * from a YAML file, preferring the remote configuration the gateway writes, and
 * reloads them when that file's modification time moves forward, checking at most
 * once every 10 seconds of strategy time.
 *
 * The file system is a parameter of each step (`Disk`); a YAML document is a
 * `Json` value, and `None` stands for a file that could not be read or parsed.
 * A controller set is a value with a serial number, so that replacing it can be
 * told apart from keeping it.
 */
module V2Executor {
  import opened Wrappers
  import opened JsonValue

  const CheckInterval: real := 10.0
  const NotInitialized: string := "V2 Strategy not initialized."

  datatype ConfigFile = ConfigFile(mtime: real, content: Option<Json>)

  /** What `os.path.exists` and `open` find at the remote and at the local path. */
  datatype Disk = Disk(remote: Option<ConfigFile>, local: Option<ConfigFile>)

  /** A `V2WithControllers` object: which construction it was, the controller
      configs it was given, how many ticks it has seen, and whether it is stopped. */
  datatype Controllers = Controllers(serial: nat, configs: Json, ticks: nat, stopped: bool)

  /** The fields of the script, plus the controller sets it has stopped and dropped
      and the number of sets it has built. */
  datatype State = State(controllers: Option<Controllers>, lastConfigCheck: real, lastConfigMtime: real,
                         retired: seq<Controllers>, created: nat)

  /** `config.get("controllers", [])`; `None` when the document is not a mapping,
      where the call raises. */
  function ControllerConfigs(config: Json): (r: Option<Json>)
    ensures r.Some? <==> config.JObj?
    ensures config.JObj? && "controllers" !in config.fields ==> r == Some(JArr([]))
  {
    if !config.JObj? then None
    else if "controllers" in config.fields then Some(config.fields["controllers"])
    else Some(JArr([]))
  }

  /** The configs a file yields, when it can be read, parsed and is a mapping. */
  function Loaded(file: ConfigFile): Option<Json> {
    if file.content.None? then None else ControllerConfigs(file.content.value)
  }

  /** A new controller set built from `configs`. */
  function Build(s: State, configs: Json): (r: State)
    ensures r.controllers == Some(Controllers(s.created, configs, 0, false))
    ensures r.created == s.created + 1 && r.retired == s.retired
  {
    s.(controllers := Some(Controllers(s.created, configs, 0, false)), created := s.created + 1)
  }

  /** `initialize_v2`: the remote file wins when it exists, and its mtime is recorded
      even if loading it fails; with neither file nothing else happens. */
  function Initialize(s: State, disk: Disk): (r: State)
    ensures r.lastConfigMtime == if disk.remote.Some? then disk.remote.value.mtime else s.lastConfigMtime
    ensures r.lastConfigCheck == s.lastConfigCheck && r.retired == s.retired
    ensures var file := if disk.remote.Some? then disk.remote else disk.local;
      if file.Some? && Loaded(file.value).Some?
      then r.controllers == Some(Controllers(s.created, Loaded(file.value).value, 0, false)) && r.created == s.created + 1
      else r.controllers == s.controllers && r.created == s.created
  {
    var s1 := if disk.remote.Some? then s.(lastConfigMtime := disk.remote.value.mtime) else s;
    var file := if disk.remote.Some? then disk.remote else disk.local;
    if file.None? then s1
    else match Loaded(file.value)
      case None => s1
      case Some(configs) => Build(s1, configs)
  }

  /** `check_for_config_updates`. */
  function Check(s: State, disk: Disk): (r: State)
    ensures r.lastConfigCheck == s.lastConfigCheck
  {
    if disk.remote.None? || disk.remote.value.mtime <= s.lastConfigMtime then s
    else
      var file := disk.remote.value;
      var s1 := s.(lastConfigMtime := file.mtime);
      if file.content.None? then s1
      else if s.controllers.None? then Initialize(s1, disk)
      else
        var halted := s.controllers.value.(stopped := true);
        match ControllerConfigs(file.content.value)
        case None => s1.(controllers := Some(halted))
        case Some(configs) => Build(s1.(retired := s.retired + [halted]), configs)
  }

  /** `on_tick` at strategy time `now`. */
  function Tick(s: State, now: real, disk: Disk): (r: State)
    ensures r.lastConfigCheck == if now - s.lastConfigCheck > CheckInterval then now else s.lastConfigCheck
    ensures r.created >= s.created
  {
    var s1 := if now - s.lastConfigCheck > CheckInterval then Check(s.(lastConfigCheck := now), disk) else s;
    if s1.controllers.None? then s1
    else s1.(controllers := Some(s1.controllers.value.(ticks := s1.controllers.value.ticks + 1)))
  }

  /** `on_stop`. */
  function Halt(s: State): (r: State)
    ensures r.controllers.None? <==> s.controllers.None?
    ensures r.controllers.Some? ==> r.controllers.value.stopped
  {
    if s.controllers.None? then s else s.(controllers := Some(s.controllers.value.(stopped := true)))
  }

  /** The recorded mtime never moves back through a check. */
  lemma CheckMonotone(s: State, disk: Disk)
    ensures Check(s, disk).lastConfigMtime >= s.lastConfigMtime
  {
  }

  /** Nothing changes unless the remote file exists and is newer than the last one
      loaded; when it is, its mtime is recorded whatever happens next. */
  lemma ReloadOnlyWhenNewer(s: State, disk: Disk)
    ensures disk.remote.None? || disk.remote.value.mtime <= s.lastConfigMtime ==> Check(s, disk) == s
    ensures disk.remote.Some? && disk.remote.value.mtime > s.lastConfigMtime ==>
      Check(s, disk).lastConfigMtime == disk.remote.value.mtime
  {
  }

  /** A check right after a check, on the same files, does nothing. */
  lemma CheckIdempotent(s: State, disk: Disk)
    ensures Check(Check(s, disk), disk) == Check(s, disk)
  {
  }

  /** On a reload with controllers running, the old set is stopped before a new
      one is built from the remote file, and the old set is dropped. */
  lemma ReloadReplacesStopped(s: State, disk: Disk)
    requires disk.remote.Some? && disk.remote.value.mtime > s.lastConfigMtime
    requires s.controllers.Some? && Loaded(disk.remote.value).Some?
    ensures Check(s, disk).retired == s.retired + [s.controllers.value.(stopped := true)]
    ensures Check(s, disk).controllers == Some(Controllers(s.created, Loaded(disk.remote.value).value, 0, false))
  {
  }

  /** With no controllers yet, a reload builds them as `initialize_v2` does. */
  lemma ReloadInitializes(s: State, disk: Disk)
    requires disk.remote.Some? && disk.remote.value.mtime > s.lastConfigMtime
    requires s.controllers.None? && disk.remote.value.content.Some?
    ensures Check(s, disk) == Initialize(s.(lastConfigMtime := disk.remote.value.mtime), disk)
  {
  }

  /** Every dropped controller set was stopped first. */
  predicate RetiredStopped(s: State) {
    forall i :: 0 <= i < |s.retired| ==> s.retired[i].stopped
  }

  /** Ticks, checks and stops keep every dropped set stopped, and never move the
      recorded mtime back. */
  lemma TickKeepsInvariants(s: State, now: real, disk: Disk)
    requires RetiredStopped(s)
    ensures RetiredStopped(Check(s, disk)) && RetiredStopped(Tick(s, now, disk)) && RetiredStopped(Halt(s))
    ensures Tick(s, now, disk).lastConfigMtime >= s.lastConfigMtime
  {
    CheckMonotone(s.(lastConfigCheck := now), disk);
  }

  /** The throttle: a check happens exactly when more than 10 seconds have passed
      since the last one, and then the time of this tick is recorded; controllers
      present after the check see one more tick. */
  lemma TickThrottles(s: State, now: real, disk: Disk)
    ensures now - s.lastConfigCheck > CheckInterval ==> Tick(s, now, disk).lastConfigCheck == now
    ensures now - s.lastConfigCheck <= CheckInterval ==>
      Tick(s, now, disk).lastConfigCheck == s.lastConfigCheck
      && Tick(s, now, disk).lastConfigMtime == s.lastConfigMtime
      && Tick(s, now, disk).retired == s.retired
      && (s.controllers.Some? <==> Tick(s, now, disk).controllers.Some?)
      && (s.controllers.Some? ==> Tick(s, now, disk).controllers.value.ticks == s.controllers.value.ticks + 1)
  {
  }

  /** `format_status`: the controllers' own report, or the fallback text; `render`
      stands for `to_format_status`. */
  function FormatStatus(s: State, render: Controllers -> string): (r: string)
    ensures s.controllers.None? ==> r == NotInitialized
    ensures s.controllers.Some? ==> r == render(s.controllers.value)
  {
    if s.controllers.Some? then render(s.controllers.value) else NotInitialized
  }

  class Executor {
    var controllers: Option<Controllers>
    var lastConfigCheck: real
    var lastConfigMtime: real
    var retired: seq<Controllers>
    var created: nat

    function Snapshot(): State
      reads this
    {
      State(controllers, lastConfigCheck, lastConfigMtime, retired, created)
    }

    /** `__init__`: both clocks at 0, no controllers, then `initialize_v2`. */
    constructor(disk: Disk)
      ensures Snapshot() == Initialize(State(None, 0.0, 0.0, [], 0), disk)
    {
      controllers := None;
      lastConfigCheck := 0.0;
      lastConfigMtime := 0.0;
      retired := [];
      created := 0;
      new;
      InitializeV2(disk);
    }

    /** Builds a controller set from `configs`, dropping no other. */
    method NewControllers(configs: Json)
      modifies this
      ensures Snapshot() == Build(old(Snapshot()), configs)
    {
      controllers := Some(Controllers(created, configs, 0, false));
      created := created + 1;
    }

    method InitializeV2(disk: Disk)
      modifies this
      ensures Snapshot() == Initialize(old(Snapshot()), disk)
    {
      var configToLoad := disk.local;
      if disk.remote.Some? {
        configToLoad := disk.remote;
        lastConfigMtime := disk.remote.value.mtime;
      }
      if configToLoad.None? {
        return;
      }
      var config := configToLoad.value.content;
      if config.None? {
        return;
      }
      var configs := ControllerConfigs(config.value);
      if configs.None? {
        return;
      }
      NewControllers(configs.value);
    }

    method CheckForConfigUpdates(disk: Disk)
      modifies this
      ensures Snapshot() == Check(old(Snapshot()), disk)
    {
      if disk.remote.None? {
        return;
      }
      var mtime := disk.remote.value.mtime;
      if mtime > lastConfigMtime {
        lastConfigMtime := mtime;
        var config := disk.remote.value.content;
        if config.None? {
          return;
        }
        if controllers.Some? {
          var halted := controllers.value.(stopped := true);
          controllers := Some(halted);
          var configs := ControllerConfigs(config.value);
          if configs.None? {
            return;
          }
          retired := retired + [halted];
          NewControllers(configs.value);
        } else {
          InitializeV2(disk);
        }
      }
    }

    method OnTick(now: real, disk: Disk)
      modifies this
      ensures Snapshot() == Tick(old(Snapshot()), now, disk)
    {
      if now - lastConfigCheck > CheckInterval {
        lastConfigCheck := now;
        CheckForConfigUpdates(disk);
      }
      if controllers.Some? {
        controllers := Some(controllers.value.(ticks := controllers.value.ticks + 1));
      }
    }

    method OnStop()
      modifies this
      ensures Snapshot() == Halt(old(Snapshot()))
    {
      if controllers.Some? {
        controllers := Some(controllers.value.(stopped := true));
      }
    }
  }
}
