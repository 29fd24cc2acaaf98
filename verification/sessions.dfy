/**
 A sequence of independent command invocations against the same config file.
 Each one loads, mutates and saves; a refused command leaves the file as it
 was and the next one runs on it. Each command is taken to load exactly the
 set the previous one saved, which the file does not guarantee after a create
 on an existing file.
 */
module Sessions {
  import opened Wrappers
  import opened ProfileData
  import opened ConfigSets
  import opened Commands

  /** One invocation of `config create|update|delete reticule`. */
  datatype Command =
    | CreateCmd(create: CreateRequest)
    | UpdateCmd(update: UpdateRequest)
    | DeleteCmd(name: string)

  /** Runs one command. */
  function Run(home: Option<string>, file: Option<ConfigSet>, cmd: Command): Outcome
  {
    match cmd
    case CreateCmd(req) => RunCreate(home, file, req)
    case UpdateCmd(req) => RunUpdate(home, file, req)
    case DeleteCmd(name) => RunDelete(home, file, name)
  }

  /** The file after running the commands in order. */
  function Replay(home: Option<string>, file: Option<ConfigSet>, cmds: seq<Command>): Option<ConfigSet>
    decreases |cmds|
  {
    if cmds == [] then file else Replay(home, Run(home, file, cmds[0]).file, cmds[1..])
  }

  /** The profile names a command can write, remove or make current. */
  function Footprint(cmd: Command): set<string>
  {
    match cmd
    case CreateCmd(req) => {req.name}
    case UpdateCmd(req) => {req.name, Target(req)}
    case DeleteCmd(name) => {name}
  }

  /** The names all commands of a sequence can touch. */
  function Footprints(cmds: seq<Command>): set<string>
    decreases |cmds|
  {
    if cmds == [] then {} else Footprint(cmds[0]) + Footprints(cmds[1..])
  }

  /** The profile a file holds under a name; a missing file holds none. */
  function Stored(file: Option<ConfigSet>, name: string): Option<Profile>
  {
    if file.None? then None else Lookup(file.value, name)
  }

  /** The current name a file records; a missing file records the empty name. */
  function CurrentOf(file: Option<ConfigSet>): string
  {
    if file.None? then "" else file.value.current
  }

  /** One command leaves every profile outside its footprint as it was. */
  lemma RunPreservesOthers(home: Option<string>, file: Option<ConfigSet>, cmd: Command, k: string)
    requires k !in Footprint(cmd)
    ensures Stored(Run(home, file, cmd).file, k) == Stored(file, k)
  {
  }

  /** One command either keeps the current name or sets it to a name in its footprint. */
  lemma RunCurrentFromFootprint(home: Option<string>, file: Option<ConfigSet>, cmd: Command)
    ensures CurrentOf(Run(home, file, cmd).file) in {CurrentOf(file)} + Footprint(cmd)
  {
  }

  /** No sequence of commands changes a profile none of them names. */
  lemma {:induction false} ReplayPreservesOthers(home: Option<string>, file: Option<ConfigSet>, cmds: seq<Command>, k: string)
    requires k !in Footprints(cmds)
    ensures Stored(Replay(home, file, cmds), k) == Stored(file, k)
    decreases |cmds|
  {
    if cmds != [] {
      var next := Run(home, file, cmds[0]).file;
      RunPreservesOthers(home, file, cmds[0], k);
      ReplayPreservesOthers(home, next, cmds[1..], k);
    }
  }

  /** After any sequence of commands, `current` is the initial one or a name some command named. */
  lemma {:induction false} ReplayCurrentFromFootprints(home: Option<string>, file: Option<ConfigSet>, cmds: seq<Command>)
    ensures CurrentOf(Replay(home, file, cmds)) in {CurrentOf(file)} + Footprints(cmds)
    decreases |cmds|
  {
    if cmds != [] {
      var next := Run(home, file, cmds[0]).file;
      RunCurrentFromFootprint(home, file, cmds[0]);
      ReplayCurrentFromFootprints(home, next, cmds[1..]);
    }
  }

  /** A session of deletes never changes the current name. */
  lemma {:induction false} DeletesKeepCurrent(home: Option<string>, file: Option<ConfigSet>, cmds: seq<Command>)
    requires forall i :: 0 <= i < |cmds| ==> cmds[i].DeleteCmd?
    ensures CurrentOf(Replay(home, file, cmds)) == CurrentOf(file)
    decreases |cmds|
  {
    if cmds != [] {
      var next := Run(home, file, cmds[0]).file;
      assert CurrentOf(next) == CurrentOf(file);
      DeletesKeepCurrent(home, next, cmds[1..]);
    }
  }
}
