/**
 The three commands as "load, mutate, save" over the config file. The file is
 `None` when it does not exist and otherwise holds the decoded config set.
 Saving replaces it with the whole new set, as the truncating write of update
 and delete does; for create on an existing file, which encodes after the old
 content without truncating, it stands for the in-memory result only.
 */
module Commands {
  import opened Wrappers
  import opened ProfileData
  import opened ConfigSets

  /** The file after a command, and the error it reported, if any. */
  datatype Outcome = Outcome(file: Option<ConfigSet>, err: Option<Error>)

  /** The config directory and file name under the home directory. */
  const Suffix: string := "/.reticule/reticule"

  /** Drops the slashes at the end of a path. */
  function TrimTrailingSlashes(s: string): (r: string)
    ensures |r| <= |s| && r == s[..|r|]
    ensures forall i :: |r| <= i < |s| ==> s[i] == '/'
    ensures r == "" || r[|r| - 1] != '/'
  {
    if s != "" && s[|s| - 1] == '/' then TrimTrailingSlashes(s[..|s| - 1]) else s
  }

  /**
   The config file path: `.reticule/reticule` joined under the home directory,
   or an error when no home directory is defined.
   */
  function ConfigPath(home: Option<string>): (r: Result<string, Error>)
    ensures home.None? <==> r.Failure?
    ensures r.Failure? ==> r.error == NoHomeDirectory
    ensures home == Some("") ==> r == Success(".reticule/reticule")
    ensures home.Some? && home.value != "" ==>
      && r.Success?
      && |r.value| >= |Suffix|
      && r.value[|r.value| - |Suffix|..] == Suffix
      && var dir := r.value[..|r.value| - |Suffix|];
         && (dir == "" || dir[|dir| - 1] != '/')
         && |dir| <= |home.value| && dir == home.value[..|dir|]
         && forall i :: |dir| <= i < |home.value| ==> home.value[i] == '/'
  {
    match home
    case None => Failure(NoHomeDirectory)
    case Some(h) =>
      if h == "" then Success(".reticule/reticule")
      else Success(TrimTrailingSlashes(h) + Suffix)
  }

  /** Reads the config set, refusing when the file does not exist. */
  function Load(path: string, file: Option<ConfigSet>): (r: Result<ConfigSet, Error>)
    ensures file.None? <==> r.Failure?
    ensures r.Failure? ==> r.error == ConfigFileMissing(path)
    ensures r.Success? ==> Some(r.value) == file
  {
    match file
    case None => Failure(ConfigFileMissing(path))
    case Some(cs) => Success(cs)
  }

  /** Turns a mutation's result into a command outcome: save on success, keep the file on refusal. */
  function Save(file: Option<ConfigSet>, r: Result<ConfigSet, Error>): (o: Outcome)
    ensures r.Success? ==> o == Outcome(Some(r.value), None)
    ensures r.Failure? ==> o == Outcome(file, Some(r.error))
  {
    match r
    case Success(cs) => Outcome(Some(cs), None)
    case Failure(e) => Outcome(file, Some(e))
  }

  /**
   `config create reticule`: a missing file is created and starts from the empty
   set, with no conflict check; an existing file is decoded and Create refuses
   a name it already holds.
   */
  function RunCreate(home: Option<string>, file: Option<ConfigSet>, req: CreateRequest): (o: Outcome)
    ensures o.err.None? <==> home.Some? && (file.None? || req.name !in Names(file.value))
    ensures o.err.Some? ==> o.file == file
    ensures home.None? ==> o.err == Some(NoHomeDirectory)
    ensures home.Some? && file.Some? && req.name in Names(file.value) ==> o.err == Some(ProfileExists(req.name))
    ensures o.err.None? ==> o.file.Some? && Lookup(o.file.value, req.name) == Some(NewProfile(req))
    ensures o.err.None? && file.None? ==> o.file.value.current == req.name && Names(o.file.value) == {req.name}
    ensures o.err.None? && file.Some? ==> o.file == Some(Create(file.value, req).value)
  {
    match ConfigPath(home)
    case Failure(e) => Outcome(file, Some(e))
    case Success(_) =>
      match file
      case None => Save(file, Success(Store(Empty, req.name, NewProfile(req), req.use)))
      case Some(cs) => Save(file, Create(cs, req))
  }

  /** `config update reticule`: needs the file and the named profile. */
  function RunUpdate(home: Option<string>, file: Option<ConfigSet>, req: UpdateRequest): (o: Outcome)
    ensures o.err.None? <==> home.Some? && file.Some? && req.name in Names(file.value)
    ensures o.err.Some? ==> o.file == file
    ensures home.None? ==> o.err == Some(NoHomeDirectory)
    ensures home.Some? && file.None? ==> o.err == Some(ConfigFileMissing(ConfigPath(home).value))
    ensures home.Some? && file.Some? && req.name !in Names(file.value) ==> o.err == Some(ProfileMissing(req.name))
    ensures o.err.None? ==> o.file.Some? && Lookup(o.file.value, Target(req)).Some?
    ensures o.err.None? ==> o.file == Some(Update(file.value, req).value)
  {
    match ConfigPath(home)
    case Failure(e) => Outcome(file, Some(e))
    case Success(path) =>
      match Load(path, file)
      case Failure(e) => Outcome(file, Some(e))
      case Success(cs) => Save(file, Update(cs, req))
  }

  /** `config delete reticule`: needs the file; an absent name is not an error. */
  function RunDelete(home: Option<string>, file: Option<ConfigSet>, name: string): (o: Outcome)
    ensures o.err.None? <==> home.Some? && file.Some?
    ensures o.err.Some? ==> o.file == file
    ensures home.None? ==> o.err == Some(NoHomeDirectory)
    ensures home.Some? && file.None? ==> o.err == Some(ConfigFileMissing(ConfigPath(home).value))
    ensures o.err.None? ==> o.file.Some? && o.file.value.current == file.value.current
    ensures o.err.None? ==> Names(o.file.value) == Names(file.value) - {name}
    ensures o.err.None? ==> o.file == Some(Delete(file.value, name))
  {
    match ConfigPath(home)
    case Failure(e) => Outcome(file, Some(e))
    case Success(path) =>
      match Load(path, file)
      case Failure(e) => Outcome(file, Some(e))
      case Success(cs) => Save(file, Success(Delete(cs, name)))
  }
}
