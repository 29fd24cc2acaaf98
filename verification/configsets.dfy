/**
 The config set (`reticuleConfigSet`) and the three in-memory mutations the
 `config create|update|delete reticule` commands apply between loading and
 saving it.
 */
module ConfigSets {
  import opened Wrappers
  import opened ProfileData

  /**
   The whole persisted state. `configs` is `None` when the map is nil, which is
   what a fresh or empty file decodes to; an allocated but empty map is
   `Some(map[])`, and the two behave differently in Create.
   */
  datatype ConfigSet = ConfigSet(current: string, configs: Option<map<string, Profile>>)

  /** The zero value a missing file starts from: no current name, nil map. */
  const Empty: ConfigSet := ConfigSet("", None)

  /** The refusals of the commands. */
  datatype Error =
    | NoHomeDirectory
    | ConfigFileMissing(path: string)
    | ProfileExists(name: string)
    | ProfileMissing(name: string)

  /** The profiles of a set; reading a nil map sees no entries. */
  function Profiles(cs: ConfigSet): map<string, Profile>
  {
    if cs.configs.Some? then cs.configs.value else map[]
  }

  /** The profile names present in a set. */
  function Names(cs: ConfigSet): set<string>
  {
    Profiles(cs).Keys
  }

  /** Looks a name up the way a Go map index with `ok` does. */
  function Lookup(cs: ConfigSet, name: string): Option<Profile>
  {
    if name in Profiles(cs) then Some(Profiles(cs)[name]) else None
  }

  /**
   Stores a profile under `name`, allocating the map when it is nil. A nil map
   means no profile existed yet, so the new one becomes current; `use` makes it
   current in any case.
   */
  function Store(cs: ConfigSet, name: string, p: Profile, use: bool): (r: ConfigSet)
    ensures r.configs.Some?
    ensures Names(r) == Names(cs) + {name}
    ensures Lookup(r, name) == Some(p)
    ensures forall k :: k != name ==> Lookup(r, k) == Lookup(cs, k)
    ensures use ==> r.current == name
    ensures cs.configs.None? ==> r.current == name
    ensures !use && cs.configs.Some? ==> r.current == cs.current
  {
    var ready := if cs.configs.None? then ConfigSet(name, Some(map[])) else cs;
    var current := if use then name else ready.current;
    ConfigSet(current, Some(Profiles(ready)[name := p]))
  }

  /**
   Create: refuses a name that is already present and otherwise stores a
   profile built from the flags, without touching any other entry.
   */
  function Create(cs: ConfigSet, req: CreateRequest): (r: Result<ConfigSet, Error>)
    ensures r.Failure? <==> req.name in Names(cs)
    ensures r.Failure? ==> r.error == ProfileExists(req.name)
    ensures r.Success? ==> r.value.configs.Some?
    ensures r.Success? ==> Names(r.value) == Names(cs) + {req.name}
    ensures r.Success? ==> |Profiles(r.value)| == |Profiles(cs)| + 1
    ensures r.Success? ==> Lookup(r.value, req.name) == Some(NewProfile(req))
    ensures r.Success? ==> forall k :: k != req.name ==> Lookup(r.value, k) == Lookup(cs, k)
    ensures r.Success? && (req.use || cs.configs.None?) ==> r.value.current == req.name
    ensures r.Success? && !req.use && cs.configs.Some? ==> r.value.current == cs.current
  {
    if req.name in Names(cs) then
      Failure(ProfileExists(req.name))
    else
      Success(Store(cs, req.name, NewProfile(req), req.use))
  }

  /** The key an update writes back: the new name when renaming, else the old one. */
  function Target(req: UpdateRequest): string
  {
    if req.rename != "" then req.rename else req.name
  }

  /**
   Update: refuses a name that is absent; otherwise patches the profile's
   supplied fields, moves it to the rename target (overwriting whatever was
   stored there) and makes it current when `use` is set.
   */
  function Update(cs: ConfigSet, req: UpdateRequest): (r: Result<ConfigSet, Error>)
    ensures r.Failure? <==> req.name !in Names(cs)
    ensures r.Failure? ==> r.error == ProfileMissing(req.name)
    ensures r.Success? ==> r.value.configs.Some?
    ensures r.Success? ==> Names(r.value) == Names(cs) - {req.name} + {Target(req)}
    ensures r.Success? ==> Lookup(r.value, Target(req)) == Some(ApplyPatch(Profiles(cs)[req.name], req))
    ensures r.Success? && Target(req) != req.name ==> Lookup(r.value, req.name).None?
    ensures r.Success? ==> forall k :: k != req.name && k != Target(req) ==> Lookup(r.value, k) == Lookup(cs, k)
    ensures r.Success? && req.use ==> r.value.current == Target(req)
    ensures r.Success? && !req.use ==> r.value.current == cs.current
  {
    if req.name !in Names(cs) then
      Failure(ProfileMissing(req.name))
    else
      var cfg := ApplyPatch(Profiles(cs)[req.name], req);
      var remaining := if req.rename != "" then Profiles(cs) - {req.name} else Profiles(cs);
      var name := if req.rename != "" then req.rename else req.name;
      var current := if req.use then name else cs.current;
      Success(ConfigSet(current, Some(remaining[name := cfg])))
  }

  /**
   Delete: removes one key (nothing when it is absent or the map is nil) and
   never touches `current`, even when it named the deleted profile.
   */
  function Delete(cs: ConfigSet, name: string): (r: ConfigSet)
    ensures r.current == cs.current
    ensures r.configs.Some? <==> cs.configs.Some?
    ensures Names(r) == Names(cs) - {name}
    ensures Lookup(r, name).None?
    ensures forall k :: k != name ==> Lookup(r, k) == Lookup(cs, k)
  {
    match cs.configs
    case None => cs
    case Some(m) => ConfigSet(cs.current, Some(m - {name}))
  }
}
