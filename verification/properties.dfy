/**
 Properties relating the mutations to each other: the sparse patch, inverses,
 idempotence, when `current` stays valid, and three example runs.
 */
module Properties {
  import opened Wrappers
  import opened ProfileData
  import opened ConfigSets
  import opened Commands

  /** An update request that supplies no field, no rename and no `use`. */
  function NoChange(name: string): UpdateRequest
  {
    UpdateRequest(name, None, None, "", "", "", "", false, 0, "", "")
  }

  /** `current` names a profile that exists. */
  predicate CurrentValid(cs: ConfigSet)
  {
    cs.current in Names(cs)
  }

  /**
   The patch is sparse: only supplied fields can change, and each supplied
   field takes exactly the supplied value.
   */
  lemma PatchTouchesOnlySupplied(p: Profile, req: UpdateRequest)
    ensures Differs(p, ApplyPatch(p, req)) <= Touched(req)
    ensures forall f: Field :: f in Touched(req) ==> Get(ApplyPatch(p, req), f) == Supplied(req, f).value
    ensures forall f: Field :: f !in Touched(req) ==> Get(ApplyPatch(p, req), f) == Get(p, f)
  {
  }

  /** A patch supplying only a key changes `Auth.Key` and nothing else. */
  lemma KeyOnlyPatch(p: Profile, name: string, key: string)
    requires key != ""
    ensures ApplyPatch(p, NoChange(name).(key := key)) == p.(auth := p.auth.(key := key))
    ensures Touched(NoChange(name).(key := key)) == {Key}
  {
  }

  /** Applying the same patch twice is the same as applying it once. */
  lemma PatchIdempotent(p: Profile, req: UpdateRequest)
    ensures ApplyPatch(ApplyPatch(p, req), req) == ApplyPatch(p, req)
  {
  }

  /** An update that supplies nothing leaves the config set exactly as it was. */
  lemma NoChangeIsIdentity(cs: ConfigSet, name: string)
    requires name in Names(cs)
    ensures Update(cs, NoChange(name)) == Success(cs)
  {
    var p := Profiles(cs)[name];
    var q := ApplyPatch(p, NoChange(name));
    forall f: Field ensures Get(q, f) == Get(p, f) {
      assert Get(q, f) == Patched(p, NoChange(name), f);
    }
    FieldsDetermineProfile(q, p);
    assert Profiles(cs)[name := q] == Profiles(cs);
  }

  /** Without a rename, repeating an update changes nothing further. */
  lemma UpdateIdempotent(cs: ConfigSet, req: UpdateRequest)
    requires req.name in Names(cs)
    requires req.rename == ""
    ensures Update(Update(cs, req).value, req) == Update(cs, req)
  {
    var once := Update(cs, req).value;
    var p := ApplyPatch(Profiles(cs)[req.name], req);
    assert Profiles(once) == Profiles(cs)[req.name := p];
    PatchIdempotent(Profiles(cs)[req.name], req);
    assert Profiles(once)[req.name := ApplyPatch(p, req)] == Profiles(once);
  }

  /** Renaming to a free name and back restores the config set. */
  lemma RenameRoundTrip(cs: ConfigSet, a: string, b: string)
    requires a in Names(cs) && b !in Names(cs)
    requires a != "" && b != ""
    ensures Update(cs, NoChange(a).(rename := b)).Success?
    ensures Update(Update(cs, NoChange(a).(rename := b)).value, NoChange(b).(rename := a)) == Success(cs)
  {
    var there := NoChange(a).(rename := b);
    var back := NoChange(b).(rename := a);
    var p := Profiles(cs)[a];
    NoChangeIsIdentity(cs, a);
    assert ApplyPatch(p, there) == ApplyPatch(p, NoChange(a));
    var mid := Update(cs, there).value;
    assert Profiles(mid) == (Profiles(cs) - {a})[b := p];
    assert ApplyPatch(p, back) == ApplyPatch(p, NoChange(a));
    var end := Update(mid, back).value;
    assert Profiles(end) == (Profiles(mid) - {b})[a := p];
    assert Profiles(end) == Profiles(cs);
  }

  /**
   Deleting what Create just added restores the set, when the map already
   existed and the new profile was not made current.
   */
  lemma CreateThenDelete(cs: ConfigSet, req: CreateRequest)
    requires cs.configs.Some? && req.name !in Names(cs)
    requires !req.use
    ensures Create(cs, req).Success?
    ensures Delete(Create(cs, req).value, req.name) == cs
  {
    var after := Delete(Create(cs, req).value, req.name);
    assert Profiles(after) == Profiles(cs)[req.name := NewProfile(req)] - {req.name};
    assert Profiles(after) == Profiles(cs);
  }

  /** Deleting twice is the same as deleting once. */
  lemma DeleteIdempotent(cs: ConfigSet, name: string)
    ensures Delete(Delete(cs, name), name) == Delete(cs, name)
  {
    if cs.configs.Some? {
      assert cs.configs.value - {name} - {name} == cs.configs.value - {name};
    }
  }

  /** Deleting an absent name leaves the set unchanged. */
  lemma DeleteAbsentIsNoOp(cs: ConfigSet, name: string)
    requires name !in Names(cs)
    ensures Delete(cs, name) == cs
  {
    if cs.configs.Some? {
      assert cs.configs.value - {name} == cs.configs.value;
    }
  }

  /** A missing file and a file holding the empty set give the same create outcome. */
  lemma CreateBranchesAgree(home: Option<string>, req: CreateRequest)
    ensures RunCreate(home, None, req).file == RunCreate(home, Some(Empty), req).file || home.None?
    ensures RunCreate(home, None, req).err == RunCreate(home, Some(Empty), req).err
  {
  }

  /** Create keeps a valid `current` valid. */
  lemma CreatePreservesCurrentValid(cs: ConfigSet, req: CreateRequest)
    requires CurrentValid(cs) && req.name !in Names(cs)
    ensures CurrentValid(Create(cs, req).value)
  {
  }

  /** Creating the first profile makes `current` valid, whatever it was. */
  lemma FirstCreateMakesCurrentValid(cs: ConfigSet, req: CreateRequest)
    requires cs.configs.None?
    ensures Create(cs, req).Success?
    ensures Create(cs, req).value.current == req.name
    ensures CurrentValid(Create(cs, req).value)
  {
  }

  /** An allocated but empty map does not trigger the first-profile rule. */
  lemma EmptyMapKeepsCurrent(current: string, req: CreateRequest)
    requires !req.use && current != req.name
    ensures Create(ConfigSet(current, Some(map[])), req).Success?
    ensures Create(ConfigSet(current, Some(map[])), req).value.current == current
    ensures !CurrentValid(Create(ConfigSet(current, Some(map[])), req).value)
  {
  }

  /** An update that does not rename, or that sets `use`, keeps `current` valid. */
  lemma UpdatePreservesCurrentValid(cs: ConfigSet, req: UpdateRequest)
    requires CurrentValid(cs) && req.name in Names(cs)
    requires req.rename == "" || req.use
    ensures CurrentValid(Update(cs, req).value)
  {
  }

  /** Renaming the current profile without `use` leaves `current` dangling. */
  lemma RenameCurrentWithoutUseDangles(cs: ConfigSet, req: UpdateRequest)
    requires cs.current == req.name && req.name in Names(cs)
    requires req.rename != "" && req.rename != req.name && !req.use
    ensures !CurrentValid(Update(cs, req).value)
  {
  }

  /** Deleting the current profile leaves `current` dangling. */
  lemma DeleteCurrentDangles(cs: ConfigSet)
    ensures !CurrentValid(Delete(cs, cs.current))
  {
  }

  /** Renaming onto an existing name overwrites it: the set shrinks by one. */
  lemma RenameCollisionOverwrites(cs: ConfigSet, req: UpdateRequest)
    requires req.name in Names(cs) && req.rename in Names(cs)
    requires req.rename != "" && req.rename != req.name
    ensures Lookup(Update(cs, req).value, req.rename) == Some(ApplyPatch(Profiles(cs)[req.name], req))
    ensures |Names(Update(cs, req).value)| == |Names(cs)| - 1
  {
  }

  /** A profile request with only a name and a key, as the example runs use. */
  function Request(name: string, key: string, use: bool): CreateRequest
  {
    CreateRequest(name, "https://api-public.sandbox.pro.coinbase.com",
      "wss://ws-feed-public.sandbox.pro.coinbase.com", key, "", "", use, 80, "127.0.0.1", "default")
  }

  /** No file yet: creating `alice` writes a set whose current profile is `alice`. */
  lemma ScenarioFirstCreate(home: string)
    ensures RunCreate(Some(home), None, Request("alice", "K1", false)).err.None?
    ensures RunCreate(Some(home), None, Request("alice", "K1", false)).file
      == Some(ConfigSet("alice", Some(map["alice" := NewProfile(Request("alice", "K1", false))])))
  {
  }

  /** Renaming `bob` to `carol` with `use` moves bob's profile and makes it current. */
  lemma ScenarioRenameWithUse(alice: Profile, bob: Profile)
    ensures
      var cs := ConfigSet("alice", Some(map["alice" := alice, "bob" := bob]));
      Update(cs, NoChange("bob").(rename := "carol", use := true))
        == Success(ConfigSet("carol", Some(map["alice" := alice, "carol" := bob])))
  {
    var cs := ConfigSet("alice", Some(map["alice" := alice, "bob" := bob]));
    NoChangeIsIdentity(cs, "bob");
    assert ApplyPatch(bob, NoChange("bob").(rename := "carol", use := true)) == ApplyPatch(bob, NoChange("bob"));
    assert map["alice" := alice, "bob" := bob] - {"bob"} == map["alice" := alice];
  }

  /** Deleting the current profile `alice` leaves `current` naming it. */
  lemma ScenarioDeleteCurrent(alice: Profile)
    ensures Delete(ConfigSet("alice", Some(map["alice" := alice])), "alice") == ConfigSet("alice", Some(map[]))
  {
    assert map["alice" := alice] - {"alice"} == map[];
  }
}
