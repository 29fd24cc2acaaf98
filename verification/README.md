# reticule config profiles — a Dafny model

The reticule command-line client keeps named connection/credential profiles
for the Coinbase Pro API in one file, `~/.reticule/reticule`, together with the
name of the profile currently in use. Three commands change that file:
`config create reticule`, `config update reticule` and
`config delete reticule`. Each one resolves the config path, loads the whole
config set, applies one mutation in memory and encodes the new set into the
file. Update and delete truncate the file first, so it then holds just the new
set; create on an existing file does not (see below).

This project models that state machine as pure functions:

- `wrappers.dfy` — `Option` and `Result`.
- `profiles.dfy` (module `ProfileData`) — `Auth`, `Profile`
  (`reticuleConfig`), the create flags, the update flags and the sparse field
  patch. `Get`/`Field` view a profile as eight named fields, so per-field
  properties can be stated once.
- `configsets.dfy` (module `ConfigSets`) — `ConfigSet`
  (`reticuleConfigSet`, with the map as `Option<map<…>>` so that a nil map and
  an allocated empty map stay distinct), and the mutations `Create`, `Update`,
  `Delete`.
- `commands.dfy` (module `Commands`) — the config path and the three `Run`
  commands. The file is `None` when it does not exist and otherwise holds the
  decoded set. Loading is the identity on an existing file. Saving is modelled
  as replacing the file with the new set, which is what update and delete do;
  for create on an existing file it is the in-memory result only (see
  "## Left out"). A refused command leaves the file as it was.
- `properties.dfy` (module `Properties`) — lemmas relating the operations:
  the patch's sparseness, inverses (create/delete, rename/rename back),
  idempotence, when `current` stays valid, and three example runs.
- `sessions.dfy` (module `Sessions`) — a sequence of invocations against one
  file, with inductive proofs that unrelated profiles survive any session and
  that `current` only ever moves to a name some command mentioned. Each
  command is taken to load exactly the set the previous one saved (see
  `Sessions.Replay` under "## Left out").

Behaviour kept as written, including the quirks:

- A create against an existing name is refused. A create against a nil map,
  whether from a missing file or a file that decodes to no map, makes the new
  profile current even without `--use`. An allocated empty map does not.
- Update applies a field only when it is supplied. Supplied means a non-nil
  URL, a non-empty string or a non-zero port. A rename deletes the old key and
  silently overwrites any profile already stored under the new name. `--use`
  makes the renamed profile current. Renaming the current profile without
  `--use` leaves `current` dangling (`Properties.RenameCurrentWithoutUseDangles`).
- Delete of an absent name is a no-op, and delete never touches `current`,
  even when it names the deleted profile.
- `createReticuleConfigCmd.Run` does not truncate an existing file before
  encoding (config.go:67, 84, 115-116), unlike `writeConfigSet` (config.go:233),
  which update and delete use. The model follows the code
  for the in-memory set and leaves the on-disk layout out (see below).

## Model

| member | source | states |
|---|---|---|
| ProfileData.FieldsDetermineProfile | internal/app/commands/config.go:39-46 | a profile is determined by its eight leaf fields (base URL, feed URL, key, passphrase, secret, bind address, port, shared secret) |
| ProfileData.NewProfile | internal/app/commands/config.go:96-106 | the profile Create builds takes every field from the corresponding create flag |
| ProfileData.ApplyPatch | internal/app/commands/config.go:167-197 | after an update every field equals the supplied value when its flag was given (non-nil URL, non-empty string, non-zero port) and its old value otherwise |
| ConfigSets.Store | internal/app/commands/config.go:107-114 | storing adds exactly the new name and keeps every other entry; a nil map is allocated and its new profile becomes current; `use` makes it current; otherwise `current` is kept |
| ConfigSets.Create | internal/app/commands/config.go:92-114 | create is refused exactly when the name is present, with the "already exists" error; on success the key set grows by exactly that name, the count by one, the new entry is the flag-built profile, others are unchanged, and `current` follows the nil-map and `use` rules |
| ConfigSets.Update | internal/app/commands/config.go:163-198 | update is refused exactly when the name is absent; on success the keys are the old keys minus the name plus the target, the target holds the patched profile, the old key is gone after a real rename, other keys are unchanged, and `current` becomes the target only with `use` |
| ConfigSets.Delete | internal/app/commands/config.go:136 | delete removes exactly the given key (none when the map is nil), keeps every other entry and never changes `current` |
| Commands.TrimTrailingSlashes | internal/app/commands/config.go:207 | the trailing-slash part of joining under the home directory: the result is a prefix of the input, everything dropped is a slash, and the result does not end in a slash |
| Commands.ConfigPath | internal/app/commands/config.go:202-208 | the path is refused exactly when no home directory is defined; otherwise it is the home directory, without trailing slashes, followed by `/.reticule/reticule` (or the relative `.reticule/reticule` for an empty home) |
| Commands.Load | internal/app/commands/config.go:210-230 | loading fails exactly when the file does not exist, with the "does not exist" error naming the path, and otherwise yields the stored set |
| Commands.Save | internal/app/commands/config.go:232-244 | a successful mutation replaces the file with the whole new set; a refusal leaves the file and reports the error |
| Commands.RunCreate | internal/app/commands/config.go:61-121 | create succeeds exactly when a home directory exists and the file is missing or lacks the name; a refusal leaves the file unchanged; on success the file holds the new profile; a first create on a missing file yields a set holding only that profile and naming it current; on an existing file the saved set is exactly `Create`'s result, so the `use`/nil-map rules for `current` and the preservation of other entries carry over |
| Commands.RunUpdate | internal/app/commands/config.go:154-200 | update succeeds exactly when the home directory, the file and the named profile all exist, with the matching error for each missing one; a refusal leaves the file unchanged; on success the saved set is exactly `Update`'s result: the patched profile under the target, the old key gone after a rename, other keys kept, `current` moved only with `use` |
| Commands.RunDelete | internal/app/commands/config.go:127-138 | delete succeeds exactly when the home directory and the file exist; a refusal leaves the file unchanged; on success the saved set is exactly `Delete`'s result: the names lose exactly the deleted one, other entries and `current` are kept |
| Properties.PatchTouchesOnlySupplied | internal/app/commands/config.go:167-197 | the set of fields where the patched profile differs from the old one is contained in the set of supplied fields; supplied fields take the supplied value and all others keep theirs |
| Properties.KeyOnlyPatch | internal/app/commands/config.go:173-175 | a patch supplying only `--key` changes `Auth.Key` and nothing else |
| Properties.PatchIdempotent | internal/app/commands/config.go:167-197 | applying the same patch twice equals applying it once |
| Properties.NoChangeIsIdentity | internal/app/commands/config.go:163-198 | an update of an existing profile with no flags returns the set unchanged |
| Properties.UpdateIdempotent | internal/app/commands/config.go:163-198 | without a rename, repeating an update yields the same set |
| Properties.RenameRoundTrip | internal/app/commands/config.go:182-188 | renaming a profile to a free name and back restores the original set |
| Properties.CreateThenDelete | internal/app/commands/config.go:92-136 | with an existing map and no `use`, deleting the name Create just added restores the original set |
| Properties.DeleteIdempotent | internal/app/commands/config.go:136 | deleting a name twice equals deleting it once |
| Properties.DeleteAbsentIsNoOp | internal/app/commands/config.go:136 | deleting an absent name leaves the set unchanged |
| Properties.CreateBranchesAgree | internal/app/commands/config.go:66-95 | creating against a missing file has the same outcome as creating against a file that holds the empty set |
| Properties.CreatePreservesCurrentValid | internal/app/commands/config.go:107-114 | if `current` names an existing profile before a create, it still does afterwards |
| Properties.FirstCreateMakesCurrentValid | internal/app/commands/config.go:107-110 | creating into a nil map always succeeds and makes the new name current |
| Properties.EmptyMapKeepsCurrent | internal/app/commands/config.go:107-113 | an allocated empty map does not trigger the first-profile rule: without `use`, `current` stays as it was, even though it names no profile |
| Properties.UpdatePreservesCurrentValid | internal/app/commands/config.go:182-198 | an update without rename, or with `use`, keeps a valid `current` valid |
| Properties.RenameCurrentWithoutUseDangles | internal/app/commands/config.go:182-188 | renaming the current profile away without `use` leaves `current` naming no profile |
| Properties.DeleteCurrentDangles | internal/app/commands/config.go:136 | deleting the current profile leaves `current` naming no profile |
| Properties.RenameCollisionOverwrites | internal/app/commands/config.go:182-198 | renaming onto an existing name overwrites that profile with the patched one and the set shrinks by one |
| Properties.ScenarioFirstCreate | internal/app/commands/config.go:61-121 | with no file, creating `alice` writes `{Current: alice, Configs: {alice: …}}` |
| Properties.ScenarioRenameWithUse | internal/app/commands/config.go:163-198 | `{alice, bob}` current `alice`, update `bob` renamed `carol` with `use` gives `{alice, carol: bob's fields}` current `carol` |
| Properties.ScenarioDeleteCurrent | internal/app/commands/config.go:136 | deleting the only and current profile `alice` gives an empty map with `current` still `alice` |
| Sessions.RunPreservesOthers | internal/app/commands/config.go:61-200 | one command leaves every profile outside the names it mentions exactly as it was |
| Sessions.RunCurrentFromFootprint | internal/app/commands/config.go:61-200 | one command leaves `current` as it was or sets it to a name the command mentions |
| Sessions.ReplayPreservesOthers | internal/app/commands/config.go:61-200 | no sequence of commands changes a profile that none of them names |
| Sessions.ReplayCurrentFromFootprints | internal/app/commands/config.go:61-200 | after any sequence of commands, `current` is the initial one or a name some command mentioned |
| Sessions.DeletesKeepCurrent | internal/app/commands/config.go:127-138 | a sequence of deletes never changes `current` |

## Left out

- Filesystem access (open, create, mkdir, read, truncate-write through `afero`): the file is modelled as present-with-a-set or absent. Open, read, write and close failures other than "file does not exist" are not modelled.
- The YAML encoding and decoding: a foreign library, so the encode/decode round trip is not stated. A decode failure is not modelled, and a file that decodes to no map is represented directly as a set with a nil map.
- The on-disk layout after Create on an existing file: the handle is at the end of the file after reading and is not truncated, so the new encoding is written after the old content (config.go:84, 115). Only the resulting in-memory set is modelled.
- Sessions.Replay: assumes that the next command loads exactly the set the previous command saved. This does not hold after a create on an existing file, whose file then holds the old encoding followed by the new one, and `readConfigSet` (config.go:220-224) is given both encodings, so the next load does not yield the new set (it may fail to decode). It also assumes that a nil map survives encoding and decoding as a nil map, which depends on the YAML library.
- Close-error capture (`coinbasepro.Capture`): error plumbing around I/O.
- `coinbasepro.NewAuth` is taken to build an `Auth` record from three strings; that package is not part of this model.
- The nil `Auth` pointer: a stored profile without credentials makes Update dereference nil when a credential flag is given (config.go:174-180). `Auth` is a value here, so that case is not modelled.
- Command-line flag tags and defaults, URL parsing and `URL.String()`: create takes URLs already rendered as strings, update takes them as present or absent strings.
- `os.UserHomeDir` is a parameter (`None` when it fails); `fmt.Printf` is output only.
- Commands.ConfigPath: `path.Join` also cleans the home directory (collapsing repeated slashes and resolving `.` and `..`); the model only strips trailing slashes, so it states the path exactly only for homes that are already clean apart from trailing slashes.
