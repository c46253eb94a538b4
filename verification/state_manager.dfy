/**
 * State persistence: a FlyDrive-backed strategy that keeps each state as a
 * JSON file `<basePath>/<key>.json` in a blob store, the state manager's
 * shallow-merging update, and the factory's choice of driver and base path.
 */
module StateManager {
  import opened Wrappers
  import opened Js

  /**
   * The blob store behind the FlyDrive disk: file contents by path, and the
   * paths whose existence check throws.
   */
  datatype Disk = Disk(files: map<string, string>, existsThrows: set<string>)

  /** `FlyDriveStorageStrategy`: a disk and the base path of the state files. */
  datatype Strategy = Strategy(disk: Disk, basePath: string)

  /** The constructor's default base path. */
  const DefaultBasePath: string := "states"

  function NewStrategy(disk: Disk, basePath: Option<string>): (s: Strategy)
    ensures s.basePath == (if basePath.Some? then basePath.value else "states")
    ensures s.disk == disk
  {
    Strategy(disk, basePath.GetOr(DefaultBasePath))
  }

  /** `getPath(key)` */
  function GetPath(s: Strategy, key: string): string {
    s.basePath + "/" + key + ".json"
  }

  /** The path of a key is the base path, a slash, the key and `.json`, and determines the key. */
  lemma GetPathInjective(s: Strategy, k1: string, k2: string)
    ensures GetPath(s, k1) == GetPath(s, k2) ==> k1 == k2
    ensures |GetPath(s, k1)| == |s.basePath| + |k1| + 6
    ensures GetPath(s, k1)[..|s.basePath| + 1] == s.basePath + "/"
    ensures GetPath(s, k1)[|s.basePath| + 1..|s.basePath| + 1 + |k1|] == k1
    ensures GetPath(s, k1)[|s.basePath| + 1 + |k1|..] == ".json"
  {
    var n := |s.basePath| + 1;
    var p1 := GetPath(s, k1);
    assert p1[n..n + |k1|] == k1;
    if GetPath(s, k1) == GetPath(s, k2) {
      var p2 := GetPath(s, k2);
      assert p2[n..n + |k2|] == k2;
    }
  }

  /** `hasState(key)`: the existence check, with a throwing check read as "absent". */
  function HasState(s: Strategy, key: string): (r: bool)
    ensures GetPath(s, key) in s.disk.existsThrows ==> !r
    ensures r <==> GetPath(s, key) in s.disk.files && GetPath(s, key) !in s.disk.existsThrows
  {
    var path := GetPath(s, key);
    if path in s.disk.existsThrows then false else path in s.disk.files
  }

  /** `saveState(key, state)`: write the serialised state over whatever the file held. */
  function SaveState(codec: Codec, s: Strategy, key: string, state: Value): (r: Strategy)
    ensures r.basePath == s.basePath && r.disk.existsThrows == s.disk.existsThrows
    ensures r.disk.files.Keys == s.disk.files.Keys + {GetPath(s, key)}
    ensures r.disk.files[GetPath(s, key)] == codec.encode(state)
    ensures forall p :: p in s.disk.files && p != GetPath(s, key) ==> r.disk.files[p] == s.disk.files[p]
  {
    s.(disk := s.disk.(files := s.disk.files[GetPath(s, key) := codec.encode(state)]))
  }

  /**
   * `loadState(key)`: `None` stands for `null` when the state does not exist;
   * a file that does not parse throws `JSON.parse`'s `SyntaxError`.
   */
  function LoadState(codec: Codec, s: Strategy, key: string): (r: Result<Option<Value>, Thrown>)
    ensures !HasState(s, key) ==> r == Success(None)
    ensures r.Failure? ==> HasState(s, key) && codec.decode(s.disk.files[GetPath(s, key)]).None?
    ensures r.Success? && r.value.Some? ==> HasState(s, key) && codec.decode(s.disk.files[GetPath(s, key)]) == r.value
    ensures HasState(s, key) ==>
      match codec.decode(s.disk.files[GetPath(s, key)])
      case None => r.Failure?
      case Some(v) => r == Success(Some(v))
    ensures r.Failure? ==> r.error.SyntaxError?
  {
    if !HasState(s, key) then Success(None)
    else match codec.decode(s.disk.files[GetPath(s, key)])
      case None => Failure(SyntaxError("Unexpected token in JSON"))
      case Some(v) => Success(Some(v))
  }

  /** `deleteState(key)`: remove the file if the existence check reports it. */
  function DeleteState(s: Strategy, key: string): (r: Strategy)
    ensures !HasState(r, key)
    ensures !HasState(s, key) ==> r == s
    ensures r.basePath == s.basePath && r.disk.existsThrows == s.disk.existsThrows
    ensures forall p :: p in s.disk.files && p != GetPath(s, key) ==> p in r.disk.files && r.disk.files[p] == s.disk.files[p]
    ensures r.disk.files.Keys <= s.disk.files.Keys
    ensures HasState(s, key) ==> r.disk.files == s.disk.files - {GetPath(s, key)}
  {
    if HasState(s, key) then s.(disk := s.disk.(files := s.disk.files - {GetPath(s, key)})) else s
  }

  /** Saving `key` and loading it back gives the saved state, unless the existence check for its file throws. */
  lemma SaveThenLoad(codec: Codec, s: Strategy, key: string, state: Value)
    requires RoundTrips(codec)
    requires GetPath(s, key) !in s.disk.existsThrows
    ensures LoadState(codec, SaveState(codec, s, key, state), key) == Success(Some(state))
  {
  }

  /** Saving one key changes nothing another key reports or loads. */
  lemma SaveKeepsOtherKeys(codec: Codec, s: Strategy, key: string, other: string, state: Value)
    requires key != other
    ensures HasState(SaveState(codec, s, key, state), other) == HasState(s, other)
    ensures LoadState(codec, SaveState(codec, s, key, state), other) == LoadState(codec, s, other)
  {
    GetPathInjective(s, key, other);
  }

  /** Deleting one key changes nothing another key reports or loads. */
  lemma DeleteKeepsOtherKeys(codec: Codec, s: Strategy, key: string, other: string)
    requires key != other
    ensures HasState(DeleteState(s, key), other) == HasState(s, other)
    ensures LoadState(codec, DeleteState(s, key), other) == LoadState(codec, s, other)
  {
    GetPathInjective(s, key, other);
  }

  /**
   * `StateManager.updateState(key, partial)`: load the current state (a falsy
   * one counts as `{}`), spread the partial state over it, save and return the
   * result. A load that throws makes the update throw, and nothing is saved.
   */
  function UpdateState(codec: Codec, s: Strategy, key: string, partial: Option<Value>): (r: Result<(Strategy, Value), Thrown>)
    ensures r.Failure? <==> LoadState(codec, s, key).Failure?
    ensures r.Success? ==>
      var current := if Truthy(LoadState(codec, s, key).value) then LoadState(codec, s, key).value else Some(Obj(map[]));
      && r.value.1 == Obj(Merge(current, partial))
      && r.value.0 == SaveState(codec, s, key, r.value.1)
  {
    match LoadState(codec, s, key)
    case Failure(e) => Failure(e)
    case Success(loaded) =>
      var current := if Truthy(loaded) then loaded else Some(Obj(map[]));
      var updated := Obj(Spread(current) + Spread(partial));
      Success((SaveState(codec, s, key, updated), updated))
  }

  /**
   * After an update of an object state with an object partial state, the
   * stored state has the keys of both; the partial's values win and every
   * other key keeps its value.
   */
  lemma UpdateMergesShallowly(codec: Codec, s: Strategy, key: string, current: map<string, Value>, partial: map<string, Value>)
    requires RoundTrips(codec)
    requires GetPath(s, key) !in s.disk.existsThrows
    requires LoadState(codec, s, key) == Success(Some(Obj(current)))
    ensures UpdateState(codec, s, key, Some(Obj(partial))).Success?
    ensures
      var (s', updated) := UpdateState(codec, s, key, Some(Obj(partial))).value;
      && LoadState(codec, s', key) == Success(Some(updated))
      && updated.Obj?
      && updated.fields.Keys == current.Keys + partial.Keys
      && (forall k :: k in partial ==> updated.fields[k] == partial[k])
      && (forall k :: k in current && k !in partial ==> updated.fields[k] == current[k])
  {
  }

  /** Updating a key with no stored state stores (and returns) the spread of the partial state alone. */
  lemma UpdateOfAbsentKey(codec: Codec, s: Strategy, key: string, partial: Option<Value>)
    requires !HasState(s, key)
    ensures UpdateState(codec, s, key, partial) == Success((SaveState(codec, s, key, Obj(Spread(partial))), Obj(Spread(partial))))
  {
    assert Spread(Some(Obj(map[]))) + Spread(partial) == Spread(partial);
  }

  /** The storage driver the factory picks. */
  datatype Driver =
    | S3Driver(bucket: Option<string>, region: Option<string>)
    | FsDriver(root: FsRoot)

  /** The root of the local driver: `LOCAL_STORAGE_PATH`, or the states path resolved against the working directory. */
  datatype FsRoot = LocalStoragePath(path: string) | UnderWorkingDirectory(cwd: string, statesPath: string)

  /** What `StateManagerFactory.create()` sets up: the directory it tries to create, the driver and the base path. */
  datatype Setup = Setup(mkdir: Option<string>, driver: Driver, basePath: string)

  /** `process.env[name] || fallback` */
  function EnvOr(env: map<string, string>, name: string, fallback: string): string {
    if name in env && env[name] != "" then env[name] else fallback
  }

  /** `process.env[name]` */
  function EnvGet(env: map<string, string>, name: string): Option<string> {
    if name in env then Some(env[name]) else None
  }

  /** `StateManagerFactory.create()`; a failing `mkdir` is only logged, so it changes nothing here. */
  function Create(env: map<string, string>, cwd: string): (r: Setup)
    ensures r.basePath == (if EnvOr(env, "STORAGE_TYPE", "local") == "s3" then EnvOr(env, "STATES_PATH", "states") else "")
    ensures r.driver.S3Driver? <==> EnvOr(env, "STORAGE_TYPE", "local") == "s3"
    ensures r.mkdir.Some? <==> EnvOr(env, "STORAGE_TYPE", "local") == "local"
    ensures r.mkdir.Some? ==> r.mkdir.value == EnvOr(env, "STATES_PATH", "states")
  {
    var storageType := EnvOr(env, "STORAGE_TYPE", "local");
    var statesPath := EnvOr(env, "STATES_PATH", "states");
    var mkdir := if storageType == "local" then Some(statesPath) else None;
    if storageType == "s3" then
      Setup(mkdir, S3Driver(EnvGet(env, "AWS_S3_STATE_BUCKET"), EnvGet(env, "AWS_REGION")), statesPath)
    else
      var root := if "LOCAL_STORAGE_PATH" in env && env["LOCAL_STORAGE_PATH"] != ""
                  then LocalStoragePath(env["LOCAL_STORAGE_PATH"])
                  else UnderWorkingDirectory(cwd, statesPath);
      Setup(mkdir, FsDriver(root), "")
  }

  /**
   * With no `STORAGE_TYPE` (or an empty one) the factory uses the local
   * driver with an empty base path, so a key lands at `/<key>.json` under
   * the driver's root; with `s3` it lands under `states/` unless
   * `STATES_PATH` says otherwise.
   */
  lemma FactoryPaths(env: map<string, string>, cwd: string, disk: Disk, key: string)
    ensures "STORAGE_TYPE" !in env ==> GetPath(Strategy(disk, Create(env, cwd).basePath), key) == "/" + key + ".json"
    ensures EnvGet(env, "STORAGE_TYPE") == Some("s3") && "STATES_PATH" !in env ==>
      GetPath(Strategy(disk, Create(env, cwd).basePath), key) == "states/" + key + ".json"
  {
  }
}
