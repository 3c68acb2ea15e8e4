/**
 * The map asset loader: one memoised entry per map, each holding five lazy
 * loaders that read their file on first use and keep what that read returned.
 */
module MapLoader {
  import opened Wrappers

  /** How a loader turns its file into a value. */
  datatype FileKind = Binary | JsonFile | PathOnly

  /** A loaded asset: file bytes, a manifest document, or a path. JSON parsing is not modelled. */
  datatype Asset = Bytes(data: seq<bv8>) | Manifest(text: seq<bv8>) | FilePath(path: string)

  /** The settled value of a loader's promise: either the asset or the read error. */
  datatype Promise = Resolved(asset: Asset) | Rejected(reason: string)

  /** The files on disk at the time a loader first runs, by path. */
  type FileSystem = map<string, seq<bv8>>

  /** `path.join(dir, name)`, without normalisation. */
  function JoinPath(dir: string, name: string): string {
    dir + "/" + name
  }

  /**
   * What the loader's `load` yields for `path`: the thumbnail loader never
   * touches the disk; the others reject exactly when the file is missing.
   */
  function Load(kind: FileKind, path: string, fs: FileSystem): (p: Promise)
    ensures p.Rejected? <==> kind != PathOnly && path !in fs
    ensures p.Resolved? ==> p.asset == (match kind
                                        case Binary => Bytes(fs[path])
                                        case JsonFile => Manifest(fs[path])
                                        case PathOnly => FilePath(path))
  {
    match kind
    case PathOnly => Resolved(FilePath(path))
    case Binary => if path in fs then Resolved(Bytes(fs[path])) else Rejected("ENOENT: " + path)
    case JsonFile => if path in fs then Resolved(Manifest(fs[path])) else Rejected("ENOENT: " + path)
  }

  /** A lazy loader: `cachedPromise ??= load(); return cachedPromise`. `loads` counts calls of `load`. */
  class LazyLoader {
    const kind: FileKind
    const path: string
    var cachedPromise: Option<Promise>
    ghost var loads: nat

    /** `load` has run at most once, and exactly when a promise is stored. */
    ghost predicate Valid()
      reads this
    {
      loads <= 1 && (cachedPromise.Some? <==> loads == 1)
    }

    constructor (kind: FileKind, path: string)
      ensures Valid() && this.kind == kind && this.path == path
      ensures cachedPromise == None && loads == 0
    {
      this.kind := kind;
      this.path := path;
      cachedPromise := None;
      loads := 0;
    }

    /**
     * Calling the loader. The first call runs `load` and stores its promise,
     * a rejected one included; every later call returns that same promise.
     */
    method Call(fs: FileSystem) returns (p: Promise)
      requires Valid()
      modifies this
      ensures Valid() && loads == 1
      ensures old(cachedPromise).Some? ==> p == old(cachedPromise).value && unchanged(this)
      ensures old(cachedPromise).None? ==> p == Load(kind, path, fs) && cachedPromise == Some(p)
    {
      if cachedPromise.None? {
        cachedPromise := Some(Load(kind, path, fs));
        loads := loads + 1;
      }
      p := cachedPromise.value;
    }

    /** Two calls, even with the disk changed in between, run `load` once and return the same promise. */
    method CallTwice(fs: FileSystem, later: FileSystem) returns (first: Promise, second: Promise)
      requires Valid()
      modifies this
      ensures Valid() && loads == 1
      ensures first == second
    {
      first := Call(fs);
      second := Call(later);
    }
  }

  /** The five loaders of one map, all under the same base directory. */
  class MapData {
    const baseDir: string
    const mapBin: LazyLoader
    const map4xBin: LazyLoader
    const map16xBin: LazyLoader
    const manifest: LazyLoader
    const webpPath: LazyLoader

    /** The loaders read the fixed file names under `baseDir`. */
    predicate LaidOut(dir: string) {
      && baseDir == dir
      && mapBin.kind == Binary && mapBin.path == JoinPath(dir, "map.bin")
      && map4xBin.kind == Binary && map4xBin.path == JoinPath(dir, "map4x.bin")
      && map16xBin.kind == Binary && map16xBin.path == JoinPath(dir, "map16x.bin")
      && manifest.kind == JsonFile && manifest.path == JoinPath(dir, "manifest.json")
      && webpPath.kind == PathOnly && webpPath.path == JoinPath(dir, "thumbnail.webp")
    }

    /** The five loader objects of this entry. */
    ghost function Loaders(): set<LazyLoader> {
      {mapBin, map4xBin, map16xBin, manifest, webpPath}
    }

    /** No two of the five loaders are the same object. */
    predicate Distinct() {
      && mapBin != map4xBin && mapBin != map16xBin && mapBin != manifest && mapBin != webpPath
      && map4xBin != map16xBin && map4xBin != manifest && map4xBin != webpPath
      && map16xBin != manifest && map16xBin != webpPath
      && manifest != webpPath
    }

    /** The loaders are distinct and each keeps its once-only invariant. */
    ghost predicate Valid()
      reads Loaders()
    {
      && Distinct()
      && mapBin.Valid() && map4xBin.Valid() && map16xBin.Valid() && manifest.Valid() && webpPath.Valid()
    }

    /** `owner` assigns each of the five loaders to map `m`. */
    ghost predicate OwnedBy(owner: map<LazyLoader, string>, m: string) {
      && mapBin in owner && owner[mapBin] == m
      && map4xBin in owner && owner[map4xBin] == m
      && map16xBin in owner && owner[map16xBin] == m
      && manifest in owner && owner[manifest] == m
      && webpPath in owner && owner[webpPath] == m
    }

    /** No loader has run yet. */
    ghost predicate Unloaded()
      reads Loaders()
    {
      && Valid()
      && mapBin.loads == 0 && map4xBin.loads == 0 && map16xBin.loads == 0
      && manifest.loads == 0 && webpPath.loads == 0
    }

    constructor (dir: string)
      ensures LaidOut(dir) && Unloaded()
      ensures fresh(mapBin) && fresh(map4xBin) && fresh(map16xBin) && fresh(manifest) && fresh(webpPath)
    {
      baseDir := dir;
      mapBin := new LazyLoader(Binary, JoinPath(dir, "map.bin"));
      map4xBin := new LazyLoader(Binary, JoinPath(dir, "map4x.bin"));
      map16xBin := new LazyLoader(Binary, JoinPath(dir, "map16x.bin"));
      manifest := new LazyLoader(JsonFile, JoinPath(dir, "manifest.json"));
      webpPath := new LazyLoader(PathOnly, JoinPath(dir, "thumbnail.webp"));
    }
  }

  /** `c.toLowerCase()` on ASCII letters. */
  function LowerChar(c: char): char {
    if 'A' <= c <= 'Z' then (c as int - 'A' as int + 'a' as int) as char else c
  }

  /** `s.toLowerCase()` on ASCII: each upper-case letter is replaced by its lower-case one, the rest is kept. */
  function ToLower(s: string): (r: string)
    ensures |r| == |s|
    ensures forall i :: 0 <= i < |s| ==> !('A' <= r[i] <= 'Z')
    ensures forall i :: 0 <= i < |s| && 'A' <= s[i] <= 'Z' ==> r[i] as int == s[i] as int + 32
    ensures forall i :: 0 <= i < |s| && !('A' <= s[i] <= 'Z') ==> r[i] == s[i]
  {
    seq(|s|, i requires 0 <= i < |s| => LowerChar(s[i]))
  }

  /**
   * `Object.keys(GameMapType).find(k => GameMapType[k] === map)`: the position
   * of the first entry, in key order, whose value is `mapId`.
   */
  function FindKey(entries: seq<(string, string)>, mapId: string): (r: Option<nat>)
    ensures r.Some? ==> r.value < |entries| && entries[r.value].1 == mapId
    ensures r.Some? ==> forall j :: 0 <= j < r.value ==> entries[j].1 != mapId
    ensures r.None? <==> forall j :: 0 <= j < |entries| ==> entries[j].1 != mapId
  {
    if entries == [] then None
    else if entries[0].1 == mapId then Some(0)
    else
      match FindKey(entries[1..], mapId)
      case None => None
      case Some(i) => Some(i + 1)
  }

  /**
   * `mapDirName`: the first key whose value is `mapId`, lowercased. No such
   * key, or a key that is the empty string (falsy), throws "Unknown map".
   */
  function MapDirName(entries: seq<(string, string)>, mapId: string): (r: Result<string, string>)
    ensures r.Failure? <==> FindKey(entries, mapId).None? || entries[FindKey(entries, mapId).value].0 == ""
    ensures r.Failure? ==> r.error == "Unknown map: " + mapId
    ensures r.Success? ==> r.value == ToLower(entries[FindKey(entries, mapId).value].0)
  {
    match FindKey(entries, mapId)
    case None => Failure("Unknown map: " + mapId)
    case Some(i) => if entries[i].0 == "" then Failure("Unknown map: " + mapId) else Success(ToLower(entries[i].0))
  }

  /** `FileSystemGameMapLoader`: the map entries built so far, keyed by map id. */
  class FileSystemGameMapLoader {
    const mapsRoot: string
    /** The `GameMapType` enum object as its entries, in key order. */
    const gameMapType: seq<(string, string)>
    var maps: map<string, MapData>
    /** The loaders of every cached entry. */
    ghost var Repr: set<LazyLoader>
    /** The map each loader in `Repr` was built for. */
    ghost var owner: map<LazyLoader, string>

    /**
     * Every cached entry is laid out under the directory of its own map and
     * has five distinct loaders, all in `Repr` and all owned by that map (so
     * no two entries share a loader); every loader in `Repr` keeps its
     * once-only invariant.
     */
    ghost predicate Valid()
      reads this, Repr
    {
      && (forall m :: m in maps ==>
            Placed(m, maps[m]) && maps[m].Distinct() && maps[m].Loaders() <= Repr && maps[m].OwnedBy(owner, m))
      && (forall y :: y in Repr ==> y.Valid())
      && owner.Keys <= Repr
    }

    /** The entries of two different maps share no loader. */
    lemma EntriesDisjoint(a: string, b: string)
      requires Valid() && a in maps && b in maps && a != b
      ensures maps[a].Loaders() !! maps[b].Loaders()
    {
    }

    /** The entry for map `m` is laid out under that map's directory. */
    predicate Placed(m: string, entry: MapData) {
      MapDirName(gameMapType, m).Success? && entry.LaidOut(JoinPath(mapsRoot, MapDirName(gameMapType, m).value))
    }

    constructor (mapsRoot: string, gameMapType: seq<(string, string)>)
      ensures Valid() && this.mapsRoot == mapsRoot && this.gameMapType == gameMapType && maps == map[]
    {
      this.mapsRoot := mapsRoot;
      this.gameMapType := gameMapType;
      maps := map[];
      Repr := {};
      owner := map[];
    }

    /**
     * `getMapData`: a cached entry is returned as is; otherwise the map's
     * directory is looked up (an unknown map throws and caches nothing) and a
     * new entry of five unloaded loaders is cached for this map alone. Either
     * way the loaders of the entry returned are ready to be called.
     */
    method GetMapData(mapId: string) returns (r: Result<MapData, string>)
      requires Valid()
      modifies this
      ensures Valid()
      ensures r.Success? ==> r.value.Valid() && r.value.Loaders() <= Repr
      ensures mapId in old(maps) ==> r == Success(old(maps)[mapId]) && maps == old(maps) && Repr == old(Repr)
      ensures mapId !in old(maps) && MapDirName(gameMapType, mapId).Failure? ==>
        r == Failure(MapDirName(gameMapType, mapId).error) && maps == old(maps) && Repr == old(Repr)
      ensures mapId !in old(maps) && MapDirName(gameMapType, mapId).Success? ==>
        && r.Success? && fresh(r.value)
        && maps == old(maps)[mapId := r.value]
        && r.value.LaidOut(JoinPath(mapsRoot, MapDirName(gameMapType, mapId).value))
        && fresh(r.value.Loaders())
        && Repr == old(Repr) + r.value.Loaders()
        && r.value.Unloaded()
    {
      if mapId in maps {
        return Success(maps[mapId]);
      }
      var dirName := MapDirName(gameMapType, mapId);
      if dirName.Failure? {
        return Failure(dirName.error);
      }
      var mapData := AddEntry(mapId, JoinPath(mapsRoot, dirName.value));
      r := Success(mapData);
    }

    /** Builds the entry of five unloaded loaders under `dir` and caches it under `mapId` alone. */
    method AddEntry(mapId: string, dir: string) returns (mapData: MapData)
      requires Valid() && mapId !in maps
      requires MapDirName(gameMapType, mapId).Success? && dir == JoinPath(mapsRoot, MapDirName(gameMapType, mapId).value)
      modifies this
      ensures Valid()
      ensures fresh(mapData) && fresh(mapData.Loaders())
      ensures maps == old(maps)[mapId := mapData] && Repr == old(Repr) + mapData.Loaders()
      ensures mapData.LaidOut(dir) && mapData.Unloaded()
    {
      mapData := new MapData(dir);
      Insert(mapId, mapData);
    }

    /** Caches `entry` under `mapId`, adding its loaders to `Repr`. */
    method Insert(mapId: string, entry: MapData)
      requires Valid() && Placed(mapId, entry) && entry.Valid()
      requires entry.Loaders() !! Repr
      modifies this
      ensures Valid()
      ensures maps == old(maps)[mapId := entry] && Repr == old(Repr) + entry.Loaders()
    {
      ghost var before := maps;
      maps := maps[mapId := entry];
      Repr := Repr + entry.Loaders();
      owner := owner[entry.mapBin := mapId][entry.map4xBin := mapId][entry.map16xBin := mapId]
                    [entry.manifest := mapId][entry.webpPath := mapId];
      forall m | m in maps && m != mapId
        ensures maps[m].OwnedBy(owner, m)
      {
        assert maps[m] == before[m] && before[m].Loaders() <= old(Repr);
      }
    }

    /** Two requests for the same map get the identical entry; the second changes nothing. */
    method GetMapDataTwice(mapId: string) returns (first: Result<MapData, string>, second: Result<MapData, string>)
      requires Valid()
      modifies this
      ensures Valid()
      ensures first == second
      ensures first.Success? ==> mapId in maps && maps[mapId] == first.value
    {
      first := GetMapData(mapId);
      second := GetMapData(mapId);
    }

    /**
     * `getMapData(mapId).manifest()`: the manifest of a map is read from disk
     * at most once, by the first call that reaches it, and every later call
     * gets the promise that read produced.
     */
    method ReadManifest(mapId: string, fs: FileSystem) returns (r: Result<Promise, string>)
      requires Valid()
      modifies this, Repr
      ensures Valid()
      ensures fresh(Repr - old(Repr))
      ensures mapId in old(maps) ==> maps == old(maps) && Repr == old(Repr)
      ensures r.Success? ==> mapId in maps && maps == old(maps)[mapId := maps[mapId]]
      ensures forall y :: y in old(Repr) && (mapId !in maps || y != maps[mapId].manifest) ==> unchanged(y)
      ensures r.Failure? <==> mapId !in old(maps) && MapDirName(gameMapType, mapId).Failure?
      ensures r.Failure? ==> r.error == MapDirName(gameMapType, mapId).error && maps == old(maps) && Repr == old(Repr)
      ensures r.Success? ==> mapId in maps && maps[mapId].manifest.cachedPromise == Some(r.value)
      ensures mapId in old(maps) && old(maps[mapId].manifest.cachedPromise).Some? ==>
        r == Success(old(maps[mapId].manifest.cachedPromise).value)
      ensures mapId in old(maps) && old(maps[mapId].manifest.cachedPromise).None? ==>
        r == Success(Load(JsonFile, old(maps[mapId].manifest.path), fs))
      ensures mapId !in old(maps) && MapDirName(gameMapType, mapId).Success? ==>
        r == Success(Load(JsonFile, JoinPath(JoinPath(mapsRoot, MapDirName(gameMapType, mapId).value), "manifest.json"), fs))
    {
      var entry := GetMapData(mapId);
      if entry.Failure? {
        return Failure(entry.error);
      }
      var mapData := entry.value;
      var p := mapData.manifest.Call(fs);
      r := Success(p);
    }

    /**
     * Reading the manifest of cached map `a` runs only that closure: the cache,
     * the other loaders of `a` and the loaders of any other map `b` are untouched.
     */
    method ReadManifestLeavesOthers(a: string, b: string, fs: FileSystem) returns (r: Result<Promise, string>)
      requires Valid() && a in maps && b in maps && a != b
      modifies this, Repr
      ensures Valid()
      ensures maps == old(maps) && r.Success?
      ensures maps[a].mapBin.cachedPromise == old(maps[a].mapBin.cachedPromise)
      ensures maps[a].webpPath.cachedPromise == old(maps[a].webpPath.cachedPromise)
      ensures maps[b].manifest.cachedPromise == old(maps[b].manifest.cachedPromise)
    {
      EntriesDisjoint(a, b);
      r := ReadManifest(a, fs);
    }

    /** Reading a map's manifest twice, even with the disk changed in between, gives the same result. */
    method ReadManifestTwice(mapId: string, fs: FileSystem, later: FileSystem)
      returns (first: Result<Promise, string>, second: Result<Promise, string>)
      requires Valid()
      modifies this, Repr
      ensures Valid()
      ensures first == second
    {
      first := ReadManifest(mapId, fs);
      second := ReadManifest(mapId, later);
    }
  }
}
