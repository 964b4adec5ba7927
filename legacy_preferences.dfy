/** The earlier store of the root index.js. It has no set-once state: the
    default path is fixed when the factory runs, and an optional file name is
    joined to the directory without normalising. It has the same synchronous
    and promise loads as src/index.js, and no callback convention. Several
    synchronous writers ignore the optional file name, and the async
    `setStates` reports success whatever the write did. */
module LegacyPreferences {
  import opened Base
  import opened JsValues
  import opened Documents
  import opened FileSystem
  import opened NodeHost
  import opened PreferenceSpec

  /** The store's constants: library, directory and default path. */
  datatype LegacyEnv = LegacyEnv(h: Host, dir: string, defaultPath: string)

  /** The `json` extension the factory falls back on (index.js:39-43). */
  const DefaultExt: string := "json"

  /** `defPreferenceFilePath` (index.js:53-55): `path.join` throws a TypeError
      when the directory is `undefined`. */
  function LegacyDefaultPath(h: Host, c: Config): (r: Result<string>)
    ensures r.Err? <==> c.preferenceFileDir.None?
    ensures r.Err? ==> r.error == TypeError
  {
    match c.preferenceFileDir
    case None => Err(TypeError)
    case Some(dir) =>
      var ext := if Truthy(c.fileExt) then c.fileExt.value else DefaultExt;
      Ok(h.join(dir, if Truthy(c.preferenceFileName) then c.preferenceFileName.value else Template(c.fileName) + "." + ext))
  }

  /** The file a call works on: the joined optional name, or the default path
      (index.js:138, 182, 209, 224). */
  function PathOf(e: LegacyEnv, opt: Option<string>): (p: string)
    ensures !Truthy(opt) ==> p == e.defaultPath
  {
    if Truthy(opt) then e.h.join(e.dir, opt.value) else e.defaultPath
  }

  /** `getPreferencesSync` / `getPreferences` (index.js:137-204): the same
      repair as src/index.js, with the configured directory created when the
      file is missing. */
  function LoadL(e: LegacyEnv, mode: Mode, fs: FsMap, opt: Option<string>, io: Io): (s: Step<Result<Doc>>)
    ensures Healthy(fs, PathOf(e, opt), io) ==> s == Step(Ok(fs[PathOf(e, opt)].doc), fs)
    ensures mode == Promise ==> s.out.Ok?
    ensures s.out.Ok? && !Healthy(fs, PathOf(e, opt), io) ==> s.out.value == EmptyDoc
  {
    var p := PathOf(e, opt);
    if mode == Blocking then ReadSync(fs, p, e.dir, io)
    else
      var a := ReadAsync(fs, p, e.dir, io);
      Step(Ok(a.out), a.fs)
  }

  /** `setPreferencesSync` / `setPreferences` (index.js:207-235). */
  function StoreL(e: LegacyEnv, fs: FsMap, doc: Doc, opt: Option<string>, io: Io): (s: Step<bool>)
    ensures s.out <==> Writable(fs, PathOf(e, opt), io)
    ensures s.out ==> s.fs == fs[PathOf(e, opt) := Parsed(JsonDoc(doc))]
    ensures !s.out ==> s.fs == fs
  {
    WriteFile(fs, PathOf(e, opt), doc, io)
  }

  /** `deserializeSync` / `deserialize` (index.js:80-89). */
  function DeserializeL(e: LegacyEnv, mode: Mode, fs: FsMap, opt: Option<string>, io: Io): (s: Step<Result<string>>)
    ensures Healthy(fs, PathOf(e, opt), io) ==> s == Step(Ok(e.h.stringify(fs[PathOf(e, opt)].doc)), fs)
  {
    var l := LoadL(e, mode, fs, opt, io);
    match l.out
    case Err(err) => Step(Err(err), l.fs)
    case Ok(doc) => Step(Ok(e.h.stringify(doc)), l.fs)
  }

  /** `deleteFileSync` / `deleteFile` (index.js:96-133): the result is always
      `undefined`, so only the file system after the call is returned. */
  function DeleteFileL(e: LegacyEnv, fs: FsMap, opt: Option<string>, io: Io): (fs': FsMap)
    ensures var p := PathOf(e, opt);
      && (p in fs && !fs[p].Dir? && io.unlinkOk ==> fs' == fs - {p})
      && (!(p in fs && !fs[p].Dir? && io.unlinkOk) ==> fs' == fs)
  {
    Unlink(fs, PathOf(e, opt), io).fs
  }

  /** `hasKeySync` / `hasKey` (index.js:242-259). */
  function HasKeyL(e: LegacyEnv, mode: Mode, fs: FsMap, key: JsValue, opt: Option<string>, io: Io): (s: Step<Result<bool>>)
    ensures var l := LoadL(e, mode, fs, opt, io);
      s.fs == l.fs && (s.out.Ok? <==> l.out.Ok?) && (l.out.Ok? ==> (s.out.value <==> HasKey(l.out.value, key)))
  {
    var l := LoadL(e, mode, fs, opt, io);
    match l.out
    case Err(err) => Step(Err(err), l.fs)
    case Ok(doc) => Step(Ok(HasKey(doc, key)), l.fs)
  }

  /** `getStateSync` / `getState` (index.js:270-295). */
  function GetStateL(e: LegacyEnv, mode: Mode, fs: FsMap, key: JsValue, default: JsValue, opt: Option<string>, io: Io)
    : (s: Step<Result<string>>)
    ensures HasKeyL(e, mode, fs, key, opt, io).out == Ok(false) ==> s.out == Ok(ToStr(default))
    ensures var hk := HasKeyL(e, mode, fs, key, opt, io);
      var l := LoadL(e, mode, hk.fs, opt, io);
      hk.out == Ok(true) && l.out.Ok? ==> s == Step(Ok(ToStr(Lookup(l.out.value, ToStr(key)))), l.fs)
  {
    var hk := HasKeyL(e, mode, fs, key, opt, io);
    match hk.out
    case Err(err) => Step(Err(err), hk.fs)
    case Ok(found) =>
      if found then
        var l := LoadL(e, mode, hk.fs, opt, io);
        match l.out
        case Err(err) => Step(Err(err), l.fs)
        case Ok(doc) => Step(Ok(ToStr(Lookup(doc, ToStr(key)))), l.fs)
      else Step(Ok(ToStr(default)), hk.fs)
  }

  /** `getStatesSync` / `getStates` (index.js:306-338). A missing key list is
      `[]` for the promise variant (a default parameter); the synchronous
      variant loads the file and then fails on `undefined.map`. */
  function GetStatesL(e: LegacyEnv, mode: Mode, fs: FsMap, keys: Option<seq<JsValue>>, opt: Option<string>, io: Io)
    : (s: Step<Result<seq<string>>>)
    ensures s.fs == LoadL(e, mode, fs, opt, io).fs
    ensures var l := LoadL(e, mode, fs, opt, io);
      l.out.Ok? && keys.Some? ==> s.out == Ok(StatesOf(l.out.value, keys.value))
  {
    var l := LoadL(e, mode, fs, opt, io);
    match l.out
    case Err(err) => Step(Err(err), l.fs)
    case Ok(doc) =>
      match keys
      case Some(ks) => Step(Ok(StatesOf(doc, ks)), l.fs)
      case None => Step(if mode == Blocking then Err(TypeError) else Ok([]), l.fs)
  }

  /** `setStateSync` / `setState` (index.js:349-372): the synchronous variant
      writes to the default file whatever file it read. */
  function SetStateL(e: LegacyEnv, mode: Mode, fs: FsMap, key: JsValue, value: JsValue, opt: Option<string>, io: Io)
    : (s: Step<Result<bool>>)
    ensures mode == Promise ==> s.out.Ok?
    ensures s.out == Ok(false) ==> s.fs == LoadL(e, mode, fs, opt, io).fs
  {
    var l := LoadL(e, mode, fs, opt, io);
    match l.out
    case Err(err) => Step(Err(err), l.fs)
    case Ok(doc) =>
      var w := StoreL(e, l.fs, Assign(doc, ToStr(key), Str(ToStr(value))), if mode == Blocking then None else opt, io);
      Step(Ok(w.out), w.fs)
  }

  /** `setStatesSync` / `setStates` (index.js:382-413): the synchronous variant
      writes to the default file and gives `[]` when that fails; the promise
      variant writes to the resolved file and gives the inserted values
      whatever the write did. */
  function SetStatesL(e: LegacyEnv, mode: Mode, fs: FsMap, states: States, opt: Option<string>, io: Io)
    : (s: Step<Result<seq<string>>>)
    ensures mode == Promise ==> s.out == Ok(InsertedValues(states))
    ensures var l := LoadL(e, mode, fs, opt, io);
      var p := if mode == Blocking then e.defaultPath else PathOf(e, opt);
      var written := Writable(l.fs, p, io);
      l.out.Ok? ==>
        && s.out == Ok(if written || mode == Promise then InsertedValues(states) else [])
        && s.fs == if written then l.fs[p := Parsed(JsonDoc(ApplyStates(l.out.value, states)))] else l.fs
  {
    var l := LoadL(e, mode, fs, opt, io);
    match l.out
    case Err(err) => Step(Err(err), l.fs)
    case Ok(doc) =>
      var w := StoreL(e, l.fs, ApplyStates(doc, states), if mode == Blocking then None else opt, io);
      Step(Ok(if mode == Promise || w.out then InsertedValues(states) else []), w.fs)
  }

  /** `deleteKeySync` / `deleteKey` (index.js:421-453): the synchronous variant
      loads and writes the default file, but asks `hasKeySync` about the
      optional one. */
  function DeleteKeyL(e: LegacyEnv, mode: Mode, fs: FsMap, key: JsValue, opt: Option<string>, io: Io)
    : (s: Step<Result<bool>>)
    ensures mode == Promise ==> s.out.Ok?
    ensures var target := if mode == Blocking then None else opt;
      var l := LoadL(e, mode, fs, target, io);
      var hk := HasKeyL(e, mode, l.fs, key, opt, io);
      var p := PathOf(e, target);
      l.out.Ok? && hk.out.Ok? ==>
        if hk.out.value then
          && s.out == Ok(Writable(hk.fs, p, io))
          && s.fs == if Writable(hk.fs, p, io) then hk.fs[p := Parsed(JsonDoc(l.out.value - {ToStr(key)}))] else hk.fs
        else s == Step(Ok(true), hk.fs)
  {
    var target := if mode == Blocking then None else opt;
    var l := LoadL(e, mode, fs, target, io);
    match l.out
    case Err(err) => Step(Err(err), l.fs)
    case Ok(doc) =>
      var hk := HasKeyL(e, mode, l.fs, key, opt, io);
      match hk.out
      case Err(err) => Step(Err(err), hk.fs)
      case Ok(found) =>
        if found then
          var w := StoreL(e, hk.fs, doc - {ToStr(key)}, target, io);
          Step(Ok(w.out), w.fs)
        else Step(Ok(true), hk.fs)
  }

  // ----- Properties -----

  /** Without a file name or an extension the default file is
      `<dir>/undefined.json`: the `json` fallback is reachable here. */
  lemma MissingNameAndExtension(h: Host, dir: string)
    ensures LegacyDefaultPath(h, Config(Some(dir), None, None, None)) == Ok(h.join(dir, "undefined.json"))
  {
    assert Template(None) + "." + DefaultExt == "undefined.json";
  }

  /** On a file that reads and parses, every load returns its document and
      changes nothing. */
  lemma HealthyLegacyLoad(e: LegacyEnv, mode: Mode, fs: FsMap, opt: Option<string>, io: Io)
    requires Healthy(fs, PathOf(e, opt), io)
    ensures LoadL(e, mode, fs, opt, io) == Step(Ok(fs[PathOf(e, opt)].doc), fs)
  {
  }

  /** On a healthy file `getState(k, d)` gives the string form of the stored
      value when the file owns `k` and of `d` otherwise, and writes nothing. */
  lemma LegacyGetStateOnHealthyFile(e: LegacyEnv, mode: Mode, fs: FsMap, k: string, d: JsValue, opt: Option<string>, io: Io)
    requires Healthy(fs, PathOf(e, opt), io)
    ensures var doc := fs[PathOf(e, opt)].doc;
      GetStateL(e, mode, fs, Str(k), d, opt, io) == Step(Ok(if k in doc then ToStr(doc[k]) else ToStr(d)), fs)
  {
    HealthyLegacyLoad(e, mode, fs, opt, io);
  }

  /** On a healthy file `getStates(keys)` gives each key's value as text, in
      key order, and writes nothing. */
  lemma LegacyGetStatesOnHealthyFile(e: LegacyEnv, mode: Mode, fs: FsMap, keys: seq<JsValue>, opt: Option<string>, io: Io)
    requires Healthy(fs, PathOf(e, opt), io)
    ensures var doc := fs[PathOf(e, opt)].doc;
      && GetStatesL(e, mode, fs, Some(keys), opt, io) == Step(Ok(StatesOf(doc, keys)), fs)
      && forall i :: 0 <= i < |keys| ==> StatesOf(doc, keys)[i] == ToStr(Lookup(doc, ToStr(keys[i])))
  {
    HealthyLegacyLoad(e, mode, fs, opt, io);
  }

  /** `setStateSync(k, v, name)` reads the named file and writes the result,
      with `k` set, over the DEFAULT file; the named file is untouched. */
  lemma {:induction false} SetStateSyncWritesDefaultFile(e: LegacyEnv, fs: FsMap, k: string, v: JsValue, name: string, io: Io)
    requires name != "" && HealthyJson(fs, PathOf(e, Some(name)), io)
    requires io.writeOk && !(e.defaultPath in fs && fs[e.defaultPath].Dir?)
    ensures var s := SetStateL(e, Blocking, fs, Str(k), v, Some(name), io);
      var named := fs[PathOf(e, Some(name))].doc;
      s.out == Ok(true) && s.fs == fs[e.defaultPath := Parsed(Assign(named, k, Str(ToStr(v))))]
  {
    var named := fs[PathOf(e, Some(name))].doc;
    HealthyLegacyLoad(e, Blocking, fs, Some(name), io);
    assert PathOf(e, None) == e.defaultPath;
    AssignKeepsJson(named, k, ToStr(v));
  }

  /** What `setState` writes, from any file: the loaded document with only
      `key` assigned, over the default file in the synchronous variant and
      over the resolved file in the promise one; `false` and no write when
      that file is not writable. */
  lemma SetStateWritesAssignedDocument(e: LegacyEnv, mode: Mode, fs: FsMap, key: JsValue, value: JsValue,
                                       opt: Option<string>, io: Io)
    ensures var l := LoadL(e, mode, fs, opt, io);
      var p := if mode == Blocking then e.defaultPath else PathOf(e, opt);
      var written := Writable(l.fs, p, io);
      var s := SetStateL(e, mode, fs, key, value, opt, io);
      && (l.out.Ok? ==>
            && s.out == Ok(written)
            && s.fs == if written then l.fs[p := Parsed(JsonDoc(Assign(l.out.value, ToStr(key), Str(ToStr(value)))))] else l.fs)
      && (l.out.Err? ==> s == Step(Err(l.out.error), l.fs))
  {
    assert PathOf(e, None) == e.defaultPath;
  }

  /** Async `setStates` resolves to the inserted values even when the write
      fails, and then nothing is written; `setStatesSync` gives `[]`. */
  lemma {:induction false} FailedWriteOfStates(e: LegacyEnv, fs: FsMap, states: States, io: Io)
    requires Healthy(fs, e.defaultPath, io) && !io.writeOk
    ensures SetStatesL(e, Promise, fs, states, None, io) == Step(Ok(InsertedValues(states)), fs)
    ensures SetStatesL(e, Blocking, fs, states, None, io) == Step(Ok([]), fs)
  {
    HealthyLegacyLoad(e, Promise, fs, None, io);
    HealthyLegacyLoad(e, Blocking, fs, None, io);
  }

  /** `setStates(states)` on a healthy file writes the document with the
      given keys assigned and returns the values in key order; a later
      `getStates` reads them back (synchronous variant: default file only). */
  lemma {:induction false} LegacySetStatesThenGetStates(e: LegacyEnv, mode: Mode, fs: FsMap, states: States, keys: seq<JsValue>,
                                                        opt: Option<string>, io: Io, next: Io)
    requires mode == Promise || !Truthy(opt)
    requires HealthyJson(fs, PathOf(e, opt), io) && io.writeOk && next.readOk
    ensures var p := PathOf(e, opt);
      var s := SetStatesL(e, mode, fs, states, opt, io);
      var updated := ApplyStates(fs[p].doc, states);
      && s == Step(Ok(InsertedValues(states)), fs[p := Parsed(updated)])
      && GetStatesL(e, mode, s.fs, Some(keys), opt, next).out == Ok(StatesOf(updated, keys))
  {
    var p := PathOf(e, opt);
    assert PathOf(e, None) == e.defaultPath;
    HealthyLegacyLoad(e, mode, fs, opt, io);
    ApplyStatesKeepsJson(fs[p].doc, states);
    JsonDocIsJson(ApplyStates(fs[p].doc, states));
    var s := SetStatesL(e, mode, fs, states, opt, io);
    HealthyLegacyLoad(e, mode, s.fs, opt, next);
  }

  /** `deleteKeySync(k, name)` with `k` in the named file: `k` is removed from
      the DEFAULT document, which is written back to the default file. */
  lemma {:induction false} DeleteKeySyncUsesDefaultFile(e: LegacyEnv, fs: FsMap, k: string, name: string, io: Io)
    requires name != "" && io.writeOk
    requires HealthyJson(fs, e.defaultPath, io) && Healthy(fs, PathOf(e, Some(name)), io)
    requires k in fs[PathOf(e, Some(name))].doc
    ensures var s := DeleteKeyL(e, Blocking, fs, Str(k), Some(name), io);
      s.out == Ok(true) && s.fs == fs[e.defaultPath := Parsed(fs[e.defaultPath].doc - {k})]
  {
    JsonDocIsJson(fs[e.defaultPath].doc - {k});
    HealthyLegacyLoad(e, Blocking, fs, None, io);
    HealthyLegacyLoad(e, Blocking, fs, Some(name), io);
  }

  /** `deleteKey(k)` with `k` in the file removes just that key (synchronous
      variant: default file only). */
  lemma {:induction false} LegacyDeletePresentKey(e: LegacyEnv, mode: Mode, fs: FsMap, k: string, opt: Option<string>, io: Io)
    requires mode == Promise || !Truthy(opt)
    requires HealthyJson(fs, PathOf(e, opt), io) && io.writeOk
    requires k in fs[PathOf(e, opt)].doc
    ensures var p := PathOf(e, opt);
      DeleteKeyL(e, mode, fs, Str(k), opt, io) == Step(Ok(true), fs[p := Parsed(fs[p].doc - {k})])
  {
    var p := PathOf(e, opt);
    assert PathOf(e, None) == e.defaultPath;
    JsonDocIsJson(fs[p].doc - {k});
    HealthyLegacyLoad(e, mode, fs, opt, io);
  }

  /** `deleteKey` of a key the file does not hold returns `true` and writes
      nothing. */
  lemma DeleteAbsentKeyLegacy(e: LegacyEnv, mode: Mode, fs: FsMap, key: JsValue, io: Io)
    requires Healthy(fs, e.defaultPath, io) && !HasKey(fs[e.defaultPath].doc, key)
    ensures DeleteKeyL(e, mode, fs, key, None, io) == Step(Ok(true), fs)
  {
    HealthyLegacyLoad(e, mode, fs, None, io);
  }

  /** Without a key list, async `getStates` gives `[]` and `getStatesSync`
      throws, after the same load. */
  lemma GetStatesWithoutKeys(e: LegacyEnv, fs: FsMap, opt: Option<string>, io: Io)
    requires ReadSync(fs, PathOf(e, opt), e.dir, io).out.Ok?
    ensures GetStatesL(e, Promise, fs, None, opt, io).out == Ok([])
    ensures GetStatesL(e, Blocking, fs, None, opt, io).out == Err(TypeError)
  {
  }

  /** Round trip on the default file: `setState(k, v)` then `getState(k, d)`
      gives the string form of `v`, in both conventions; only for a
      `__proto__` key the file does not own is the assignment ignored, and
      then the default comes back. */
  lemma {:induction false} LegacySetStateThenGetState(e: LegacyEnv, mode: Mode, fs: FsMap, k: string, v: JsValue, d: JsValue,
                                                      io: Io, next: Io)
    requires HealthyJson(fs, e.defaultPath, io) && io.writeOk && next.readOk
    ensures var s := SetStateL(e, mode, fs, Str(k), v, None, io);
      var doc := fs[e.defaultPath].doc;
      && s.out == Ok(true)
      && GetStateL(e, mode, s.fs, Str(k), d, None, next).out == Ok(if Assignable(doc, k) then ToStr(v) else ToStr(d))
  {
    var doc := fs[e.defaultPath].doc;
    HealthyLegacyLoad(e, mode, fs, None, io);
    AssignKeepsJson(doc, k, ToStr(v));
    var s := SetStateL(e, mode, fs, Str(k), v, None, io);
    assert s.fs == fs[e.defaultPath := Parsed(Assign(doc, k, Str(ToStr(v))))];
    LegacyGetStateOnHealthyFile(e, mode, s.fs, k, d, None, next);
  }

  /** The round trip on the default file from any starting file: whenever
      `setState(k, v)` reports `true`, a later `getState(k, d)` gives the
      string form of `v`, unless `k` is a `__proto__` the loaded document did
      not own. */
  lemma {:induction false} LegacySetStateThenGetStateOnAnyFile(e: LegacyEnv, mode: Mode, fs: FsMap, k: string, v: JsValue,
                                                               d: JsValue, io: Io, next: Io)
    requires next.readOk
    ensures var s := SetStateL(e, mode, fs, Str(k), v, None, io);
      s.out == Ok(true) ==>
        GetStateL(e, mode, s.fs, Str(k), d, None, next).out
        == Ok(if Assignable(LoadL(e, mode, fs, None, io).out.value, k) then ToStr(v) else ToStr(d))
  {
    var s := SetStateL(e, mode, fs, Str(k), v, None, io);
    SetStateWritesAssignedDocument(e, mode, fs, Str(k), v, None, io);
    if s.out == Ok(true) {
      var l := LoadL(e, mode, fs, None, io);
      var updated := Assign(l.out.value, k, Str(ToStr(v)));
      AssignSurvivesJson(l.out.value, k, ToStr(v));
      assert s.fs[e.defaultPath] == Parsed(JsonDoc(updated));
      LegacyGetStateOnHealthyFile(e, mode, s.fs, k, d, None, next);
    }
  }

  /** The store object the root factory returns. Its paths are constants; the
      file system is the only state its methods change. */
  class LegacyStore {
    const lib: Host
    const disk: Disk
    const preferenceFileDir: string
    const defPreferenceFilePath: string

    function Env(): LegacyEnv
      reads this
    {
      LegacyEnv(lib, preferenceFileDir, defPreferenceFilePath)
    }

    constructor (lib: Host, disk: Disk, dir: string, defaultPath: string)
      ensures Env() == LegacyEnv(lib, dir, defaultPath) && this.disk == disk
    {
      this.lib := lib;
      this.disk := disk;
      preferenceFileDir := dir;
      defPreferenceFilePath := defaultPath;
    }

    /** The factory of index.js:37-55: throws when `path.join` does. */
    static method Create(config: Config, lib: Host, disk: Disk) returns (r: Result<LegacyStore>)
      ensures r.Err? <==> config.preferenceFileDir.None?
      ensures r.Ok? ==> fresh(r.value) && r.value.disk == disk
      ensures r.Ok? ==> r.value.Env() == LegacyEnv(lib, config.preferenceFileDir.value, LegacyDefaultPath(lib, config).value)
    {
      var path := LegacyDefaultPath(lib, config);
      if path.Err? {
        return Err(path.error);
      }
      var store := new LegacyStore(lib, disk, config.preferenceFileDir.value, path.value);
      return Ok(store);
    }

    /** `getDefaultPreferenceFilePath` (index.js:77): the constant. */
    method GetDefaultPreferenceFilePath() returns (p: string)
      ensures p == Env().defaultPath
    {
      p := defPreferenceFilePath;
    }

    /** `getPreferencesSync` / `getPreferences` (index.js:137-204). */
    method GetPreferences(mode: Mode, opt: Option<string>, io: Io) returns (r: Result<Doc>)
      modifies disk
      ensures var s := LoadL(Env(), mode, old(disk.entries), opt, io); r == s.out && disk.entries == s.fs
    {
      var fileName := if Truthy(opt) then lib.join(preferenceFileDir, opt.value) else defPreferenceFilePath;
      assert fileName == PathOf(Env(), opt);
      if Healthy(disk.entries, fileName, io) {
        return Ok(disk.entries[fileName].doc);
      }
      if mode == Blocking {
        if fileName in disk.entries {
          var written := WriteFile(disk.entries, fileName, EmptyDoc, io);
          if !written.out {
            return Err(IoError);
          }
          disk.entries := written.fs;
          return Ok(EmptyDoc);
        }
        var made := Mkdir(disk.entries, preferenceFileDir, io);
        if !made.out {
          return Err(IoError);
        }
        disk.entries := made.fs;
        return Ok(EmptyDoc);
      }
      var attempt := OpenExclusive(disk.entries, fileName, io);
      match attempt.out {
        case Created =>
          disk.entries := WriteFile(attempt.fs, fileName, EmptyDoc, io).fs;
        case NoEnt =>
          disk.entries := Mkdir(disk.entries, preferenceFileDir, io).fs;
        case _ =>
      }
      return Ok(EmptyDoc);
    }

    /** `setPreferencesSync` / `setPreferences` (index.js:207-235). */
    method SetPreferences(doc: Doc, opt: Option<string>, io: Io) returns (written: bool)
      modifies disk
      ensures var s := StoreL(Env(), old(disk.entries), doc, opt, io); written == s.out && disk.entries == s.fs
    {
      var fileName := if Truthy(opt) then lib.join(preferenceFileDir, opt.value) else defPreferenceFilePath;
      var w := WriteFile(disk.entries, fileName, doc, io);
      disk.entries := w.fs;
      written := w.out;
    }

    /** `deserializeSync` / `deserialize` (index.js:80-89). */
    method Deserialize(mode: Mode, opt: Option<string>, io: Io) returns (r: Result<string>)
      modifies disk
      ensures var s := DeserializeL(Env(), mode, old(disk.entries), opt, io); r == s.out && disk.entries == s.fs
    {
      var loaded := GetPreferences(mode, opt, io);
      r := match loaded
        case Err(err) => Err(err)
        case Ok(doc) => Ok(lib.stringify(doc));
    }

    /** `deleteFileSync` / `deleteFile` (index.js:96-133): returns nothing. */
    method DeleteFile(opt: Option<string>, io: Io)
      modifies disk
      ensures disk.entries == DeleteFileL(Env(), old(disk.entries), opt, io)
    {
      var file := if Truthy(opt) then lib.join(preferenceFileDir, opt.value) else defPreferenceFilePath;
      disk.entries := Unlink(disk.entries, file, io).fs;
    }

    /** `hasKeySync` / `hasKey` (index.js:242-259). */
    method HasKey(mode: Mode, key: JsValue, opt: Option<string>, io: Io) returns (r: Result<bool>)
      modifies disk
      ensures var s := HasKeyL(Env(), mode, old(disk.entries), key, opt, io); r == s.out && disk.entries == s.fs
    {
      var loaded := GetPreferences(mode, opt, io);
      r := match loaded
        case Err(err) => Err(err)
        case Ok(doc) => Ok(Documents.HasKey(doc, key));
    }

    /** `getStateSync` / `getState` (index.js:270-295). */
    method GetState(mode: Mode, key: JsValue, default: JsValue, opt: Option<string>, io: Io) returns (r: Result<string>)
      modifies disk
      ensures var s := GetStateL(Env(), mode, old(disk.entries), key, default, opt, io); r == s.out && disk.entries == s.fs
    {
      var found := HasKey(mode, key, opt, io);
      if found.Err? {
        return Err(found.error);
      }
      if !found.value {
        return Ok(ToStr(default));
      }
      var loaded := GetPreferences(mode, opt, io);
      r := match loaded
        case Err(err) => Err(err)
        case Ok(doc) => Ok(ToStr(Lookup(doc, ToStr(key))));
    }

    /** `getStatesSync` / `getStates` (index.js:306-338). */
    method GetStates(mode: Mode, keys: Option<seq<JsValue>>, opt: Option<string>, io: Io) returns (r: Result<seq<string>>)
      modifies disk
      ensures var s := GetStatesL(Env(), mode, old(disk.entries), keys, opt, io); r == s.out && disk.entries == s.fs
    {
      var loaded := GetPreferences(mode, opt, io);
      if loaded.Err? {
        return Err(loaded.error);
      }
      match keys {
        case Some(ks) => r := Ok(StatesOf(loaded.value, ks));
        case None => r := if mode == Blocking then Err(TypeError) else Ok([]);
      }
    }

    /** `setStateSync` / `setState` (index.js:349-372). */
    method SetState(mode: Mode, key: JsValue, value: JsValue, opt: Option<string>, io: Io) returns (r: Result<bool>)
      modifies disk
      ensures var s := SetStateL(Env(), mode, old(disk.entries), key, value, opt, io); r == s.out && disk.entries == s.fs
    {
      var loaded := GetPreferences(mode, opt, io);
      if loaded.Err? {
        return Err(loaded.error);
      }
      var pref := Assign(loaded.value, ToStr(key), Str(ToStr(value)));
      var written := SetPreferences(pref, if mode == Blocking then None else opt, io);
      return Ok(written);
    }

    /** `setStatesSync` / `setStates` (index.js:382-413). */
    method SetStates(mode: Mode, states: States, opt: Option<string>, io: Io) returns (r: Result<seq<string>>)
      modifies disk
      ensures var s := SetStatesL(Env(), mode, old(disk.entries), states, opt, io); r == s.out && disk.entries == s.fs
    {
      var loaded := GetPreferences(mode, opt, io);
      if loaded.Err? {
        return Err(loaded.error);
      }
      var pref, inserted := InsertStates(loaded.value, states);
      var written := SetPreferences(pref, if mode == Blocking then None else opt, io);
      return Ok(if mode == Promise || written then inserted else []);
    }

    /** `deleteKeySync` / `deleteKey` (index.js:421-453). */
    method DeleteKey(mode: Mode, key: JsValue, opt: Option<string>, io: Io) returns (r: Result<bool>)
      modifies disk
      ensures var s := DeleteKeyL(Env(), mode, old(disk.entries), key, opt, io); r == s.out && disk.entries == s.fs
    {
      var target := if mode == Blocking then None else opt;
      var loaded := GetPreferences(mode, target, io);
      if loaded.Err? {
        return Err(loaded.error);
      }
      var found := HasKey(mode, key, opt, io);
      if found.Err? {
        return Err(found.error);
      }
      if !found.value {
        return Ok(true);
      }
      var written := SetPreferences(loaded.value - {ToStr(key)}, target, io);
      return Ok(written);
    }
  }
}
