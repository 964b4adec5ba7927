/** The store object of src/index.js. The factory's closure variables become
    the fields of `PreferenceStore`, and the file system it shares with every
    other store is a `Disk`. Each method follows its JavaScript function call
    by call. Each is proved to give the result, and to leave the fields and the
    disk, that the matching function of PreferenceSpec describes; the
    properties of those functions are proved in PreferenceProperties.

    A callback's arguments become the method's result: `Ok(Reply(err, value))`
    is the call `callbackfn(err, value)`, and `Err(e)` a synchronous throw. */
module Preferences {
  import opened Base
  import opened JsValues
  import opened Documents
  import opened FileSystem
  import opened NodeHost
  import opened PreferenceSpec

  class PreferenceStore {
    /** Node's `path` and `JSON` functions and the `FILE_EXT` constant. */
    const lib: Host
    /** The file system the store reads and writes. */
    const disk: Disk

    var preferenceFileDir: Option<string>
    var fileName: Option<string>
    var fileExt: Option<string>
    var defaultPreferenceFilePath: Option<string>
    var optionalPreferenceFilePath: Option<string>

    /** The closure variables as a value. */
    function Closure(): Paths
      reads this
    {
      Paths(preferenceFileDir, fileName, fileExt, defaultPreferenceFilePath, optionalPreferenceFilePath)
    }

    /** The closure variables together with the file system. */
    function Current(): World
      reads this, disk
    {
      World(Closure(), disk.entries)
    }

    ghost predicate Valid()
      reads this
    {
      WellFormed(Closure())
    }

    /** `__exports(config)` (src/index.js:36-48). */
    constructor (config: Config, lib: Host, disk: Disk)
      ensures Valid()
      ensures Closure() == InitialPaths(lib, config)
      ensures this.lib == lib && this.disk == disk
    {
      this.lib := lib;
      this.disk := disk;
      var dir, name, pfn := config.preferenceFileDir, config.fileName, config.preferenceFileName;
      preferenceFileDir := dir;
      fileName := name;
      fileExt := config.fileExt;
      if (Truthy(dir) && Truthy(pfn)) || (Truthy(dir) && Truthy(name) && Truthy(config.fileExt)) {
        var ext := if Truthy(config.fileExt) then config.fileExt.value else lib.defaultFileExt;
        var file := if Truthy(pfn) then pfn.value else Template(name) + "." + ext;
        defaultPreferenceFilePath := Some(lib.join(dir.value, file));
      } else {
        defaultPreferenceFilePath := None;
      }
      optionalPreferenceFilePath := None;
    }

    // ----- Paths -----

    /** `getPreferenceFilePath(optionalFileName)` (src/index.js:50-62). */
    method GetPreferenceFilePath(opt: Option<string>) returns (r: Result<string>)
      requires Valid()
      modifies this
      ensures Valid()
      ensures var res := ResolvePath(lib, old(Closure()), opt);
        && (res.Ok? ==> r == Ok(res.value.0) && Closure() == res.value.1)
        && (res.Err? ==> r == Err(res.error) && Closure() == old(Closure()))
    {
      if !Truthy(defaultPreferenceFilePath) {
        return Err(InitializationError);
      }
      if Truthy(opt) {
        var joinedPath := lib.normalize(lib.join(preferenceFileDir.value, opt.value));
        optionalPreferenceFilePath := Some(joinedPath);
        return Ok(joinedPath);
      }
      return Ok(lib.normalize(defaultPreferenceFilePath.value));
    }

    /** `getDefaultPreferenceFilePath()` (src/index.js:69-71). */
    method GetDefaultPreferenceFilePath() returns (r: Result<string>)
      ensures r == DefaultPathOf(lib, Closure())
    {
      match defaultPreferenceFilePath
      case None => r := Err(TypeError);
      case Some(p) => r := Ok(lib.normalize(p));
    }

    /** `getTempPreferenceOptionalFilePath()` (src/index.js:81-83). */
    method GetTempPreferenceOptionalFilePath() returns (r: Result<string>)
      ensures r == OptionalPathOf(lib, Closure())
    {
      match optionalPreferenceFilePath
      case None => r := Err(TypeError);
      case Some(p) => r := Ok(lib.normalize(p));
    }

    /** `setDefaultPreferenceFilePath(filePath)` (src/index.js:91-111). */
    method SetDefaultPreferenceFilePath(filePath: string) returns (r: Result<string>)
      requires Valid()
      modifies this
      ensures Valid()
      ensures var o := SetDefaultStep(lib, old(Current()), filePath);
        r == o.out && Closure() == o.world.paths
    {
      if Truthy(defaultPreferenceFilePath) {
        return Err(UnModifiableStateError);
      }
      if filePath in disk.entries && disk.entries[filePath].Dir? {
        return Err(IllegalStateError);
      }
      preferenceFileDir := Some(lib.dirname(filePath));
      var extname := lib.extname(filePath);
      fileExt := Some(extname);
      var basename := lib.basename(filePath);
      fileName := Some(FileNameFromBase(basename, extname));
      defaultPreferenceFilePath := Some(filePath);
      return Ok(filePath);
    }

    // ----- Loading and storing the whole document -----

    /** `getPreferencesSync(optionalFileName)` (src/index.js:267-291). */
    method GetPreferencesSync(opt: Option<string>, io: Io) returns (r: Result<Doc>)
      requires Valid()
      modifies this, disk
      ensures Valid()
      ensures var o := Load(lib, Blocking, old(Current()), opt, io); r == o.out && Current() == o.world
    {
      var filePath := GetPreferenceFilePath(opt);
      if filePath.Err? {
        return Err(filePath.error);
      }
      var p := filePath.value;
      if Healthy(disk.entries, p, io) {
        return Ok(disk.entries[p].doc);
      }
      if p in disk.entries {
        var written := WriteFile(disk.entries, p, EmptyDoc, io);
        if !written.out {
          return Err(IoError);
        }
        disk.entries := written.fs;
        return Ok(EmptyDoc);
      }
      var made := Mkdir(disk.entries, preferenceFileDir.value, io);
      if !made.out {
        return Err(IoError);
      }
      disk.entries := made.fs;
      return Ok(EmptyDoc);
    }

    /** `getPreferences(optionalFileName)` (src/index.js:226-264). */
    method GetPreferences(opt: Option<string>, io: Io) returns (r: Result<Doc>)
      requires Valid()
      modifies this, disk
      ensures Valid()
      ensures var o := Load(lib, Promise, old(Current()), opt, io); r == o.out && Current() == o.world
    {
      var filePath := GetPreferenceFilePath(opt);
      if filePath.Err? {
        return Err(filePath.error);
      }
      var p := filePath.value;
      if Healthy(disk.entries, p, io) {
        return Ok(disk.entries[p].doc);
      }
      var attempt := OpenExclusive(disk.entries, p, io);
      match attempt.out {
        case Created =>
          disk.entries := WriteFile(attempt.fs, p, EmptyDoc, io).fs;
        case Exists =>
        case NoEnt =>
          disk.entries := Mkdir(disk.entries, preferenceFileDir.value, io).fs;
        case OtherError =>
      }
      return Ok(EmptyDoc);
    }

    /** `getPreferencesWithCallback(optionalFileName, callbackfn)`
        (src/index.js:294-328). The unlink of a corrupt file goes through
        `deleteFile_c`, which resolves the same path again. */
    method GetPreferencesWithCallback(opt: Option<string>, io: Io) returns (r: Result<Loaded>)
      requires Valid()
      modifies this, disk
      ensures Valid()
      ensures var o := LoadCallback(lib, old(Current()), opt, io); r == o.out && Current() == o.world
    {
      var filePath := GetPreferenceFilePath(opt);
      if filePath.Err? {
        return Err(filePath.error);
      }
      var p := filePath.value;
      if Readable(disk.entries, p, io) {
        if disk.entries[p].Parsed? {
          return Ok(Loaded(None, disk.entries[p].doc));
        }
        var unlinked := Unlink(disk.entries, p, io);
        disk.entries := unlinked.fs;
        return Ok(Loaded(if unlinked.out then None else Some(IoError), EmptyDoc));
      }
      var attempt := OpenExclusive(disk.entries, p, io);
      if attempt.out == Created {
        var written := WriteFile(attempt.fs, p, EmptyDoc, io);
        disk.entries := written.fs;
        return Ok(Loaded(if written.out then None else Some(IoError), EmptyDoc));
      }
      var made := Mkdir(attempt.fs, p, io);
      disk.entries := made.fs;
      return Ok(Loaded(if made.out then None else Some(IoError), EmptyDoc));
    }

    /** `setPreferencesSync` (src/index.js:345-356). */
    method SetPreferencesSync(doc: Doc, opt: Option<string>, io: Io) returns (r: Result<bool>)
      requires Valid()
      modifies this, disk
      ensures Valid()
      ensures var o := StoreDoc(lib, old(Current()), doc, opt, io); r == o.out && Current() == o.world
    {
      var filePath := GetPreferenceFilePath(opt);
      if filePath.Err? {
        return Err(filePath.error);
      }
      var written := WriteFile(disk.entries, filePath.value, doc, io);
      disk.entries := written.fs;
      return Ok(written.out);
    }

    /** `setPreferences` (src/index.js:331-342): the same steps, awaited. */
    method SetPreferences(doc: Doc, opt: Option<string>, io: Io) returns (r: Result<bool>)
      requires Valid()
      modifies this, disk
      ensures Valid()
      ensures var o := StoreDoc(lib, old(Current()), doc, opt, io); r == o.out && Current() == o.world
    {
      r := SetPreferencesSync(doc, opt, io);
    }

    /** `setPreferencesWithCallback` (src/index.js:359-365). */
    method SetPreferencesWithCallback(doc: Doc, opt: Option<string>, io: Io) returns (r: Result<Reply<bool>>)
      requires Valid()
      modifies this, disk
      ensures Valid()
      ensures var o := StoreCallback(lib, old(Current()), doc, opt, io); r == o.out && Current() == o.world
    {
      var stored := SetPreferencesSync(doc, opt, io);
      r := match stored
        case Err(e) => Err(e)
        case Ok(b) => Ok(Reply(if b then None else Some(IoError), Some(b)));
    }

    // ----- Whole-file operations -----

    /** `serializeSync` (src/index.js:142-144) and `serialize`
        (src/index.js:120-122): replace the whole document. */
    method Serialize(mode: Mode, doc: Doc, opt: Option<string>, io: Io) returns (r: Result<bool>)
      requires Valid()
      modifies this, disk
      ensures Valid()
      ensures var o := StoreDoc(lib, old(Current()), doc, opt, io); r == o.out && Current() == o.world
    {
      if mode == Blocking {
        r := SetPreferencesSync(doc, opt, io);
      } else {
        r := SetPreferences(doc, opt, io);
      }
    }

    /** `serialize_c` (src/index.js:131-133). */
    method SerializeWithCallback(doc: Doc, opt: Option<string>, io: Io) returns (r: Result<Reply<bool>>)
      requires Valid()
      modifies this, disk
      ensures Valid()
      ensures var o := StoreCallback(lib, old(Current()), doc, opt, io); r == o.out && Current() == o.world
    {
      r := SetPreferencesWithCallback(doc, opt, io);
    }

    /** `deserializeSync` (src/index.js:162-164) and `deserialize`
        (src/index.js:152-154). */
    method Deserialize(mode: Mode, opt: Option<string>, io: Io) returns (r: Result<string>)
      requires Valid()
      modifies this, disk
      ensures Valid()
      ensures var o := DeserializeStep(lib, mode, old(Current()), opt, io); r == o.out && Current() == o.world
    {
      var loaded;
      if mode == Blocking {
        loaded := GetPreferencesSync(opt, io);
      } else {
        loaded := GetPreferences(opt, io);
      }
      r := match loaded
        case Err(e) => Err(e)
        case Ok(doc) => Ok(lib.stringify(doc));
    }

    /** `deserialize_c` (src/index.js:173-175): the callback gets the document. */
    method DeserializeWithCallback(opt: Option<string>, io: Io) returns (r: Result<Reply<Doc>>)
      requires Valid()
      modifies this, disk
      ensures Valid()
      ensures var o := DeserializeCallbackStep(lib, old(Current()), opt, io); r == o.out && Current() == o.world
    {
      var loaded := GetPreferencesWithCallback(opt, io);
      r := match loaded
        case Err(e) => Err(e)
        case Ok(l) => Ok(Reply(l.error, Some(l.doc)));
    }

    /** `deleteFileSync` (src/index.js:200-210) and `deleteFile`
        (src/index.js:183-192). */
    method DeleteFile(opt: Option<string>, io: Io) returns (r: Result<bool>)
      requires Valid()
      modifies this, disk
      ensures Valid()
      ensures var o := DeleteFileStep(lib, old(Current()), opt, io); r == o.out && Current() == o.world
    {
      var filePath := GetPreferenceFilePath(opt);
      if filePath.Err? {
        return Err(filePath.error);
      }
      var unlinked := Unlink(disk.entries, filePath.value, io);
      disk.entries := unlinked.fs;
      return Ok(unlinked.out);
    }

    /** `deleteFile_c` (src/index.js:219-223). */
    method DeleteFileWithCallback(opt: Option<string>, io: Io) returns (r: Result<Reply<bool>>)
      requires Valid()
      modifies this, disk
      ensures Valid()
      ensures var o := DeleteFileCallbackStep(lib, old(Current()), opt, io); r == o.out && Current() == o.world
    {
      var deleted := DeleteFile(opt, io);
      r := match deleted
        case Err(e) => Err(e)
        case Ok(b) => Ok(Reply(if b then None else Some(IoError), Some(b)));
    }

    // ----- Key operations, synchronous and promise conventions -----

    /** Load in the given convention. */
    method LoadIn(mode: Mode, opt: Option<string>, io: Io) returns (r: Result<Doc>)
      requires Valid()
      modifies this, disk
      ensures Valid()
      ensures var o := Load(lib, mode, old(Current()), opt, io); r == o.out && Current() == o.world
    {
      if mode == Blocking {
        r := GetPreferencesSync(opt, io);
      } else {
        r := GetPreferences(opt, io);
      }
    }

    /** `hasKeySync` (src/index.js:387-391) and `hasKey` (src/index.js:374-378). */
    method HasKey(mode: Mode, key: JsValue, opt: Option<string>, io: Io) returns (r: Result<bool>)
      requires Valid()
      modifies this, disk
      ensures Valid()
      ensures var o := HasKeyStep(lib, mode, old(Current()), key, opt, io); r == o.out && Current() == o.world
    {
      var loaded := LoadIn(mode, opt, io);
      r := match loaded
        case Err(e) => Err(e)
        case Ok(doc) => Ok(Documents.HasKey(doc, key));
    }

    /** `getStateSync` (src/index.js:436-443) and `getState` (src/index.js:416-426). */
    method GetState(mode: Mode, key: JsValue, default: JsValue, opt: Option<string>, io: Io) returns (r: Result<string>)
      requires Valid()
      modifies this, disk
      ensures Valid()
      ensures var o := GetStateStep(lib, mode, old(Current()), key, default, opt, io); r == o.out && Current() == o.world
    {
      var found := HasKey(mode, key, opt, io);
      if found.Err? {
        return Err(found.error);
      }
      if !found.value {
        return Ok(ToStr(default));
      }
      var loaded := LoadIn(mode, opt, io);
      r := match loaded
        case Err(e) => Err(e)
        case Ok(doc) => Ok(ToStr(Lookup(doc, ToStr(key))));
    }

    /** `getStatesSync` (src/index.js:493-502) and `getStates` (src/index.js:476-484). */
    method GetStates(mode: Mode, keys: seq<JsValue>, opt: Option<string>, io: Io) returns (r: Result<seq<string>>)
      requires Valid()
      modifies this, disk
      ensures Valid()
      ensures var o := GetStatesStep(lib, mode, old(Current()), keys, opt, io); r == o.out && Current() == o.world
    {
      var loaded := LoadIn(mode, opt, io);
      r := match loaded
        case Err(e) => Err(e)
        case Ok(doc) => Ok(StatesOf(doc, keys));
    }

    /** `setStateSync` (src/index.js:534-540) and `setState` (src/index.js:550-556). */
    method SetState(mode: Mode, key: JsValue, value: JsValue, opt: Option<string>, io: Io) returns (r: Result<bool>)
      requires Valid()
      modifies this, disk
      ensures Valid()
      ensures var o := SetStateStep(lib, mode, old(Current()), key, value, opt, io); r == o.out && Current() == o.world
    {
      var loaded := LoadIn(mode, opt, io);
      if loaded.Err? {
        return Err(loaded.error);
      }
      ghost var loadedState := Current();
      var doc := Assign(loaded.value, ToStr(key), Str(ToStr(value)));
      assert SetStateStep(lib, mode, old(Current()), key, value, opt, io) == StoreDoc(lib, loadedState, doc, opt, io);
      r := SetPreferencesSync(doc, opt, io);
    }

    /** `setStatesSync` (src/index.js:604-613) and `setStates` (src/index.js:586-595). */
    method SetStates(mode: Mode, states: States, opt: Option<string>, io: Io) returns (r: Result<seq<string>>)
      requires Valid()
      modifies this, disk
      ensures Valid()
      ensures var o := SetStatesStep(lib, mode, old(Current()), states, opt, io); r == o.out && Current() == o.world
    {
      var loaded := LoadIn(mode, opt, io);
      if loaded.Err? {
        return Err(loaded.error);
      }
      var doc, inserted := InsertStates(loaded.value, states);
      var stored := SetPreferencesSync(doc, opt, io);
      r := match stored
        case Err(e) => Err(e)
        case Ok(written) => Ok(if written then inserted else []);
    }

    /** `deleteKeySync` (src/index.js:674-686) and `deleteKey` (src/index.js:653-665,
        awaited form): the synchronous variant loads the default file first. */
    method DeleteKey(mode: Mode, key: JsValue, opt: Option<string>, io: Io) returns (r: Result<bool>)
      requires Valid()
      modifies this, disk
      ensures Valid()
      ensures var o := DeleteKeyStep(lib, mode, old(Current()), key, opt, io); r == o.out && Current() == o.world
    {
      var loaded := LoadIn(mode, if mode == Blocking then None else opt, io);
      if loaded.Err? {
        return Err(loaded.error);
      }
      var found := HasKey(mode, key, opt, io);
      if found.Err? {
        return Err(found.error);
      }
      if !found.value {
        return Ok(true);
      }
      r := SetPreferencesSync(loaded.value - {ToStr(key)}, opt, io);
    }

    // ----- Key operations, callback convention -----

    /** `hasKey_c` (src/index.js:400-406). */
    method HasKeyWithCallback(key: JsValue, opt: Option<string>, io: Io) returns (r: Result<Reply<bool>>)
      requires Valid()
      modifies this, disk
      ensures Valid()
      ensures var o := HasKeyCallbackStep(lib, old(Current()), key, opt, io); r == o.out && Current() == o.world
    {
      var loaded := GetPreferencesWithCallback(opt, io);
      r := match loaded
        case Err(e) => Err(e)
        case Ok(l) =>
          if l.error.Some? then Ok(Reply(l.error, None))
          else Ok(Reply(None, Some(Documents.HasKey(l.doc, key))));
    }

    /** `getState_c` (src/index.js:453-467). */
    method GetStateWithCallback(key: JsValue, default: JsValue, opt: Option<string>, io: Io)
      returns (r: Result<Reply<JsValue>>)
      requires Valid()
      modifies this, disk
      ensures Valid()
      ensures var o := GetStateCallbackStep(lib, old(Current()), key, default, opt, io); r == o.out && Current() == o.world
    {
      var found := HasKeyWithCallback(key, opt, io);
      if found.Err? {
        return Err(found.error);
      }
      var reply := found.value;
      if reply.error.Some? {
        return Ok(Reply(reply.error, Some(default)));
      }
      if reply.value != Some(true) {
        return Ok(Reply(None, Some(Str(ToStr(default)))));
      }
      var loaded := GetPreferencesWithCallback(opt, io);
      r := match loaded
        case Err(e) => Err(e)
        case Ok(l) => Ok(Reply(l.error, Some(Str(ToStr(Lookup(l.doc, ToStr(key)))))));
    }

    /** `getStates_c` (src/index.js:511-524). */
    method GetStatesWithCallback(keys: seq<JsValue>, opt: Option<string>, io: Io) returns (r: Result<Reply<seq<string>>>)
      requires Valid()
      modifies this, disk
      ensures Valid()
      ensures var o := GetStatesCallbackStep(lib, old(Current()), keys, opt, io); r == o.out && Current() == o.world
    {
      var loaded := GetPreferencesWithCallback(opt, io);
      r := match loaded
        case Err(e) => Err(e)
        case Ok(l) =>
          if l.error.Some? then Ok(Reply(l.error, None))
          else Ok(Reply(None, Some(StatesOf(l.doc, keys))));
    }

    /** `setState_c` (src/index.js:566-577). */
    method SetStateWithCallback(key: JsValue, value: JsValue, opt: Option<string>, io: Io) returns (r: Result<Reply<bool>>)
      requires Valid()
      modifies this, disk
      ensures Valid()
      ensures var o := SetStateCallbackStep(lib, old(Current()), key, value, opt, io); r == o.out && Current() == o.world
    {
      var loaded := GetPreferencesWithCallback(opt, io);
      if loaded.Err? {
        return Err(loaded.error);
      }
      var l := loaded.value;
      if l.error.Some? {
        return Ok(Reply(l.error, None));
      }
      r := SetPreferencesWithCallback(Assign(l.doc, ToStr(key), Str(ToStr(value))), opt, io);
    }

    /** `setStates_c` (src/index.js:622-644). */
    method SetStatesWithCallback(states: States, opt: Option<string>, io: Io) returns (r: Result<Reply<seq<string>>>)
      requires Valid()
      modifies this, disk
      ensures Valid()
      ensures var o := SetStatesCallbackStep(lib, old(Current()), states, opt, io); r == o.out && Current() == o.world
    {
      var loaded := GetPreferencesWithCallback(opt, io);
      if loaded.Err? {
        return Err(loaded.error);
      }
      var l := loaded.value;
      if l.error.Some? {
        return Ok(Reply(l.error, None));
      }
      var doc, inserted := InsertStates(l.doc, states);
      var stored := SetPreferencesWithCallback(doc, opt, io);
      r := match stored
        case Err(e) => Err(e)
        case Ok(reply) =>
          if reply.value == Some(true) then Ok(Reply(reply.error, Some(inserted)))
          else Ok(Reply(reply.error, None));
    }

    /** `deleteKey_c` (src/index.js:695-713): the key is deleted from the loaded
        document only, which is then dropped. */
    method DeleteKeyWithCallback(key: JsValue, opt: Option<string>, io: Io) returns (r: Result<Reply<bool>>)
      requires Valid()
      modifies this, disk
      ensures Valid()
      ensures var o := DeleteKeyCallbackStep(lib, old(Current()), key, opt, io); r == o.out && Current() == o.world
    {
      var loaded := GetPreferencesWithCallback(opt, io);
      if loaded.Err? {
        return Err(loaded.error);
      }
      if loaded.value.error.Some? {
        return Ok(Reply(loaded.value.error, None));
      }
      var found := HasKeyWithCallback(key, opt, io);
      r := match found
        case Err(e) => Err(e)
        case Ok(reply) => Ok(Reply(reply.error, Some(true)));
    }
  }
}
