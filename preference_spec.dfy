/** The preference API of src/index.js as functions over the closure state and
    the file system: the configuration state and its set-once default path,
    path resolution, and one function per public operation giving its result
    and the state it leaves. The class in preferences.dfy is proved to follow
    these functions; the lemmas at the end state what they promise. */
module PreferenceSpec {
  import opened Base
  import opened JsValues
  import opened JsStrings
  import opened Documents
  import opened FileSystem
  import opened NodeHost

  /** The options read by the factory (src/index.js:37). */
  datatype Config = Config(
    preferenceFileDir: Option<string>,
    preferenceFileName: Option<string>,
    fileName: Option<string>,
    fileExt: Option<string>)

  /** The closure variables: the configuration the default path came from,
      the default path itself, and the last optional path resolved. */
  datatype Paths = Paths(
    preferenceFileDir: Option<string>,
    fileName: Option<string>,
    fileExt: Option<string>,
    defaultPath: Option<string>,
    optionalPath: Option<string>)

  /** The default path is usable: `if (!defaultPreferenceFilePath)` does not throw. */
  predicate Initialized(ps: Paths)
  {
    Truthy(ps.defaultPath)
  }

  /** A usable default path always comes with a directory to resolve optional
      file names against. */
  predicate WellFormed(ps: Paths)
  {
    Initialized(ps) ==> ps.preferenceFileDir.Some?
  }

  /** Everything but the recorded optional path is the same. */
  predicate KeepsConfiguration(before: Paths, after: Paths)
  {
    && before.preferenceFileDir == after.preferenceFileDir
    && before.fileName == after.fileName
    && before.fileExt == after.fileExt
    && before.defaultPath == after.defaultPath
  }

  /** The state an operation works on: closure variables and file system. */
  datatype World = World(paths: Paths, fs: FsMap)

  /** A result together with the state after the operation. */
  datatype Outcome<+T> = Outcome(out: T, world: World)

  /** The synchronous and the promise-based calling conventions share every
      operation's structure and differ in how a file is loaded. */
  datatype Mode = Blocking | Promise

  /** The closure state right after `__exports(config)` (src/index.js:37-48).
      The fallback `Constants.FILE_EXT` cannot take effect: the guard already
      demands a truthy `fileExt`. */
  function InitialPaths(h: Host, c: Config): (ps: Paths)
    ensures ps.defaultPath.Some? <==>
      (Truthy(c.preferenceFileDir) && Truthy(c.preferenceFileName))
      || (Truthy(c.preferenceFileDir) && Truthy(c.fileName) && Truthy(c.fileExt))
    ensures ps.defaultPath.Some? ==> ps.defaultPath.value == h.join(c.preferenceFileDir.value,
      if Truthy(c.preferenceFileName) then c.preferenceFileName.value else c.fileName.value + "." + c.fileExt.value)
    ensures ps.preferenceFileDir == c.preferenceFileDir && ps.fileName == c.fileName && ps.fileExt == c.fileExt
    ensures ps.optionalPath == None
    ensures WellFormed(ps)
  {
    var defaultPath :=
      if (Truthy(c.preferenceFileDir) && Truthy(c.preferenceFileName))
        || (Truthy(c.preferenceFileDir) && Truthy(c.fileName) && Truthy(c.fileExt))
      then
        var ext := if Truthy(c.fileExt) then c.fileExt.value else h.defaultFileExt;
        Some(h.join(c.preferenceFileDir.value,
          if Truthy(c.preferenceFileName) then c.preferenceFileName.value else Template(c.fileName) + "." + ext))
      else None;
    Paths(c.preferenceFileDir, c.fileName, c.fileExt, defaultPath, None)
  }

  /** `getPreferenceFilePath(optionalFileName)` (src/index.js:50-62): the path
      and the closure state afterwards. */
  function ResolvePath(h: Host, ps: Paths, opt: Option<string>): (r: Result<(string, Paths)>)
    requires WellFormed(ps)
    ensures r.Err? <==> !Initialized(ps)
    ensures r.Err? ==> r.error == InitializationError
    ensures r.Ok? ==> KeepsConfiguration(ps, r.value.1) && WellFormed(r.value.1)
    ensures r.Ok? && Truthy(opt) ==>
      && r.value.0 == h.normalize(h.join(ps.preferenceFileDir.value, opt.value))
      && r.value.1 == ps.(optionalPath := Some(r.value.0))
    ensures r.Ok? && !Truthy(opt) ==> r.value == (h.normalize(ps.defaultPath.value), ps)
  {
    if !Initialized(ps) then Err(InitializationError)
    else if Truthy(opt) then
      var joined := h.normalize(h.join(ps.preferenceFileDir.value, opt.value));
      Ok((joined, ps.(optionalPath := Some(joined))))
    else Ok((h.normalize(ps.defaultPath.value), ps))
  }

  /** `getDefaultPreferenceFilePath()`: `path.normalize` throws on `undefined`. */
  function DefaultPathOf(h: Host, ps: Paths): (r: Result<string>)
    ensures r.Err? <==> ps.defaultPath.None?
    ensures Initialized(ps) ==> r == Ok(h.normalize(ps.defaultPath.value))
  {
    match ps.defaultPath
    case None => Err(TypeError)
    case Some(p) => Ok(h.normalize(p))
  }

  /** `getTempPreferenceOptionalFilePath()`: the last optional path resolved. */
  function OptionalPathOf(h: Host, ps: Paths): (r: Result<string>)
    ensures r.Err? <==> ps.optionalPath.None?
    ensures ps.optionalPath.Some? ==> r == Ok(h.normalize(ps.optionalPath.value))
  {
    match ps.optionalPath
    case None => Err(TypeError)
    case Some(p) => Ok(h.normalize(p))
  }

  /** `basename.substring(0, basename.indexOf(extname))` (src/index.js:108):
      the base name up to the first occurrence of the extension, and empty
      when the extension is empty or does not occur. */
  function FileNameFromBase(base: string, ext: string): (name: string)
    ensures name <= base
    ensures forall j :: 0 <= j < |name| ==> !OccursAt(base, ext, j)
    ensures OccursAt(base, ext, |name|) || (name == "" && forall j :: !OccursAt(base, ext, j))
    ensures ext == "" ==> name == ""
  {
    var at := IndexOf(base, ext);
    assert ext == "" ==> OccursAt(base, ext, 0);
    Substring(base, 0, at)
  }

  /** For a base name that is a stem followed by its extension, with no earlier
      occurrence of the extension, the file name is the stem. */
  lemma FileNameOfStemAndExtension(stem: string, ext: string)
    requires ext != ""
    requires forall j :: 0 <= j < |stem| ==> !OccursAt(stem + ext, ext, j)
    ensures FileNameFromBase(stem + ext, ext) == stem
  {
    var base := stem + ext;
    assert OccursAt(base, ext, |stem|) by {
      assert base[|stem|..|stem| + |ext|] == ext;
    }
    var name := FileNameFromBase(base, ext);
    assert |name| == |stem|;
  }

  /** `setDefaultPreferenceFilePath(filePath)` (src/index.js:91-111). `statSync`
      fails on a missing path and that error is swallowed; only an existing
      path that is not a regular file is refused. */
  function SetDefaultStep(h: Host, w: World, filePath: string): (o: Outcome<Result<string>>)
    requires WellFormed(w.paths)
    ensures Initialized(w.paths) ==> o == Outcome(Err(UnModifiableStateError), w)
    ensures !Initialized(w.paths) ==> (o.out == Err(IllegalStateError) <==> filePath in w.fs && w.fs[filePath].Dir?)
    ensures o.out.Err? ==> o.world == w
    ensures o.out.Ok? ==> o.out.value == filePath && o.world.fs == w.fs
    ensures o.out.Ok? ==> o.world.paths == Paths(
      Some(h.dirname(filePath)),
      Some(FileNameFromBase(h.basename(filePath), h.extname(filePath))),
      Some(h.extname(filePath)),
      Some(filePath),
      w.paths.optionalPath)
    ensures WellFormed(o.world.paths)
  {
    if Initialized(w.paths) then Outcome(Err(UnModifiableStateError), w)
    else if filePath in w.fs && w.fs[filePath].Dir? then Outcome(Err(IllegalStateError), w)
    else
      var ext := h.extname(filePath);
      var name := FileNameFromBase(h.basename(filePath), ext);
      var ps := Paths(Some(h.dirname(filePath)), Some(name), Some(ext), Some(filePath), w.paths.optionalPath);
      Outcome(Ok(filePath), World(ps, w.fs))
  }

  /** `getPreferencesSync` / `getPreferences` (src/index.js:226-291): resolve,
      then load with the convention's repair. */
  function Load(h: Host, mode: Mode, w: World, opt: Option<string>, io: Io): (o: Outcome<Result<Doc>>)
    requires WellFormed(w.paths)
    ensures WellFormed(o.world.paths) && KeepsConfiguration(w.paths, o.world.paths)
    ensures o.out == Err(InitializationError) <==> !Initialized(w.paths)
    ensures !Initialized(w.paths) ==> o.world == w
    ensures mode == Promise ==> o.out.Ok? || o.out == Err(InitializationError)
  {
    match ResolvePath(h, w.paths, opt)
    case Err(e) => Outcome(Err(e), w)
    case Ok((p, ps)) =>
      var dir := ps.preferenceFileDir.value;
      if mode == Blocking then
        var s := ReadSync(w.fs, p, dir, io);
        Outcome(s.out, World(ps, s.fs))
      else
        var s := ReadAsync(w.fs, p, dir, io);
        Outcome(Ok(s.out), World(ps, s.fs))
  }

  /** `getPreferencesWithCallback` (src/index.js:294-328): a throw while
      resolving is synchronous; load errors go to the callback. */
  function LoadCallback(h: Host, w: World, opt: Option<string>, io: Io): (o: Outcome<Result<Loaded>>)
    requires WellFormed(w.paths)
    ensures WellFormed(o.world.paths) && KeepsConfiguration(w.paths, o.world.paths)
    ensures o.out.Err? <==> !Initialized(w.paths)
    ensures o.out.Err? ==> o == Outcome(Err(InitializationError), w)
  {
    match ResolvePath(h, w.paths, opt)
    case Err(e) => Outcome(Err(e), w)
    case Ok((p, ps)) =>
      var s := ReadCallback(w.fs, p, io);
      Outcome(Ok(s.out), World(ps, s.fs))
  }

  /** `setPreferencesSync` / `setPreferences` / `serialize*` (src/index.js:331-356):
      the whole document replaces the file; a failed write gives `false`. */
  function StoreDoc(h: Host, w: World, doc: Doc, opt: Option<string>, io: Io): (o: Outcome<Result<bool>>)
    requires WellFormed(w.paths)
    ensures WellFormed(o.world.paths) && KeepsConfiguration(w.paths, o.world.paths)
    ensures o.out.Err? <==> !Initialized(w.paths)
    ensures o.out.Err? ==> o == Outcome(Err(InitializationError), w)
    ensures o.out.Ok? ==>
      var r := ResolvePath(h, w.paths, opt).value;
      && o.out == Ok(Writable(w.fs, r.0, io))
      && o.world == World(r.1, if Writable(w.fs, r.0, io) then w.fs[r.0 := Parsed(JsonDoc(doc))] else w.fs)
    ensures o.out == Ok(false) ==> o.world.fs == w.fs
  {
    match ResolvePath(h, w.paths, opt)
    case Err(e) => Outcome(Err(e), w)
    case Ok((p, ps)) =>
      var s := WriteFile(w.fs, p, doc, io);
      Outcome(Ok(s.out), World(ps, s.fs))
  }

  /** `setPreferencesWithCallback` (src/index.js:359-365): `callbackfn(err, !err)`. */
  function StoreCallback(h: Host, w: World, doc: Doc, opt: Option<string>, io: Io): (o: Outcome<Result<Reply<bool>>>)
    requires WellFormed(w.paths)
    ensures WellFormed(o.world.paths) && KeepsConfiguration(w.paths, o.world.paths)
    ensures o.out.Ok? ==> o.out.value.value.Some? && (o.out.value.error.None? <==> o.out.value.value.value)
    ensures var s := StoreDoc(h, w, doc, opt, io);
      && o.world == s.world
      && (o.out.Ok? <==> s.out.Ok?)
      && (s.out.Ok? ==> o.out.value.value == Some(s.out.value))
  {
    var s := StoreDoc(h, w, doc, opt, io);
    match s.out
    case Err(e) => Outcome(Err(e), s.world)
    case Ok(b) => Outcome(Ok(Reply(if b then None else Some(IoError), Some(b))), s.world)
  }

  // ----- Operations in the synchronous and promise conventions -----

  /** `deleteFileSync` / `deleteFile` (src/index.js:183-210): unlink; failure gives `false`. */
  function DeleteFileStep(h: Host, w: World, opt: Option<string>, io: Io): (o: Outcome<Result<bool>>)
    requires WellFormed(w.paths)
    ensures WellFormed(o.world.paths) && KeepsConfiguration(w.paths, o.world.paths)
    ensures o.out.Err? <==> !Initialized(w.paths)
    ensures o.out.Ok? ==>
      var p := ResolvePath(h, w.paths, opt).value.0;
      o.out.value <==> (p in w.fs && p !in o.world.fs)
  {
    match ResolvePath(h, w.paths, opt)
    case Err(e) => Outcome(Err(e), w)
    case Ok((p, ps)) =>
      var s := Unlink(w.fs, p, io);
      Outcome(Ok(s.out), World(ps, s.fs))
  }

  /** `deserializeSync` / `deserialize` (src/index.js:152-164): the loaded
      document as JSON text. */
  function DeserializeStep(h: Host, mode: Mode, w: World, opt: Option<string>, io: Io): (o: Outcome<Result<string>>)
    requires WellFormed(w.paths)
    ensures WellFormed(o.world.paths) && KeepsConfiguration(w.paths, o.world.paths)
    ensures var l := Load(h, mode, w, opt, io);
      o.world == l.world && (o.out.Ok? <==> l.out.Ok?) && (l.out.Ok? ==> o.out.value == h.stringify(l.out.value))
  {
    var l := Load(h, mode, w, opt, io);
    match l.out
    case Err(e) => Outcome(Err(e), l.world)
    case Ok(doc) => Outcome(Ok(h.stringify(doc)), l.world)
  }

  /** `hasKeySync` / `hasKey` (src/index.js:374-391). */
  function HasKeyStep(h: Host, mode: Mode, w: World, key: JsValue, opt: Option<string>, io: Io): (o: Outcome<Result<bool>>)
    requires WellFormed(w.paths)
    ensures WellFormed(o.world.paths) && KeepsConfiguration(w.paths, o.world.paths)
    ensures var l := Load(h, mode, w, opt, io);
      o.world == l.world && (o.out.Ok? <==> l.out.Ok?) && (l.out.Ok? ==> (o.out.value <==> HasKey(l.out.value, key)))
  {
    var l := Load(h, mode, w, opt, io);
    match l.out
    case Err(e) => Outcome(Err(e), l.world)
    case Ok(doc) => Outcome(Ok(HasKey(doc, key)), l.world)
  }

  /** `getStateSync` / `getState` (src/index.js:416-443): `hasKey` loads the
      file once, and when the key is found the value comes from a second load. */
  function GetStateStep(h: Host, mode: Mode, w: World, key: JsValue, default: JsValue, opt: Option<string>, io: Io)
    : (o: Outcome<Result<string>>)
    requires WellFormed(w.paths)
    ensures WellFormed(o.world.paths) && KeepsConfiguration(w.paths, o.world.paths)
    ensures HasKeyStep(h, mode, w, key, opt, io).out == Ok(false) ==> o.out == Ok(ToStr(default))
    ensures var hk := HasKeyStep(h, mode, w, key, opt, io);
      var l := Load(h, mode, hk.world, opt, io);
      hk.out == Ok(true) && l.out.Ok? ==> o == Outcome(Ok(ToStr(Lookup(l.out.value, ToStr(key)))), l.world)
  {
    var hk := HasKeyStep(h, mode, w, key, opt, io);
    match hk.out
    case Err(e) => Outcome(Err(e), hk.world)
    case Ok(found) =>
      if found then
        var l := Load(h, mode, hk.world, opt, io);
        match l.out
        case Err(e) => Outcome(Err(e), l.world)
        case Ok(doc) => Outcome(Ok(ToStr(Lookup(doc, ToStr(key)))), l.world)
      else Outcome(Ok(ToStr(default)), hk.world)
  }

  /** `getStatesSync` / `getStates` (src/index.js:476-502). */
  function GetStatesStep(h: Host, mode: Mode, w: World, keys: seq<JsValue>, opt: Option<string>, io: Io)
    : (o: Outcome<Result<seq<string>>>)
    requires WellFormed(w.paths)
    ensures WellFormed(o.world.paths) && KeepsConfiguration(w.paths, o.world.paths)
    ensures o.world == Load(h, mode, w, opt, io).world
    ensures o.out.Ok? ==> |o.out.value| == |keys|
    ensures var l := Load(h, mode, w, opt, io);
      && (o.out.Ok? <==> l.out.Ok?)
      && (l.out.Ok? ==> o.out.value == StatesOf(l.out.value, keys))
  {
    var l := Load(h, mode, w, opt, io);
    match l.out
    case Err(e) => Outcome(Err(e), l.world)
    case Ok(doc) => Outcome(Ok(StatesOf(doc, keys)), l.world)
  }

  /** `setStateSync` / `setState` (src/index.js:534-556). */
  function SetStateStep(h: Host, mode: Mode, w: World, key: JsValue, value: JsValue, opt: Option<string>, io: Io)
    : (o: Outcome<Result<bool>>)
    requires WellFormed(w.paths)
    ensures WellFormed(o.world.paths) && KeepsConfiguration(w.paths, o.world.paths)
    ensures var l := Load(h, mode, w, opt, io);
      l.out.Ok? ==>
        var p := ResolvePath(h, w.paths, opt).value.0;
        var written := Writable(l.world.fs, p, io);
        && o.out == Ok(written)
        && o.world.fs == if written then l.world.fs[p := Parsed(JsonDoc(Assign(l.out.value, ToStr(key), Str(ToStr(value)))))] else l.world.fs
    ensures var l := Load(h, mode, w, opt, io);
      l.out.Err? ==> o == Outcome(Err(l.out.error), l.world)
  {
    var l := Load(h, mode, w, opt, io);
    match l.out
    case Err(e) => Outcome(Err(e), l.world)
    case Ok(doc) => StoreDoc(h, l.world, Assign(doc, ToStr(key), Str(ToStr(value))), opt, io)
  }

  /** `setStatesSync` / `setStates` (src/index.js:586-613): the inserted
      values in key order when the write succeeds, `[]` when it fails. */
  function SetStatesStep(h: Host, mode: Mode, w: World, states: States, opt: Option<string>, io: Io)
    : (o: Outcome<Result<seq<string>>>)
    requires WellFormed(w.paths)
    ensures WellFormed(o.world.paths) && KeepsConfiguration(w.paths, o.world.paths)
    ensures var l := Load(h, mode, w, opt, io);
      l.out.Ok? ==>
        var p := ResolvePath(h, w.paths, opt).value.0;
        var written := Writable(l.world.fs, p, io);
        && o.out == Ok(if written then InsertedValues(states) else [])
        && o.world.fs == if written then l.world.fs[p := Parsed(JsonDoc(ApplyStates(l.out.value, states)))] else l.world.fs
    ensures var l := Load(h, mode, w, opt, io);
      l.out.Err? ==> o == Outcome(Err(l.out.error), l.world)
  {
    var l := Load(h, mode, w, opt, io);
    match l.out
    case Err(e) => Outcome(Err(e), l.world)
    case Ok(doc) =>
      var s := StoreDoc(h, l.world, ApplyStates(doc, states), opt, io);
      match s.out
      case Err(e) => Outcome(Err(e), s.world)
      case Ok(written) => Outcome(Ok(if written then InsertedValues(states) else []), s.world)
  }

  /** `deleteKeySync` / `deleteKey` (src/index.js:653-686). The document is
      loaded first, then `hasKey` loads again; an absent key gives `true`
      without a write. The synchronous variant loads that first document from
      the DEFAULT file whatever `opt` says, and writes it to the resolved path. */
  function DeleteKeyStep(h: Host, mode: Mode, w: World, key: JsValue, opt: Option<string>, io: Io)
    : (o: Outcome<Result<bool>>)
    requires WellFormed(w.paths)
    ensures WellFormed(o.world.paths) && KeepsConfiguration(w.paths, o.world.paths)
  {
    var first := Load(h, mode, w, if mode == Blocking then None else opt, io);
    match first.out
    case Err(e) => Outcome(Err(e), first.world)
    case Ok(doc) =>
      var hk := HasKeyStep(h, mode, first.world, key, opt, io);
      match hk.out
      case Err(e) => Outcome(Err(e), hk.world)
      case Ok(found) =>
        if found then StoreDoc(h, hk.world, doc - {ToStr(key)}, opt, io)
        else Outcome(Ok(true), hk.world)
  }

  // ----- Operations in the callback convention -----

  /** `deleteFile_c` (src/index.js:219-223): `callbackfn(err, !err)`. */
  function DeleteFileCallbackStep(h: Host, w: World, opt: Option<string>, io: Io): (o: Outcome<Result<Reply<bool>>>)
    requires WellFormed(w.paths)
    ensures WellFormed(o.world.paths) && KeepsConfiguration(w.paths, o.world.paths)
    ensures o.world == DeleteFileStep(h, w, opt, io).world
    ensures o.out.Ok? ==> var d := DeleteFileStep(h, w, opt, io).out;
      d.Ok? && o.out.value == Reply(if d.value then None else Some(IoError), Some(d.value))
  {
    var d := DeleteFileStep(h, w, opt, io);
    match d.out
    case Err(e) => Outcome(Err(e), d.world)
    case Ok(b) => Outcome(Ok(Reply(if b then None else Some(IoError), Some(b))), d.world)
  }

  /** `deserialize_c` (src/index.js:173-175): hands the callback the loaded
      document itself, not its JSON text. */
  function DeserializeCallbackStep(h: Host, w: World, opt: Option<string>, io: Io): (o: Outcome<Result<Reply<Doc>>>)
    requires WellFormed(w.paths)
    ensures WellFormed(o.world.paths) && KeepsConfiguration(w.paths, o.world.paths)
    ensures var l := LoadCallback(h, w, opt, io);
      && o.world == l.world
      && (o.out.Err? <==> l.out.Err?)
      && (l.out.Ok? ==> o.out.value == Reply(l.out.value.error, Some(l.out.value.doc)))
  {
    var l := LoadCallback(h, w, opt, io);
    match l.out
    case Err(e) => Outcome(Err(e), l.world)
    case Ok(loaded) => Outcome(Ok(Reply(loaded.error, Some(loaded.doc))), l.world)
  }

  /** `hasKey_c` (src/index.js:400-406): an error reaches the callback alone. */
  function HasKeyCallbackStep(h: Host, w: World, key: JsValue, opt: Option<string>, io: Io): (o: Outcome<Result<Reply<bool>>>)
    requires WellFormed(w.paths)
    ensures WellFormed(o.world.paths) && KeepsConfiguration(w.paths, o.world.paths)
    ensures o.world == LoadCallback(h, w, opt, io).world
    ensures o.out.Ok? ==> (o.out.value.error.None? <==> o.out.value.value.Some?)
    ensures var l := LoadCallback(h, w, opt, io);
      && (l.out.Err? ==> o.out == Err(l.out.error))
      && (l.out.Ok? && l.out.value.error.Some? ==> o.out == Ok(Reply(l.out.value.error, None)))
      && (l.out.Ok? && l.out.value.error.None? ==> o.out == Ok(Reply(None, Some(HasKey(l.out.value.doc, key)))))
  {
    var l := LoadCallback(h, w, opt, io);
    match l.out
    case Err(e) => Outcome(Err(e), l.world)
    case Ok(loaded) =>
      if loaded.error.Some? then Outcome(Ok(Reply(loaded.error, None)), l.world)
      else Outcome(Ok(Reply(None, Some(HasKey(loaded.doc, key)))), l.world)
  }

  /** `getState_c` (src/index.js:453-467): on a load error the callback gets
      the default value as passed, not its string form. */
  function GetStateCallbackStep(h: Host, w: World, key: JsValue, default: JsValue, opt: Option<string>, io: Io)
    : (o: Outcome<Result<Reply<JsValue>>>)
    requires WellFormed(w.paths)
    ensures WellFormed(o.world.paths) && KeepsConfiguration(w.paths, o.world.paths)
    ensures o.out.Ok? ==> o.out.value.value.Some?
    ensures var hk := HasKeyCallbackStep(h, w, key, opt, io);
      && (hk.out.Ok? && hk.out.value.error.Some? ==> o == Outcome(Ok(Reply(hk.out.value.error, Some(default))), hk.world))
      && (hk.out == Ok(Reply(None, Some(false))) ==> o == Outcome(Ok(Reply(None, Some(Str(ToStr(default))))), hk.world))
      && (hk.out == Ok(Reply(None, Some(true))) && LoadCallback(h, hk.world, opt, io).out.Ok? ==>
            var l := LoadCallback(h, hk.world, opt, io);
            o == Outcome(Ok(Reply(l.out.value.error, Some(Str(ToStr(Lookup(l.out.value.doc, ToStr(key))))))), l.world))
  {
    var hk := HasKeyCallbackStep(h, w, key, opt, io);
    match hk.out
    case Err(e) => Outcome(Err(e), hk.world)
    case Ok(reply) =>
      if reply.error.Some? then Outcome(Ok(Reply(reply.error, Some(default))), hk.world)
      else if reply.value == Some(true) then
        var l := LoadCallback(h, hk.world, opt, io);
        match l.out
        case Err(e) => Outcome(Err(e), l.world)
        case Ok(loaded) => Outcome(Ok(Reply(loaded.error, Some(Str(ToStr(Lookup(loaded.doc, ToStr(key))))))), l.world)
      else Outcome(Ok(Reply(None, Some(Str(ToStr(default))))), hk.world)
  }

  /** `getStates_c` (src/index.js:511-524). */
  function GetStatesCallbackStep(h: Host, w: World, keys: seq<JsValue>, opt: Option<string>, io: Io)
    : (o: Outcome<Result<Reply<seq<string>>>>)
    requires WellFormed(w.paths)
    ensures WellFormed(o.world.paths) && KeepsConfiguration(w.paths, o.world.paths)
    ensures o.world == LoadCallback(h, w, opt, io).world
    ensures o.out.Ok? && o.out.value.value.Some? ==> |o.out.value.value.value| == |keys|
    ensures var l := LoadCallback(h, w, opt, io);
      l.out.Ok? ==> && o.out.Ok?
                    && (o.out.value.value.Some? <==> l.out.value.error.None?)
                    && o.out.value.error == l.out.value.error
                    && (l.out.value.error.None? ==> o.out.value.value == Some(StatesOf(l.out.value.doc, keys)))
  {
    var l := LoadCallback(h, w, opt, io);
    match l.out
    case Err(e) => Outcome(Err(e), l.world)
    case Ok(loaded) =>
      if loaded.error.Some? then Outcome(Ok(Reply(loaded.error, None)), l.world)
      else Outcome(Ok(Reply(None, Some(StatesOf(loaded.doc, keys)))), l.world)
  }

  /** `setState_c` (src/index.js:566-577). */
  function SetStateCallbackStep(h: Host, w: World, key: JsValue, value: JsValue, opt: Option<string>, io: Io)
    : (o: Outcome<Result<Reply<bool>>>)
    requires WellFormed(w.paths)
    ensures WellFormed(o.world.paths) && KeepsConfiguration(w.paths, o.world.paths)
    ensures var l := LoadCallback(h, w, opt, io);
      l.out.Ok? && l.out.value.error.None? ==>
        var p := ResolvePath(h, w.paths, opt).value.0;
        var written := Writable(l.world.fs, p, io);
        && o.out == Ok(Reply(if written then None else Some(IoError), Some(written)))
        && o.world.fs == if written then l.world.fs[p := Parsed(JsonDoc(Assign(l.out.value.doc, ToStr(key), Str(ToStr(value)))))] else l.world.fs
    ensures var l := LoadCallback(h, w, opt, io);
      l.out.Ok? && l.out.value.error.Some? ==> o == Outcome(Ok(Reply(l.out.value.error, None)), l.world)
    ensures var l := LoadCallback(h, w, opt, io);
      l.out.Err? ==> o == Outcome(Err(l.out.error), l.world)
  {
    var l := LoadCallback(h, w, opt, io);
    match l.out
    case Err(e) => Outcome(Err(e), l.world)
    case Ok(loaded) =>
      if loaded.error.Some? then Outcome(Ok(Reply(loaded.error, None)), l.world)
      else StoreCallback(h, l.world, Assign(loaded.doc, ToStr(key), Str(ToStr(value))), opt, io)
  }

  /** `setStates_c` (src/index.js:622-644): the inserted values only when the
      write succeeded; otherwise the callback gets the error alone. */
  function SetStatesCallbackStep(h: Host, w: World, states: States, opt: Option<string>, io: Io)
    : (o: Outcome<Result<Reply<seq<string>>>>)
    requires WellFormed(w.paths)
    ensures WellFormed(o.world.paths) && KeepsConfiguration(w.paths, o.world.paths)
    ensures o.out.Ok? && o.out.value.value.Some? ==> o.out.value.value.value == InsertedValues(states)
    ensures var l := LoadCallback(h, w, opt, io);
      l.out.Ok? && l.out.value.error.None? ==>
        var p := ResolvePath(h, w.paths, opt).value.0;
        var written := Writable(l.world.fs, p, io);
        && o.out.Ok?
        && (o.out.value.value.Some? <==> written)
        && (o.out.value.error.None? <==> written)
        && o.world.fs == if written then l.world.fs[p := Parsed(JsonDoc(ApplyStates(l.out.value.doc, states)))] else l.world.fs
    ensures var l := LoadCallback(h, w, opt, io);
      l.out.Ok? && l.out.value.error.Some? ==> o == Outcome(Ok(Reply(l.out.value.error, None)), l.world)
  {
    var l := LoadCallback(h, w, opt, io);
    match l.out
    case Err(e) => Outcome(Err(e), l.world)
    case Ok(loaded) =>
      if loaded.error.Some? then Outcome(Ok(Reply(loaded.error, None)), l.world)
      else
        var s := StoreCallback(h, l.world, ApplyStates(loaded.doc, states), opt, io);
        match s.out
        case Err(e) => Outcome(Err(e), s.world)
        case Ok(reply) =>
          if reply.value == Some(true) then Outcome(Ok(Reply(reply.error, Some(InsertedValues(states)))), s.world)
          else Outcome(Ok(Reply(reply.error, None)), s.world)
  }

  /** `deleteKey_c` (src/index.js:695-713): loads, asks `hasKey_c` (a second
      load), deletes only from the in-memory document, and reports `true`
      with the second load's error; nothing is written. */
  function DeleteKeyCallbackStep(h: Host, w: World, key: JsValue, opt: Option<string>, io: Io)
    : (o: Outcome<Result<Reply<bool>>>)
    requires WellFormed(w.paths)
    ensures WellFormed(o.world.paths) && KeepsConfiguration(w.paths, o.world.paths)
    ensures o.out.Ok? && o.out.value.error.None? ==> o.out.value.value == Some(true)
  {
    var l := LoadCallback(h, w, opt, io);
    match l.out
    case Err(e) => Outcome(Err(e), l.world)
    case Ok(loaded) =>
      if loaded.error.Some? then Outcome(Ok(Reply(loaded.error, None)), l.world)
      else
        var hk := HasKeyCallbackStep(h, l.world, key, opt, io);
        match hk.out
        case Err(e) => Outcome(Err(e), hk.world)
        case Ok(reply) => Outcome(Ok(Reply(reply.error, Some(true))), hk.world)
  }
}
