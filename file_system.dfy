/** The file system under the store, as a map from path to entry, and the
    three ways the store loads a preference file: synchronously, with promises,
    and with callbacks. Each variant repairs a missing or unreadable file
    differently; the functions below follow src/index.js:226-328 branch by branch.

    Whether an individual I/O call succeeds is decided by an oracle `Io`,
    fixed for one public operation. */
module FileSystem {
  import opened Base
  import opened Documents

  /** A regular file whose text parses as a JSON object (`doc` is what
      `JSON.parse` gives), a regular file whose text does not (an empty file
      is one), or a directory. */
  datatype Entry = Parsed(doc: Doc) | Corrupt | Dir

  type FsMap = map<string, Entry>

  /** Why an exclusive create (`open(path, "wx+")`) of an absent path fails:
      it does not, the parent directory is missing (ENOENT), or anything else. */
  datatype OpenFault = NoFault | MissingParent | Denied

  /** Which I/O calls succeed. A read of a directory, a write to a directory,
      an unlink of a missing path or of a directory, and an exclusive create of
      an existing path fail whatever the oracle says. */
  datatype Io = Io(readOk: bool, openFault: OpenFault, writeOk: bool, mkdirOk: bool, unlinkOk: bool)

  /** A result together with the file system after the call. */
  datatype Step<+T> = Step(out: T, fs: FsMap)

  /** What the callback variant hands to its continuation: an error or `null`,
      and the document (`{}` whenever there is an error). */
  datatype Loaded = Loaded(error: Option<Error>, doc: Doc)

  datatype OpenOutcome = Created | Exists | NoEnt | OtherError

  /** The shared file system that every store instance reads and writes. */
  class Disk {
    var entries: FsMap

    constructor (entries: FsMap)
      ensures this.entries == entries
    {
      this.entries := entries;
    }
  }

  const EmptyDoc: Doc := map[]

  /** `readFile(p)` succeeds. */
  predicate Readable(fs: FsMap, p: string, io: Io)
  {
    io.readOk && p in fs && !fs[p].Dir?
  }

  /** `readFile(p)` succeeds and `JSON.parse` accepts the text. */
  predicate Healthy(fs: FsMap, p: string, io: Io)
  {
    Readable(fs, p, io) && fs[p].Parsed?
  }

  /** `p` is healthy and holds a document `JSON.parse` can produce. */
  predicate HealthyJson(fs: FsMap, p: string, io: Io)
  {
    Healthy(fs, p, io) && IsJsonDoc(fs[p].doc)
  }

  /** `writeFile(p, ...)` succeeds: the oracle allows it and `p` is no directory. */
  predicate Writable(fs: FsMap, p: string, io: Io)
  {
    io.writeOk && !(p in fs && fs[p].Dir?)
  }

  /** `writeFile(p, JSON.stringify(doc))`: replaces the whole file with text
      that parses back as `JsonDoc(doc)`. */
  function WriteFile(fs: FsMap, p: string, doc: Doc, io: Io): (s: Step<bool>)
    ensures s.out <==> Writable(fs, p, io)
    ensures s.fs == if s.out then fs[p := Parsed(JsonDoc(doc))] else fs
  {
    if Writable(fs, p, io) then Step(true, fs[p := Parsed(JsonDoc(doc))])
    else Step(false, fs)
  }

  /** `mkdir(d, { recursive: true })`: succeeds at once on an existing
      directory, fails on an existing file. */
  function Mkdir(fs: FsMap, d: string, io: Io): Step<bool>
  {
    if d in fs then Step(fs[d].Dir?, fs)
    else if io.mkdirOk then Step(true, fs[d := Dir])
    else Step(false, fs)
  }

  /** `unlink(p)`: removes a file. */
  function Unlink(fs: FsMap, p: string, io: Io): Step<bool>
  {
    if p in fs && !fs[p].Dir? && io.unlinkOk then Step(true, fs - {p})
    else Step(false, fs)
  }

  /** `open(p, "wx+")`: creates an empty file, which is not valid JSON. */
  function OpenExclusive(fs: FsMap, p: string, io: Io): Step<OpenOutcome>
  {
    if p in fs then Step(Exists, fs)
    else
      match io.openFault
      case NoFault => Step(Created, fs[p := Corrupt])
      case MissingParent => Step(NoEnt, fs)
      case Denied => Step(OtherError, fs)
  }

  /** `getPreferencesSync` after path resolution (src/index.js:271-290): on a
      failed read or parse, an existing path is overwritten with `{}`; a
      missing one only gets the configured directory `dir` created. A failing
      repair throws. */
  function ReadSync(fs: FsMap, p: string, dir: string, io: Io): (s: Step<Result<Doc>>)
    ensures Healthy(fs, p, io) ==> s == Step(Ok(fs[p].doc), fs)
    ensures !Healthy(fs, p, io) && s.out.Ok? ==> s.out.value == EmptyDoc
    ensures forall q :: q != p && q != dir ==> (q in s.fs <==> q in fs) && (q in fs ==> s.fs[q] == fs[q])
  {
    if Healthy(fs, p, io) then Step(Ok(fs[p].doc), fs)
    else if p in fs then
      var w := WriteFile(fs, p, EmptyDoc, io);
      if w.out then Step(Ok(EmptyDoc), w.fs) else Step(Err(IoError), fs)
    else
      var m := Mkdir(fs, dir, io);
      if m.out then Step(Ok(EmptyDoc), m.fs) else Step(Err(IoError), fs)
  }

  /** `getPreferences` after path resolution (src/index.js:230-263): on a failed
      read or parse, an exclusive create; an existing path is left as it is
      (EEXIST); a missing parent gets the configured directory `dir` created;
      every failure is swallowed. */
  function ReadAsync(fs: FsMap, p: string, dir: string, io: Io): (s: Step<Doc>)
    ensures Healthy(fs, p, io) ==> s == Step(fs[p].doc, fs)
    ensures !Healthy(fs, p, io) ==> s.out == EmptyDoc
    ensures forall q :: q != p && q != dir ==> (q in s.fs <==> q in fs) && (q in fs ==> s.fs[q] == fs[q])
  {
    if Healthy(fs, p, io) then Step(fs[p].doc, fs)
    else
      var o := OpenExclusive(fs, p, io);
      match o.out
      case Created => Step(EmptyDoc, WriteFile(o.fs, p, EmptyDoc, io).fs)
      case Exists => Step(EmptyDoc, fs)
      case NoEnt => Step(EmptyDoc, Mkdir(fs, dir, io).fs)
      case OtherError => Step(EmptyDoc, fs)
  }

  /** `getPreferencesWithCallback` after path resolution (src/index.js:298-327):
      a file that reads but does not parse is unlinked; on a failed read, an
      exclusive create, and when that fails, `mkdir` of the file path itself.
      The error of the last step reaches the callback with `{}`. */
  function ReadCallback(fs: FsMap, p: string, io: Io): (s: Step<Loaded>)
    ensures Healthy(fs, p, io) ==> s == Step(Loaded(None, fs[p].doc), fs)
    ensures !Healthy(fs, p, io) ==> s.out.doc == EmptyDoc
    ensures forall q :: q != p ==> (q in s.fs <==> q in fs) && (q in fs ==> s.fs[q] == fs[q])
  {
    if Readable(fs, p, io) then
      if fs[p].Parsed? then Step(Loaded(None, fs[p].doc), fs)
      else
        var u := Unlink(fs, p, io);
        Step(Loaded(if u.out then None else Some(IoError), EmptyDoc), u.fs)
    else
      var o := OpenExclusive(fs, p, io);
      match o.out
      case Created =>
        var w := WriteFile(o.fs, p, EmptyDoc, io);
        Step(Loaded(if w.out then None else Some(IoError), EmptyDoc), w.fs)
      case _ =>
        var m := Mkdir(o.fs, p, io);
        Step(Loaded(if m.out then None else Some(IoError), EmptyDoc), m.fs)
  }

  /** A document written successfully is what every variant then loads,
      after the JSON round trip; a JSON document comes back unchanged. */
  lemma WrittenDocumentLoadsBack(fs: FsMap, p: string, doc: Doc, dir: string, io: Io, next: Io)
    requires WriteFile(fs, p, doc, io).out && next.readOk
    ensures var fs' := WriteFile(fs, p, doc, io).fs;
      && ReadSync(fs', p, dir, next) == Step(Ok(JsonDoc(doc)), fs')
      && ReadAsync(fs', p, dir, next) == Step(JsonDoc(doc), fs')
      && ReadCallback(fs', p, next) == Step(Loaded(None, JsonDoc(doc)), fs')
    ensures IsJsonDoc(doc) ==> ReadSync(WriteFile(fs, p, doc, io).fs, p, dir, next).out == Ok(doc)
  {
    JsonDocIsJson(doc);
  }

  /** A failed write changes nothing. */
  lemma FailedWriteChangesNothing(fs: FsMap, p: string, doc: Doc, io: Io)
    requires !WriteFile(fs, p, doc, io).out
    ensures WriteFile(fs, p, doc, io).fs == fs
  {
  }

  /** Synchronous repair: an existing unreadable or corrupt file is replaced by
      `{}` when the write succeeds; a missing file is NOT created, only the
      configured directory is; a failed repair surfaces as an error. */
  lemma SyncRepair(fs: FsMap, p: string, dir: string, io: Io)
    requires !Healthy(fs, p, io)
    ensures var s := ReadSync(fs, p, dir, io);
      && (p in fs && !fs[p].Dir? && io.writeOk ==> s == Step(Ok(EmptyDoc), fs[p := Parsed(EmptyDoc)]))
      && (p in fs && fs[p].Dir? ==> s == Step(Err(IoError), fs))
      && (p !in fs && p != dir ==> p !in s.fs)
      && (p !in fs && io.mkdirOk && dir !in fs ==> s == Step(Ok(EmptyDoc), fs[dir := Dir]))
      && (s.out.Err? <==> if p in fs then WriteFile(fs, p, EmptyDoc, io).out == false else !Mkdir(fs, dir, io).out)
  {
  }

  /** Promise repair: an existing path is never touched, so a corrupt file stays
      corrupt; a missing file is created with `{}`, or left empty (still not
      valid JSON) when the write after the create fails; no failure surfaces. */
  lemma AsyncRepair(fs: FsMap, p: string, dir: string, io: Io)
    requires !Healthy(fs, p, io)
    ensures var s := ReadAsync(fs, p, dir, io);
      && (p in fs ==> s == Step(EmptyDoc, fs))
      && (p !in fs && io.openFault == NoFault && io.writeOk ==> s == Step(EmptyDoc, fs[p := Parsed(EmptyDoc)]))
      && (p !in fs && io.openFault == NoFault && !io.writeOk ==> s == Step(EmptyDoc, fs[p := Corrupt]))
      && (p !in fs && io.openFault == Denied ==> s == Step(EmptyDoc, fs))
  {
  }

  /** Callback repair: a corrupt file that reads is deleted; a missing path
      whose create fails becomes a DIRECTORY (mkdir of the file path itself);
      a path that exists but cannot be read reports an error. */
  lemma CallbackRepair(fs: FsMap, p: string, io: Io)
    requires !Healthy(fs, p, io)
    ensures var s := ReadCallback(fs, p, io);
      && (Readable(fs, p, io) && io.unlinkOk ==> s == Step(Loaded(None, EmptyDoc), fs - {p}))
      && (p !in fs && io.openFault == NoFault && io.writeOk ==> s == Step(Loaded(None, EmptyDoc), fs[p := Parsed(EmptyDoc)]))
      && (p !in fs && io.openFault != NoFault && io.mkdirOk ==> s == Step(Loaded(None, EmptyDoc), fs[p := Dir]))
      && (p in fs && fs[p].Dir? ==> s == Step(Loaded(None, EmptyDoc), fs))
      && (p in fs && !fs[p].Dir? && !io.readOk ==> s == Step(Loaded(Some(IoError), EmptyDoc), fs))
  {
  }

  /** Once the callback repair has made a directory of the preference path,
      the synchronous load of that path throws, while the callback load keeps
      answering `{}` without error. */
  lemma DirectoryLeftByCallbackBreaksSyncLoad(fs: FsMap, p: string, dir: string, io: Io, next: Io)
    requires p !in fs && io.openFault != NoFault && io.mkdirOk
    ensures var fs' := ReadCallback(fs, p, io).fs;
      && ReadSync(fs', p, dir, next) == Step(Err(IoError), fs')
      && ReadCallback(fs', p, next) == Step(Loaded(None, EmptyDoc), fs')
  {
  }
}
