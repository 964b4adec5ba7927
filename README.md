# Preference store: a Dafny model

This project models the preference store of a Node.js settings library. A store keeps one JSON document of
key/value pairs in a file. It offers every operation in three calling
conventions: synchronous, promise-based and callback-based. The core modelled
here is:

- `src/index.js`: the store object built by `__exports(config)`. Its closure
  state is the directory, file name, extension, a set-once default path and
  the last optional path resolved. Its operations are path resolution and
  `setDefaultPreferenceFilePath`, plus every variant of `getPreferences`,
  `setPreferences`, `hasKey`, `getState`, `getStates`, `setState`,
  `setStates`, `deleteKey`, `deleteFile`, `serialize` and `deserialize`.
- `index.js`: the earlier factory. It has a fixed default path and
  un-normalised path joining, and no callback convention.
- `src/util.js`: the argument checks `checkArgs` and `checkArgsP`.

The files and their modules:

| file | module | contents |
|---|---|---|
| base.dfy | `Base` | `Option`, `Result`, the error kinds, the callback `Reply(err, value)`, truthiness of an optional string |
| js_values.dfy | `JsValues` | JavaScript values, truthiness, `${v}` conversion, and `instanceof` including the `!x instanceof C` precedence trap |
| js_strings.dfy | `JsStrings` | `indexOf` and `substring` with their JavaScript edge cases |
| util.dfy | `Util` | `checkArgs`, `checkArgsP` |
| documents.dfy | `Documents` | the preference document (`map<string, JsValue>`), key lookup, `getStates`' mapping, and `setStates`' side-effecting `map` as a loop |
| file_system.dfy | `FileSystem` | the file system as a map from path to entry, the shared `Disk`, and the three load-and-repair procedures |
| host.dfy | `NodeHost` | the library functions the store calls and does not implement (`path.*`, `JSON.stringify`, `FILE_EXT`) |
| preference_spec.dfy | `PreferenceSpec` | the closure state and one function per operation: its result and the state it leaves |
| preference_properties.dfy | `PreferenceProperties` | what the API promises, proved over those functions |
| preferences.dfy | `Preferences` | class `PreferenceStore`: the closure variables as fields and one method per operation, each proved to follow its specification function. A synchronous function and its promise twin share one method with a `Mode` argument; each callback function has its own method |
| legacy_preferences.dfy | `LegacyPreferences` | the earlier factory: specification functions, their properties, and class `LegacyStore` |

The closure state and the file system are modelled as follows:

- **Closure state.** The closure state is `Paths`. `World` pairs it with the
  file system.
- **File entries.** A file is an `Entry`:
  - `Parsed(doc)`: its text parses as a JSON object;
  - `Corrupt`: its text does not parse (an empty file is one);
  - `Dir`: it is a directory.
- **I/O outcomes.** Whether each I/O call succeeds is decided by an `Io`
  record, fixed for one public call. It says whether reads, writes, `mkdir`
  and `unlink` succeed, and why an exclusive `open` fails if it does. Some
  calls fail whatever `Io` says:
  - a read of a directory;
  - a write to a directory;
  - an exclusive create of an existing path.
- **Sync and promise variants.** These are one function with a `Mode`
  (`Blocking` or `Promise`), because they share their structure.
- **Callback variants.** Their results are `Result<Reply<T>>`:
  - `Err(e)` is a synchronous throw;
  - `Ok(Reply(err, value))` is the call `callbackfn(err, value)`.
- **Value conversion.** Values written by `setState`/`setStates` are stored
  as their `${value}` text.
- **Inherited properties.** A document is a plain object, so a key it does
  not own may still name a property of `Object.prototype`, and `getState`
  and `getStates` read it (`Documents.Lookup`):
  - `constructor` is the `Object` function, whose text is
    `function Object() { [native code] }`;
  - `toString`, `valueOf`, `hasOwnProperty` and the other inherited methods
    are functions;
  - `__proto__` is the prototype object, whose text is `[object Object]`.
  Assigning a string to `__proto__` when the document does not own that key
  changes nothing (`Documents.Assign`). `hasKey` uses `Object.keys`, so it
  sees only owned keys.
- **JSON round trip.** A write stores what `JSON.parse` gives back for the
  text `JSON.stringify` wrote (`Documents.JsonDoc`):
  - members holding `undefined` or a function are dropped;
  - a `String` object becomes a string;
  - inside an array, `undefined` and functions become `null`.
  After any write the stored document is one `JSON.parse` can produce
  (`Documents.IsJsonDoc`). The round trip leaves such a document unchanged.

Behaviours of the source that the model keeps as written:

- **The shape guards never fire.** `!states instanceof Array` and
  `!states instanceof Object` apply `instanceof` to a boolean, so they never
  throw (`JsValues.NegatedInstanceOf`). For the same reason `checkArgs` never
  throws and `checkArgsP` never rejects. The operations therefore carry no
  branch for these guards, and the checks themselves are not re-run inside
  each operation.
- **Each convention repairs a broken file differently:**
  - synchronous: rewrites an existing unreadable file with `{}`, but only
    creates the directory for a missing one;
  - promise: creates a missing file with an exclusive open, and never touches
    an existing corrupt one;
  - callback: deletes a corrupt file, and on a failed create runs `mkdir` on
    the file path itself, leaving a directory where the file should be.
- **`deleteKeySync` loads the default file** whatever optional file it is
  given, and writes that document to the optional file.
- **`deleteKey_c` never writes.**
- **`hasKey` compares keys without converting them.** `getState` and
  `getStates` look keys up by their string form.
- **The `FILE_EXT` fallback in `src/index.js` cannot take effect.** The guard
  above it already requires a truthy extension. In the earlier factory, the
  `json` fallback can take effect.
- **In the earlier factory, three synchronous writers ignore the optional
  file.** `setStateSync`, `setStatesSync` and `deleteKeySync` write to the
  default file (index.js:353, 412, 452).
- **In the earlier factory, async `setStates` resolves to the inserted
  values even when its write fails.**

## Model

| member | source | states |
|---|---|---|
| JsValues.FromOption | src/index.js:43 | a configuration option is truthy in JavaScript exactly when it is present and not the empty string |
| JsValues.NegatedInstanceOf | src/util.js:6 | `!x instanceof C` is false for every value `x` and constructor `C`, so a guard written that way never fires |
| JsValues.NatToDecimal | src/index.js:538 | the text `${n}` of a number is a decimal numeral with no leading zero whose value is `n` |
| JsValues.Template | src/index.js:46 | `${name}` is the name itself, or the text "undefined" when the option is missing |
| JsStrings.IndexFrom | src/index.js:108 | the search from a position finds the first occurrence at or after it, or -1 when there is none |
| JsStrings.IndexOf | src/index.js:108 | `indexOf` returns -1 exactly when the needle does not occur; otherwise it returns the first index where it occurs |
| JsStrings.Clamp | src/index.js:108 | an index is clamped into `[0, length]` and is unchanged when already inside it |
| JsStrings.Substring | src/index.js:108 | `substring(start, end)` is the slice when `0 <= start <= end <= length`, and empty when both bounds are at most 0 (as for `indexOf` returning -1) |
| Util.NothingRejected | src/util.js:5-9 | the `forEach` over the arguments reaches its end without finding an argument to reject |
| Util.CheckArgsNeverThrows | src/util.js:4-10 | `checkArgs` returns normally for every argument list |
| Util.CheckArgsP | src/util.js:13-21 | `checkArgsP` always resolves, to the number of arguments, and never rejects |
| Documents.Lookup | src/index.js:421 | a property read gives the document's own value when it has one; otherwise it gives `undefined` exactly when the key is not an inherited name of `Object.prototype` |
| Documents.Assign | src/index.js:538 | assigning a string sets the key and keeps every other property; only for `__proto__` that the document does not own does it change nothing |
| Documents.JsonDoc | src/index.js:334 | the keys that survive `JSON.stringify` are exactly the members whose value is neither `undefined` nor a function |
| Documents.JsonDocIsJson | src/index.js:232 | after the JSON round trip the document is one `JSON.parse` can produce, and a document of that kind is unchanged by the round trip |
| Documents.JsonDocDropsUndefined | src/index.js:334 | a member holding `undefined` is gone after the round trip; a member holding a string is kept as it is |
| Documents.StatesOf | src/index.js:481 | `getStates` gives one string per key, in key order: the text of the property read under the key's string form |
| Documents.MissingStateIsUndefinedText | src/index.js:481 | for a key the document does not own, the text is "undefined" exactly when the key is not an inherited name; `constructor` gives `function Object() { [native code] }` and `__proto__` gives `[object Object]` |
| Documents.MissingPropertyText | src/index.js:421 | reading a key the document does not own gives the text "undefined" exactly when the key is not inherited; `constructor` and `__proto__` give the texts of the `Object` function and of the prototype |
| Documents.InsertedValues | src/index.js:591 | the values `map` collects are the texts of the given values, in key order |
| Documents.AssignKeepsJson | src/index.js:538 | assigning a string to a document `JSON.parse` can produce gives one that the JSON round trip leaves unchanged |
| Documents.AssignSurvivesJson | src/index.js:538-539 | after the JSON round trip, the assigned key is present exactly when the assignment took effect, and then holds the assigned string |
| Documents.ApplyStatesKeys | src/index.js:591 | the assignments leave the old keys plus the given ones, except a `__proto__` the document did not own |
| Documents.ApplyStatesValues | src/index.js:591 | with distinct keys, each given key that can be assigned holds its value's text |
| Documents.ApplyStatesKeepsOthers | src/index.js:591 | every property whose key is not given keeps its value |
| Documents.ApplyStatesOverwritesOnlyGivenKeys | src/index.js:591 | after the assignments the document has the old keys plus the given ones (`__proto__` only when it was owned); each assignable given key holds its value's text and every other property is unchanged |
| Documents.ApplyStatesKeepsJson | src/index.js:591 | the assignments keep a document one that `JSON.parse` can produce |
| Documents.InsertStates | src/index.js:591 | the loop that assigns each value's text into the document and collects the assigned texts yields exactly the document and the list the specification describes |
| FileSystem.ReadSync | src/index.js:267-291 | the synchronous load returns the document of a readable, parsing file without any change; otherwise it returns `{}` or fails, and touches no path other than the file and the directory |
| FileSystem.ReadAsync | src/index.js:226-264 | the promise load returns the document of a readable, parsing file; otherwise it returns `{}`; it touches only the file and the directory |
| FileSystem.ReadCallback | src/index.js:294-328 | the callback load hands over the document of a readable, parsing file with no error; otherwise it hands over `{}`; it touches only the file path (for a continuation that does not throw) |
| FileSystem.WriteFile | src/index.js:348-351 | a write succeeds exactly when writes succeed and the path is not a directory; it then stores the JSON round trip of the document, and otherwise changes nothing |
| FileSystem.WrittenDocumentLoadsBack | src/index.js:350 | after a successful write, each of the three loads returns the JSON round trip of the written document and changes nothing; for a document `JSON.parse` can produce, that is the document itself |
| FileSystem.FailedWriteChangesNothing | src/index.js:352-355 | a write that fails leaves the file system unchanged |
| FileSystem.SyncRepair | src/index.js:278-289 | synchronous repair: an existing broken file becomes `{}`; a missing file is not created, only the directory is; a directory at the path or a failed repair surfaces as an error |
| FileSystem.AsyncRepair | src/index.js:237-262 | promise repair: an existing path is left as it is; a missing file is created holding `{}` (or left empty when the write after the create fails); a refused create changes nothing |
| FileSystem.CallbackRepair | src/index.js:298-327 | callback repair: a corrupt readable file is deleted; a missing file is created holding `{}`; when the create fails the file path becomes a directory; an unreadable existing file reports an error |
| FileSystem.DirectoryLeftByCallbackBreaksSyncLoad | src/index.js:322 | once the callback repair has left a directory at the file path, the synchronous load throws there while the callback load keeps answering `{}` |
| PreferenceSpec.InitialPaths | src/index.js:36-48 | the default path is set exactly when a directory and a file name, or a directory, base name and extension, are truthy; it is the join of the directory and that name; the `FILE_EXT` fallback never takes effect |
| PreferenceSpec.ResolvePath | src/index.js:50-62 | resolution fails with InitializationError exactly when no default path is set; a truthy optional name gives `normalize(join(dir, name))` and is recorded; otherwise the normalised default is returned and nothing changes |
| PreferenceSpec.DefaultPathOf | src/index.js:69-71 | the normalised default path, and a TypeError when there is none |
| PreferenceSpec.OptionalPathOf | src/index.js:81-83 | a TypeError exactly before any optional path was resolved; otherwise the normalised last optional path |
| PreferenceSpec.FileNameFromBase | src/index.js:108 | the derived file name is a prefix of the base name that ends at the first occurrence of the extension, or is empty when the extension is empty or absent |
| PreferenceSpec.FileNameOfStemAndExtension | src/index.js:103-108 | for `stem + ext` with no earlier occurrence of `ext`, the derived file name is the stem |
| PreferenceSpec.SetDefaultStep | src/index.js:91-111 | a second call throws UnModifiableStateError and changes nothing; IllegalStateError is thrown exactly for an existing directory; otherwise dir, extension, file name and default path are set from the argument, which is returned |
| PreferenceSpec.Load | src/index.js:226-291 | a load throws InitializationError exactly when the store is uninitialised, changing nothing then; the promise load has no other failure |
| PreferenceSpec.LoadCallback | src/index.js:294-328 | the only synchronous throw of a callback load is InitializationError, and then nothing changes |
| PreferenceSpec.StoreDoc | src/index.js:331-356 | uninitialised: InitializationError and nothing changed; otherwise `true` exactly when the resolved file is writable, and then that file holds the JSON round trip of the whole document; `false` leaves the file system unchanged |
| PreferenceSpec.StoreCallback | src/index.js:359-365 | leaves the state `StoreDoc` leaves and passes its result: the callback gets an error exactly when it gets `false` |
| PreferenceSpec.DeleteFileStep | src/index.js:183-210 | `deleteFile` returns `true` exactly when the file existed and is gone afterwards |
| PreferenceSpec.DeserializeStep | src/index.js:152-164 | `deserialize` succeeds exactly when the load does, and returns the JSON text of the loaded document |
| PreferenceSpec.HasKeyStep | src/index.js:374-391 | `hasKey` succeeds exactly when the load does, and is true exactly when the loaded document holds the key |
| PreferenceSpec.GetStateStep | src/index.js:416-443 | when `hasKey` reports the key absent, `getState` returns the text of the default; when present, it reloads and returns the text of the property read, leaving the state that reload leaves |
| PreferenceSpec.GetStatesStep | src/index.js:476-502 | `getStates` leaves the state its load leaves, fails exactly when the load does, and otherwise returns `StatesOf` the loaded document, one text per key |
| PreferenceSpec.SetStateStep | src/index.js:534-556 | after a successful load, the resolved file gets the loaded document with only `key` assigned (after the JSON round trip), and the result is `true`, exactly when the file is writable; a failed load passes its error |
| PreferenceSpec.SetStatesStep | src/index.js:586-613 | a failed load is passed on with nothing else changed; otherwise, when the file is writable, the loaded document with the states applied is written (after the JSON round trip) and the inserted values are returned, and when it is not, nothing is written and `[]` is returned |
| PreferenceSpec.DeleteKeyStep | src/index.js:653-686 | `deleteKey` keeps the configuration and the well-formedness of the closure state |
| PreferenceSpec.DeleteFileCallbackStep | src/index.js:219-223 | `deleteFile_c` leaves the state `deleteFile` leaves and passes `(err, !err)` for its outcome |
| PreferenceSpec.DeserializeCallbackStep | src/index.js:173-175 | `deserialize_c` throws exactly when the load does, leaves the state the load leaves, and passes the load's error with the loaded document |
| PreferenceSpec.HasKeyCallbackStep | src/index.js:400-406 | `hasKey_c` passes the load's error alone, or `null` with `HasKey` of the loaded document |
| PreferenceSpec.GetStateCallbackStep | src/index.js:453-467 | `getState_c` always hands the callback a value: with a `hasKey_c` error, the default itself; for an absent key, the default's text; for a present key, the reload's error with the text of the property read |
| PreferenceSpec.GetStatesCallbackStep | src/index.js:511-524 | `getStates_c` leaves the state its load leaves and passes the load's error; with no error it passes `StatesOf` the loaded document, and with one it passes no list |
| PreferenceSpec.SetStateCallbackStep | src/index.js:566-577 | after a load without error, the resolved file gets the loaded document with only `key` assigned, and the callback gets `(null, true)`, exactly when the file is writable, else `(err, false)`; a load error reaches the callback alone |
| PreferenceSpec.SetStatesCallbackStep | src/index.js:622-644 | any list `setStates_c` passes is the inserted values; after a clean load it passes them exactly when the write succeeds (and an error exactly when it fails), writing the loaded document with the states applied; a load error is passed with no list and no write |
| PreferenceSpec.DeleteKeyCallbackStep | src/index.js:695-713 | when `deleteKey_c` passes no error it passes `true` |
| PreferenceProperties.ResolveIsIdempotent | src/index.js:50-62 | resolving again from the state a resolution left gives the same path and state |
| PreferenceProperties.DefaultPathIsSetOnce | src/index.js:91-93 | after a non-empty default path is set, every further attempt throws UnModifiableStateError and changes nothing |
| PreferenceProperties.EmptyDefaultPathDoesNotSeal | src/index.js:92 | setting the default path to "" leaves the store uninitialised, and a later call is not refused as a second one |
| PreferenceProperties.UninitializedStoreRejectsOperations | src/index.js:52-54 | before a default path exists, every file operation in every convention throws InitializationError and changes nothing, even with an optional file name |
| PreferenceProperties.OptionalPathRecordsLastResolve | src/index.js:50-62 | after a resolution with a truthy optional name, `getTempPreferenceOptionalFilePath` returns that file's normalised path; without one it returns what it returned before |
| PreferenceProperties.HealthyLoad | src/index.js:230-232 | on a readable, parsing file, every load returns its document and leaves the file system unchanged |
| PreferenceProperties.GetStateOnHealthyFile | src/index.js:416-467 | on a healthy file, `getState(k, d)` in every convention gives the text of the stored value when the file owns `k` and of `d` otherwise, and writes nothing |
| PreferenceProperties.GetStateReadsHealthyFile | src/index.js:416-443 | on a healthy file, `getState(key, d)` gives the text of the property read when `hasKey` finds the key and of `d` otherwise, records the path resolution and writes nothing |
| PreferenceProperties.SetStateThenGetState | src/index.js:534-556 | `setState(k, v)` on a healthy file returns `true`, and a later `getState(k, d)` returns the text of `v`, synchronously and with promises; only for a `__proto__` the file does not own is the assignment ignored, and then `d` comes back |
| PreferenceProperties.SetStateThenGetStateWithCallbacks | src/index.js:566-577 | the same round trip, `__proto__` included, with `setState_c` and `getState_c` |
| PreferenceProperties.SetStateThenGetStateOnAnyFile | src/index.js:534-556 | from any file, including one the load repairs: whenever `setState(k, v)` returns `true`, a later `getState(k, d)` returns the text of `v`, unless `k` is a `__proto__` the loaded document did not own |
| PreferenceProperties.SetStateThenGetStateWithCallbacksOnAnyFile | src/index.js:566-577 | the callback round trip from any file, whenever `setState_c` passes `(null, true)` |
| PreferenceProperties.AbsentKeyGivesDefault | src/index.js:416-443 | for a key the file does not hold, `hasKey` is false and `getState` returns the text of the default |
| PreferenceProperties.NumericKeyIsNeverFound | src/index.js:377 | `hasKey` of a number is always false, while `getStates` looks the number up under its text |
| PreferenceProperties.SetStatesThenGetStates | src/index.js:586-613 | `setStates` on a healthy file writes the loaded document with the given states applied and returns the inserted values; a later `getStates` reads the applied document back |
| PreferenceProperties.SetStatesExample | src/index.js:586-595 | `setStates({a: 1, b: 2})` then `getStates(["a", "b", "c"])` on an empty file gives `["1", "2", "undefined"]` |
| PreferenceProperties.GetStatesWritesNothing | src/index.js:476-524 | `getStates` in every convention writes nothing to a healthy file |
| PreferenceProperties.DeleteAbsentKeyWritesNothing | src/index.js:659-662 | `deleteKey` of an absent key returns `true` and writes nothing (promise convention, or synchronous without an optional file) |
| PreferenceProperties.DeletePresentKey | src/index.js:653-665 | `deleteKey` of a present key removes exactly that key from the file (promise convention, or synchronous without an optional file) |
| PreferenceProperties.DeleteKeySyncWritesDefaultDocument | src/index.js:674-686 | `deleteKeySync(k, name)` checks the named file, but writes the default document without `k` over the named file |
| PreferenceProperties.DeleteKeyWithCallbackNeverPersists | src/index.js:695-713 | `deleteKey_c` on a healthy file reports `true` and leaves the file system unchanged |
| PreferenceProperties.ConventionsAgreeOnHealthyFile | src/index.js:374-524 | on a healthy file, `hasKey` and `getStates` give the same answers in all three conventions, and `getState` is the same synchronously and with promises |
| PreferenceProperties.SerializeThenDeserialize | src/index.js:120-164 | on a healthy writable file, `serialize(doc)` returns `true`, and a later `deserialize` returns the JSON text of the round-tripped `doc`, which is that of `doc` itself when `JSON.parse` could have produced it |
| PreferenceProperties.SerializeThenDeserializeOnAnyFile | src/index.js:120-164 | from any file, whenever `serialize(doc)` returns `true`, a later `deserialize` returns the JSON text of the round-tripped `doc` in every convention, and the callback one passes that document |
| PreferenceProperties.SerializedUndefinedMemberIsGone | src/index.js:331-342 | a member serialised as `undefined` is not in the file afterwards: `hasKey` reports it absent |
| PreferenceProperties.FirstAccessToMissingFile | src/index.js:240-288 | on a missing file, `hasKey` is false in both conventions, but only the promise one leaves a file holding `{}` |
| Preferences.PreferenceStore.constructor | src/index.js:36-48 | the fields start as the initial closure state |
| Preferences.PreferenceStore.GetPreferenceFilePath | src/index.js:50-62 | returns the resolved path and updates the fields as resolution specifies |
| Preferences.PreferenceStore.GetDefaultPreferenceFilePath | src/index.js:69-71 | returns the normalised default path, or a TypeError |
| Preferences.PreferenceStore.GetTempPreferenceOptionalFilePath | src/index.js:81-83 | returns the normalised last optional path, or a TypeError |
| Preferences.PreferenceStore.SetDefaultPreferenceFilePath | src/index.js:91-111 | result and fields as `SetDefaultStep` specifies |
| Preferences.PreferenceStore.GetPreferencesSync | src/index.js:267-291 | result, fields and disk as the synchronous load specifies |
| Preferences.PreferenceStore.GetPreferences | src/index.js:226-264 | result, fields and disk as the promise load specifies |
| Preferences.PreferenceStore.GetPreferencesWithCallback | src/index.js:294-328 | callback arguments, fields and disk as the callback load specifies |
| Preferences.PreferenceStore.SetPreferencesSync | src/index.js:345-356 | result, fields and disk as `StoreDoc` specifies |
| Preferences.PreferenceStore.SetPreferences | src/index.js:331-342 | result, fields and disk as `StoreDoc` specifies |
| Preferences.PreferenceStore.SetPreferencesWithCallback | src/index.js:359-365 | callback arguments, fields and disk as `StoreCallback` specifies |
| Preferences.PreferenceStore.Serialize | src/index.js:120-144 | result, fields and disk as `StoreDoc` specifies |
| Preferences.PreferenceStore.SerializeWithCallback | src/index.js:131-133 | callback arguments, fields and disk as `StoreCallback` specifies |
| Preferences.PreferenceStore.Deserialize | src/index.js:152-164 | result, fields and disk as `DeserializeStep` specifies |
| Preferences.PreferenceStore.DeserializeWithCallback | src/index.js:173-175 | callback arguments, fields and disk as `DeserializeCallbackStep` specifies |
| Preferences.PreferenceStore.DeleteFile | src/index.js:183-210 | result, fields and disk as `DeleteFileStep` specifies |
| Preferences.PreferenceStore.DeleteFileWithCallback | src/index.js:219-223 | callback arguments, fields and disk as `DeleteFileCallbackStep` specifies |
| Preferences.PreferenceStore.HasKey | src/index.js:374-391 | result, fields and disk as `HasKeyStep` specifies |
| Preferences.PreferenceStore.GetState | src/index.js:416-443 | result, fields and disk as `GetStateStep` specifies |
| Preferences.PreferenceStore.GetStates | src/index.js:476-502 | result, fields and disk as `GetStatesStep` specifies |
| Preferences.PreferenceStore.SetState | src/index.js:534-556 | result, fields and disk as `SetStateStep` specifies |
| Preferences.PreferenceStore.SetStates | src/index.js:586-613 | result, fields and disk as `SetStatesStep` specifies |
| Preferences.PreferenceStore.DeleteKey | src/index.js:653-686 | result, fields and disk as `DeleteKeyStep` specifies |
| Preferences.PreferenceStore.HasKeyWithCallback | src/index.js:400-406 | callback arguments, fields and disk as `HasKeyCallbackStep` specifies |
| Preferences.PreferenceStore.GetStateWithCallback | src/index.js:453-467 | callback arguments, fields and disk as `GetStateCallbackStep` specifies |
| Preferences.PreferenceStore.GetStatesWithCallback | src/index.js:511-524 | callback arguments, fields and disk as `GetStatesCallbackStep` specifies |
| Preferences.PreferenceStore.SetStateWithCallback | src/index.js:566-577 | callback arguments, fields and disk as `SetStateCallbackStep` specifies |
| Preferences.PreferenceStore.SetStatesWithCallback | src/index.js:622-644 | callback arguments, fields and disk as `SetStatesCallbackStep` specifies |
| Preferences.PreferenceStore.DeleteKeyWithCallback | src/index.js:695-713 | callback arguments, fields and disk as `DeleteKeyCallbackStep` specifies |
| LegacyPreferences.LegacyDefaultPath | index.js:53-55 | the factory throws a TypeError exactly when no directory is configured |
| LegacyPreferences.PathOf | index.js:138 | without a truthy optional name, every call works on the default path |
| LegacyPreferences.LoadL | index.js:136-204 | a healthy file loads unchanged; the promise load never fails; a repaired load gives `{}` |
| LegacyPreferences.StoreL | index.js:207-234 | the write succeeds exactly when the file is writable and then replaces the file with the JSON round trip of the document; a failed one changes nothing |
| LegacyPreferences.DeserializeL | index.js:82-91 | on a healthy file, `deserialize` returns the JSON text of its document and changes nothing |
| LegacyPreferences.DeleteFileL | index.js:98-133 | `deleteFile` removes an existing file when the unlink succeeds and otherwise changes nothing, returning nothing either way |
| LegacyPreferences.HasKeyL | index.js:241-258 | `hasKey` succeeds exactly when the load does, and is true exactly when the document holds the key |
| LegacyPreferences.GetStateL | index.js:269-295 | for an absent key, `getState` returns the text of the default; for a present one, the text of the property read after a reload, leaving what that reload leaves |
| LegacyPreferences.GetStatesL | index.js:306-338 | `getStates` leaves the state its load leaves and, given keys and a successful load, returns `StatesOf` the loaded document |
| LegacyPreferences.SetStateL | index.js:349-372 | async `setState` never fails; a `false` result means nothing beyond the load changed; what is written is stated by `SetStateWritesAssignedDocument` |
| LegacyPreferences.SetStatesL | index.js:382-413 | async `setStates` always resolves to the inserted values; after a load, the document with the states applied is written exactly when the file is writable, and the synchronous one then gives the inserted values, otherwise `[]` |
| LegacyPreferences.DeleteKeyL | index.js:421-453 | async `deleteKey` never fails; for a present key, the loaded document without that key is written exactly when the file is writable, and the result says whether it was |
| LegacyPreferences.MissingNameAndExtension | index.js:53-55 | with neither a file name nor an extension, the default file is `<dir>/undefined.json` |
| LegacyPreferences.HealthyLegacyLoad | index.js:136-204 | on a healthy file, both loads return its document and change nothing |
| LegacyPreferences.LegacyGetStateOnHealthyFile | index.js:269-295 | on a healthy file, `getState(k, d)` gives the text of the stored value when the file owns `k` and of `d` otherwise, and writes nothing |
| LegacyPreferences.LegacyGetStatesOnHealthyFile | index.js:306-338 | on a healthy file, `getStates(keys)` gives each key's property as text, in key order, and writes nothing |
| LegacyPreferences.SetStateWritesAssignedDocument | index.js:349-372 | from any file: the loaded document with only `key` assigned is written over the default file (sync) or the resolved file (promise), with `true`, exactly when that file is writable; a failed load passes its error |
| LegacyPreferences.SetStateSyncWritesDefaultFile | index.js:349-354 | `setStateSync(k, v, name)` reads the named file and writes it, with `k` set, over the default file |
| LegacyPreferences.FailedWriteOfStates | index.js:382-413 | when the write fails, async `setStates` still resolves to the inserted values, while `setStatesSync` gives `[]`; nothing is written |
| LegacyPreferences.LegacySetStatesThenGetStates | index.js:306-413 | `setStates` on a healthy file writes the document with the states applied and returns the inserted values; a later `getStates` reads the applied document back (promise convention, or synchronous without an optional file) |
| LegacyPreferences.DeleteKeySyncUsesDefaultFile | index.js:441-453 | `deleteKeySync(k, name)` with `k` in the named file removes `k` from the default document and writes it to the default file |
| LegacyPreferences.LegacyDeletePresentKey | index.js:421-453 | `deleteKey` of a present key returns `true` and removes exactly that key from the file (promise convention, or synchronous without an optional file) |
| LegacyPreferences.DeleteAbsentKeyLegacy | index.js:421-453 | `deleteKey` of an absent key returns `true` and writes nothing (without an optional file) |
| LegacyPreferences.GetStatesWithoutKeys | index.js:306-338 | without a key list, async `getStates` gives `[]` and `getStatesSync` throws |
| LegacyPreferences.LegacySetStateThenGetState | index.js:269-372 | `setState(k, v)` then `getState(k, d)` on the default file gives the text of `v` in both conventions; only for a `__proto__` the file does not own is it `d` |
| LegacyPreferences.LegacySetStateThenGetStateOnAnyFile | index.js:269-372 | from any default file: whenever `setState(k, v)` returns `true`, a later `getState(k, d)` returns the text of `v`, unless `k` is a `__proto__` the loaded document did not own |
| LegacyPreferences.LegacyStore.Create | index.js:37-55 | the factory fails exactly when no directory is configured, and otherwise builds a store with the computed default path |
| LegacyPreferences.LegacyStore.GetDefaultPreferenceFilePath | index.js:77 | returns the fixed default path |
| LegacyPreferences.LegacyStore.GetPreferences | index.js:136-204 | result and disk as `LoadL` specifies |
| LegacyPreferences.LegacyStore.SetPreferences | index.js:207-234 | result and disk as `StoreL` specifies |
| LegacyPreferences.LegacyStore.Deserialize | index.js:82-91 | result and disk as `DeserializeL` specifies |
| LegacyPreferences.LegacyStore.DeleteFile | index.js:98-133 | disk as `DeleteFileL` specifies |
| LegacyPreferences.LegacyStore.HasKey | index.js:241-258 | result and disk as `HasKeyL` specifies |
| LegacyPreferences.LegacyStore.GetState | index.js:269-295 | result and disk as `GetStateL` specifies |
| LegacyPreferences.LegacyStore.GetStates | index.js:306-338 | result and disk as `GetStatesL` specifies |
| LegacyPreferences.LegacyStore.SetState | index.js:349-372 | result and disk as `SetStateL` specifies |
| LegacyPreferences.LegacyStore.SetStates | index.js:382-413 | result and disk as `SetStatesL` specifies |
| LegacyPreferences.LegacyStore.DeleteKey | index.js:421-453 | result and disk as `DeleteKeyL` specifies |

## Left out

- The real file system and file descriptors (`fs`, `fs/promises`, `filehandle.close`). They are an abstract map from path to entry, with each call's success given by an `Io` record.
- Callback and promise scheduling. Each call is one atomic step, so the model has no races between concurrent calls. The un-awaited `createPreferenceDirectory` (src/index.js:244) counts as done within the call.
- JSON text. A file is `Parsed(doc)` or `Corrupt`, not text. The string `deserialize` returns is `JSON.stringify`, an uninterpreted function in `NodeHost.Host`. What a write followed by a load gives is `Documents.JsonDoc`, which covers `undefined`, functions, `String` objects and arrays. Nested objects (`Obj` has no contents), non-integer numbers, `toJSON` methods and cyclic values are not modelled.
- Node's `path.join`, `normalize`, `dirname`, `extname` and `basename` are uninterpreted functions. `mkdir { recursive: true }` creates only the named directory, not missing ancestors.
- The modules `./pref-constants` and `./error` are not part of this model. `FILE_EXT` is `Host.defaultFileExt`, and the error classes are the cases of `Base.Error`. Every I/O failure is `IoError`.
- Electron storage mode (`setUseElectronStorage`, `isUsingElectronStorage`, `setElectronFilePath`). It is not in the `src/index.js` modelled here.
- Logging (`console.warn`, `console.log`, `console.error`).
- The `checkArgs`/`checkArgsP` calls and the `!x instanceof Array/Object` guards inside the operations. They are proved never to throw or reject (`Util.CheckArgsNeverThrows`, `Util.CheckArgsP`, `JsValues.NegatedInstanceOf`), so the operations omit them. The root index.js has its own copies at index.js:58-75, with the same test and the same outcome. `src/util.js` throws `IllegalArgumentError` without importing it, which cannot matter because that line is never reached.
- Neither check modifies its arguments. The model has no aliasing through which they could, so this is not stated as a separate property.
- JavaScript numbers are integers here. Floating-point values and their texts are not modelled.
- FileSystem.ReadCallback: the callback load calls its continuation inside the `try` of src/index.js:302-307, so a continuation that throws there sends control to the `catch`, which unlinks the file and calls the continuation again with `{}`. The model's continuations never throw, so this path is not modelled.
- PreferenceSpec.GetStatesCallbackStep, PreferenceSpec.SetStatesCallbackStep, PreferenceSpec.GetStateCallbackStep, PreferenceSpec.HasKeyCallbackStep, PreferenceSpec.SetStateCallbackStep, PreferenceSpec.DeleteKeyCallbackStep, PreferenceSpec.DeserializeCallbackStep: they do not model a throw inside the continuation. In the source, a user callback that throws, or `keys.map` / `Object.keys(states)` applied to an argument of the wrong shape, makes the load unlink a healthy file and call the callback a second time.
- Arguments of the wrong shape in `src/index.js`: `keys` is a sequence and `states` a list of pairs, so `getStates(undefined)` and a non-object `states` are not modelled there. The earlier factory's `getStates` does model a missing key list (`LegacyPreferences.GetStatesWithoutKeys`).
- PreferenceSpec.GetStateStep, PreferenceSpec.GetStateCallbackStep: `getState` loads twice, and the `Io` record is the same for both loads. So the case where the first load sees the key, the second read fails, and the synchronous repair overwrites the file with `{}` is not modelled.
- Top-level JSON values other than a plain object, both in a file and as the argument of `serialize`/`serializeSync`. A file holding `null`, an array, a number or a string parses but is neither `Parsed(doc)` nor `Corrupt` as modelled. The source loads it without repair, then `hasKey` on `null` throws at `Object.keys(null)` (src/index.js:390, index.js:257), `getStates` throws at `null[key]` (src/index.js:499, index.js:335), and an array answers `hasKey` by index while `JSON.stringify` drops a non-index key that `setState` assigns. `StoreDoc` takes a `Doc`, so `serialize` of a non-object is not modelled either.
- The legacy factory has no `serialize` or callback operations, and the model has none.
- PreferenceSpec.DeleteKeyStep: its own contract states only that the configuration is kept. Its results are stated by lemmas in `PreferenceProperties`: the absent-key and present-key cases and the default-document quirk.
