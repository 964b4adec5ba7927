/** What the preference API of src/index.js promises, stated over the
    operation functions of PreferenceSpec: the set-once default path, the
    round trips between setters and getters, the operations that must not
    write, and where the three calling conventions agree and differ. */
module PreferenceProperties {
  import opened Base
  import opened JsValues
  import opened Documents
  import opened FileSystem
  import opened NodeHost
  import opened PreferenceSpec

  /** The path an operation called with `opt` works on. */
  function PathFor(h: Host, w: World, opt: Option<string>): string
    requires WellFormed(w.paths) && Initialized(w.paths)
  {
    ResolvePath(h, w.paths, opt).value.0
  }

  /** The file an operation works on reads and parses (into a document
      `JSON.parse` can produce). */
  predicate HealthyAt(h: Host, w: World, opt: Option<string>, io: Io)
    requires WellFormed(w.paths)
  {
    Initialized(w.paths) && Healthy(w.fs, PathFor(h, w, opt), io) && IsJsonDoc(w.fs[PathFor(h, w, opt)].doc)
  }

  /** Resolving again from the state a resolution left gives the same path and state. */
  lemma ResolveIsIdempotent(h: Host, ps: Paths, opt: Option<string>)
    requires WellFormed(ps) && Initialized(ps)
    ensures var r := ResolvePath(h, ps, opt).value;
      ResolvePath(h, r.1, opt) == Ok(r)
  {
  }

  /** Set-once: after a default path other than "" is set, every further
      attempt fails with UnModifiableStateError and changes nothing. */
  lemma DefaultPathIsSetOnce(h: Host, w: World, first: string, second: string)
    requires WellFormed(w.paths)
    requires SetDefaultStep(h, w, first).out.Ok? && first != ""
    ensures var w1 := SetDefaultStep(h, w, first).world;
      Initialized(w1.paths) && SetDefaultStep(h, w1, second) == Outcome(Err(UnModifiableStateError), w1)
  {
  }

  /** Setting the default path to "" stores a falsy path: the store stays
      uninitialised and the path may be set again. */
  lemma EmptyDefaultPathDoesNotSeal(h: Host, w: World, second: string)
    requires WellFormed(w.paths) && !Initialized(w.paths)
    ensures var o := SetDefaultStep(h, w, "");
      o.out.Ok? ==> !Initialized(o.world.paths) && SetDefaultStep(h, o.world, second).out != Err(UnModifiableStateError)
  {
  }

  /** Before a default path exists, every operation that resolves a path
      throws InitializationError and changes nothing, even when given an
      optional file name, in every calling convention. */
  lemma UninitializedStoreRejectsOperations(h: Host, mode: Mode, w: World, key: JsValue, value: JsValue,
                                            keys: seq<JsValue>, states: States, doc: Doc, opt: Option<string>, io: Io)
    requires WellFormed(w.paths) && !Initialized(w.paths)
    ensures Load(h, mode, w, opt, io) == Outcome(Err(InitializationError), w)
    ensures LoadCallback(h, w, opt, io) == Outcome(Err(InitializationError), w)
    ensures StoreDoc(h, w, doc, opt, io) == Outcome(Err(InitializationError), w)
    ensures StoreCallback(h, w, doc, opt, io) == Outcome(Err(InitializationError), w)
    ensures DeleteFileStep(h, w, opt, io) == Outcome(Err(InitializationError), w)
    ensures DeleteFileCallbackStep(h, w, opt, io) == Outcome(Err(InitializationError), w)
    ensures DeserializeStep(h, mode, w, opt, io) == Outcome(Err(InitializationError), w)
    ensures DeserializeCallbackStep(h, w, opt, io) == Outcome(Err(InitializationError), w)
    ensures HasKeyStep(h, mode, w, key, opt, io) == Outcome(Err(InitializationError), w)
    ensures HasKeyCallbackStep(h, w, key, opt, io) == Outcome(Err(InitializationError), w)
    ensures GetStateStep(h, mode, w, key, value, opt, io) == Outcome(Err(InitializationError), w)
    ensures GetStateCallbackStep(h, w, key, value, opt, io) == Outcome(Err(InitializationError), w)
    ensures GetStatesStep(h, mode, w, keys, opt, io) == Outcome(Err(InitializationError), w)
    ensures GetStatesCallbackStep(h, w, keys, opt, io) == Outcome(Err(InitializationError), w)
    ensures SetStateStep(h, mode, w, key, value, opt, io) == Outcome(Err(InitializationError), w)
    ensures SetStateCallbackStep(h, w, key, value, opt, io) == Outcome(Err(InitializationError), w)
    ensures SetStatesStep(h, mode, w, states, opt, io) == Outcome(Err(InitializationError), w)
    ensures SetStatesCallbackStep(h, w, states, opt, io) == Outcome(Err(InitializationError), w)
    ensures DeleteKeyStep(h, mode, w, key, opt, io) == Outcome(Err(InitializationError), w)
    ensures DeleteKeyCallbackStep(h, w, key, opt, io) == Outcome(Err(InitializationError), w)
  {
  }

  /** The optional path accessor reports the last optional file name resolved,
      and resolving the default path leaves it as it was. */
  lemma OptionalPathRecordsLastResolve(h: Host, ps: Paths, opt: Option<string>)
    requires WellFormed(ps) && Initialized(ps)
    ensures var r := ResolvePath(h, ps, opt).value;
      && (Truthy(opt) ==> OptionalPathOf(h, r.1) == Ok(h.normalize(r.0))
                          && r.0 == h.normalize(h.join(ps.preferenceFileDir.value, opt.value)))
      && (!Truthy(opt) ==> OptionalPathOf(h, r.1) == OptionalPathOf(h, ps))
  {
  }

  /** On a file that reads and parses, every load returns its document and
      leaves the file system as it was. */
  lemma HealthyLoad(h: Host, mode: Mode, w: World, opt: Option<string>, io: Io)
    requires WellFormed(w.paths) && HealthyAt(h, w, opt, io)
    ensures var p := PathFor(h, w, opt);
      && Load(h, mode, w, opt, io) == Outcome(Ok(w.fs[p].doc), World(ResolvePath(h, w.paths, opt).value.1, w.fs))
      && LoadCallback(h, w, opt, io) == Outcome(Ok(Loaded(None, w.fs[p].doc)), World(ResolvePath(h, w.paths, opt).value.1, w.fs))
  {
  }

  /** `setState(k, v)` on a healthy file succeeds, and a later `getState(k, d)`
      returns the string form of `v` whatever `d` is; only for a `__proto__`
      key the file does not own is the assignment ignored, and then the
      default comes back. */
  lemma {:induction false} SetStateThenGetState(h: Host, mode: Mode, w: World, k: string, v: JsValue, d: JsValue,
                                                opt: Option<string>, io: Io, next: Io)
    requires WellFormed(w.paths) && HealthyAt(h, w, opt, io) && io.writeOk && next.readOk
    ensures var s := SetStateStep(h, mode, w, Str(k), v, opt, io);
      var doc := w.fs[PathFor(h, w, opt)].doc;
      && s.out == Ok(true)
      && GetStateStep(h, mode, s.world, Str(k), d, opt, next).out
         == Ok(if Assignable(doc, k) then ToStr(v) else ToStr(d))
  {
    var p := PathFor(h, w, opt);
    var doc := w.fs[p].doc;
    HealthyLoad(h, mode, w, opt, io);
    var s := SetStateStep(h, mode, w, Str(k), v, opt, io);
    var ps := ResolvePath(h, w.paths, opt).value.1;
    ResolveIsIdempotent(h, w.paths, opt);
    var updated := Assign(doc, k, Str(ToStr(v)));
    AssignKeepsJson(doc, k, ToStr(v));
    JsonDocIsJson(updated);
    assert s.world == World(ps, w.fs[p := Parsed(updated)]);
    assert k in updated <==> Assignable(doc, k);
    assert PathFor(h, s.world, opt) == p;
    GetStateOnHealthyFile(h, mode, s.world, k, d, opt, next);
  }

  /** The same round trip in the callback convention. */
  lemma {:induction false} SetStateThenGetStateWithCallbacks(h: Host, w: World, k: string, v: JsValue, d: JsValue,
                                                             opt: Option<string>, io: Io, next: Io)
    requires WellFormed(w.paths) && HealthyAt(h, w, opt, io) && io.writeOk && next.readOk
    ensures var s := SetStateCallbackStep(h, w, Str(k), v, opt, io);
      var doc := w.fs[PathFor(h, w, opt)].doc;
      && s.out == Ok(Reply(None, Some(true)))
      && GetStateCallbackStep(h, s.world, Str(k), d, opt, next).out
         == Ok(Reply(None, Some(Str(if Assignable(doc, k) then ToStr(v) else ToStr(d)))))
  {
    var p := PathFor(h, w, opt);
    var doc := w.fs[p].doc;
    HealthyLoad(h, Blocking, w, opt, io);
    var s := SetStateCallbackStep(h, w, Str(k), v, opt, io);
    var ps := ResolvePath(h, w.paths, opt).value.1;
    ResolveIsIdempotent(h, w.paths, opt);
    var updated := Assign(doc, k, Str(ToStr(v)));
    JsonDocIsJson(updated);
    assert s.world == World(ps, w.fs[p := Parsed(updated)]);
    HealthyLoad(h, Blocking, s.world, opt, next);
    assert k in updated <==> Assignable(doc, k);
    assert PathFor(h, s.world, opt) == p;
    GetStateOnHealthyFile(h, Blocking, s.world, k, d, opt, next);
  }

  /** The round trip from any file, including a missing or broken one the
      load repairs: whenever `setState(k, v)` reports `true`, a later
      `getState(k, d)` gives the string form of `v`, unless `k` is a
      `__proto__` the loaded document did not own. */
  lemma {:induction false} SetStateThenGetStateOnAnyFile(h: Host, mode: Mode, w: World, k: string, v: JsValue, d: JsValue,
                                                         opt: Option<string>, io: Io, next: Io)
    requires WellFormed(w.paths) && next.readOk
    ensures var s := SetStateStep(h, mode, w, Str(k), v, opt, io);
      s.out == Ok(true) ==>
        GetStateStep(h, mode, s.world, Str(k), d, opt, next).out
        == Ok(if Assignable(Load(h, mode, w, opt, io).out.value, k) then ToStr(v) else ToStr(d))
  {
    var s := SetStateStep(h, mode, w, Str(k), v, opt, io);
    if s.out == Ok(true) {
      var l := Load(h, mode, w, opt, io);
      var p := PathFor(h, w, opt);
      var updated := Assign(l.out.value, k, Str(ToStr(v)));
      AssignSurvivesJson(l.out.value, k, ToStr(v));
      JsonDocIsJson(updated);
      ResolveIsIdempotent(h, w.paths, opt);
      assert s.world.fs[p] == Parsed(JsonDoc(updated));
      assert PathFor(h, s.world, opt) == p;
      GetStateOnHealthyFile(h, mode, s.world, k, d, opt, next);
    }
  }

  /** The same round trip through `setState_c` and `getState_c`, from any file. */
  lemma {:induction false} SetStateThenGetStateWithCallbacksOnAnyFile(h: Host, w: World, k: string, v: JsValue, d: JsValue,
                                                                      opt: Option<string>, io: Io, next: Io)
    requires WellFormed(w.paths) && next.readOk
    ensures var s := SetStateCallbackStep(h, w, Str(k), v, opt, io);
      s.out == Ok(Reply(None, Some(true))) ==>
        GetStateCallbackStep(h, s.world, Str(k), d, opt, next).out
        == Ok(Reply(None, Some(Str(if Assignable(LoadCallback(h, w, opt, io).out.value.doc, k) then ToStr(v) else ToStr(d)))))
  {
    var s := SetStateCallbackStep(h, w, Str(k), v, opt, io);
    if s.out == Ok(Reply(None, Some(true))) {
      var l := LoadCallback(h, w, opt, io);
      var p := PathFor(h, w, opt);
      var updated := Assign(l.out.value.doc, k, Str(ToStr(v)));
      AssignSurvivesJson(l.out.value.doc, k, ToStr(v));
      JsonDocIsJson(updated);
      ResolveIsIdempotent(h, w.paths, opt);
      assert s.world.fs[p] == Parsed(JsonDoc(updated));
      assert PathFor(h, s.world, opt) == p;
      GetStateOnHealthyFile(h, Blocking, s.world, k, d, opt, next);
    }
  }

  /** A key that the file does not hold: `hasKey` is false and `getState`
      gives the string form of the default. */
  lemma AbsentKeyGivesDefault(h: Host, mode: Mode, w: World, key: JsValue, d: JsValue, opt: Option<string>, io: Io)
    requires WellFormed(w.paths) && HealthyAt(h, w, opt, io)
    requires ToStr(key) !in w.fs[PathFor(h, w, opt)].doc
    ensures HasKeyStep(h, mode, w, key, opt, io).out == Ok(false)
    ensures GetStateStep(h, mode, w, key, d, opt, io).out == Ok(ToStr(d))
  {
    HealthyLoad(h, mode, w, opt, io);
  }

  /** On a healthy file `getState(k, d)` gives the string form of the stored
      value when the file owns `k` and of `d` otherwise, in all three
      conventions, and writes nothing. */
  lemma {:induction false} GetStateOnHealthyFile(h: Host, mode: Mode, w: World, k: string, d: JsValue,
                                                 opt: Option<string>, io: Io)
    requires WellFormed(w.paths) && HealthyAt(h, w, opt, io)
    ensures var doc := w.fs[PathFor(h, w, opt)].doc;
      var text := if k in doc then ToStr(doc[k]) else ToStr(d);
      var g := GetStateStep(h, mode, w, Str(k), d, opt, io);
      var c := GetStateCallbackStep(h, w, Str(k), d, opt, io);
      && g.out == Ok(text) && g.world.fs == w.fs
      && c.out == Ok(Reply(None, Some(Str(text)))) && c.world.fs == w.fs
  {
    HealthyLoad(h, mode, w, opt, io);
    HealthyLoad(h, Blocking, w, opt, io);
    ResolveIsIdempotent(h, w.paths, opt);
    var hk := HasKeyStep(h, mode, w, Str(k), opt, io);
    HealthyLoad(h, mode, hk.world, opt, io);
    var hc := HasKeyCallbackStep(h, w, Str(k), opt, io);
    HealthyLoad(h, Blocking, hc.world, opt, io);
  }

  /** `hasKey` compares keys without converting them: a number never matches,
      even though `getStates` finds the property under its string form. */
  lemma NumericKeyIsNeverFound(h: Host, mode: Mode, w: World, n: int, opt: Option<string>, io: Io)
    requires WellFormed(w.paths) && HealthyAt(h, w, opt, io)
    ensures HasKeyStep(h, mode, w, Num(n), opt, io).out == Ok(false)
    ensures GetStatesStep(h, mode, w, [Num(n)], opt, io).out
      == Ok([ToStr(Lookup(w.fs[PathFor(h, w, opt)].doc, ToStr(Num(n))))])
  {
    HealthyLoad(h, mode, w, opt, io);
    var doc := w.fs[PathFor(h, w, opt)].doc;
    assert StatesOf(doc, [Num(n)]) == [ToStr(Lookup(doc, ToStr(Num(n))))];
  }

  /** `setStates` on a healthy file writes the loaded document with only the
      given keys overwritten and returns the values in key order; a later
      `getStates` reads them back, "undefined" for keys never set. */
  lemma {:induction false} SetStatesThenGetStates(h: Host, mode: Mode, w: World, states: States, keys: seq<JsValue>,
                                                  opt: Option<string>, io: Io, next: Io)
    requires WellFormed(w.paths) && HealthyAt(h, w, opt, io) && io.writeOk && next.readOk
    requires DistinctKeys(states)
    ensures var s := SetStatesStep(h, mode, w, states, opt, io);
      var doc := w.fs[PathFor(h, w, opt)].doc;
      && s.out == Ok(InsertedValues(states))
      && s.world.fs == w.fs[PathFor(h, w, opt) := Parsed(ApplyStates(doc, states))]
      && GetStatesStep(h, mode, s.world, keys, opt, next).out == Ok(StatesOf(ApplyStates(doc, states), keys))
  {
    var p := PathFor(h, w, opt);
    ApplyStatesKeepsJson(w.fs[p].doc, states);
    JsonDocIsJson(ApplyStates(w.fs[p].doc, states));
    HealthyLoad(h, mode, w, opt, io);
    ResolveIsIdempotent(h, w.paths, opt);
    var s := SetStatesStep(h, mode, w, states, opt, io);
    HealthyLoad(h, mode, s.world, opt, next);
  }

  /** `{a: 1, b: 2}` assigned into `{}` gives `{a: "1", b: "2"}`. */
  lemma ExampleDocument()
    ensures ApplyStates(map[], [("a", Num(1)), ("b", Num(2))]) == map["a" := Str("1"), "b" := Str("2")]
  {
    var states := [("a", Num(1)), ("b", Num(2))];
    assert states[..1] == [("a", Num(1))] && [("a", Num(1))][..0] == [];
    assert ToStr(Num(1)) == "1" && ToStr(Num(2)) == "2";
    assert ApplyStates(map[], states[..1]) == map["a" := Str("1")];
  }

  /** Reading `a`, `b` and `c` back from `{a: "1", b: "2"}`. */
  lemma ExampleReadBack()
    ensures StatesOf(map["a" := Str("1"), "b" := Str("2")], [Str("a"), Str("b"), Str("c")]) == ["1", "2", "undefined"]
  {
    var doc := map["a" := Str("1"), "b" := Str("2")];
    assert Lookup(doc, "c") == Undefined by {
      assert "c" !in InheritedNames;
    }
    assert StatesOf(doc, [Str("a"), Str("b"), Str("c")])[2] == ToStr(Lookup(doc, "c"));
  }

  /** The example `setStates({a: 1, b: 2})` then `getStates(["a", "b", "c"])`
      on an empty document gives `["1", "2", "undefined"]`. */
  lemma SetStatesExample(h: Host, mode: Mode, w: World, opt: Option<string>, io: Io, next: Io)
    requires WellFormed(w.paths) && HealthyAt(h, w, opt, io) && io.writeOk && next.readOk
    requires w.fs[PathFor(h, w, opt)].doc == map[]
    ensures var s := SetStatesStep(h, mode, w, [("a", Num(1)), ("b", Num(2))], opt, io);
      GetStatesStep(h, mode, s.world, [Str("a"), Str("b"), Str("c")], opt, next).out == Ok(["1", "2", "undefined"])
  {
    var states := [("a", Num(1)), ("b", Num(2))];
    var keys := [Str("a"), Str("b"), Str("c")];
    assert DistinctKeys(states) by {
      assert states[0].0 != states[1].0;
    }
    SetStatesThenGetStates(h, mode, w, states, keys, opt, io, next);
    ExampleDocument();
    ExampleReadBack();
  }

  /** `getStates` writes nothing to a healthy file. */
  lemma GetStatesWritesNothing(h: Host, mode: Mode, w: World, keys: seq<JsValue>, opt: Option<string>, io: Io)
    requires WellFormed(w.paths) && HealthyAt(h, w, opt, io)
    ensures GetStatesStep(h, mode, w, keys, opt, io).world.fs == w.fs
    ensures GetStatesCallbackStep(h, w, keys, opt, io).world.fs == w.fs
  {
    HealthyLoad(h, mode, w, opt, io);
  }

  /** `deleteKey` of a key the file does not hold returns `true` and writes
      nothing (for the synchronous variant: when no optional file is named). */
  lemma DeleteAbsentKeyWritesNothing(h: Host, mode: Mode, w: World, key: JsValue, opt: Option<string>, io: Io)
    requires WellFormed(w.paths) && HealthyAt(h, w, opt, io)
    requires mode == Promise || !Truthy(opt)
    requires !HasKey(w.fs[PathFor(h, w, opt)].doc, key)
    ensures var o := DeleteKeyStep(h, mode, w, key, opt, io);
      o.out == Ok(true) && o.world.fs == w.fs
  {
    var first := Load(h, mode, w, if mode == Blocking then None else opt, io);
    HealthyLoad(h, mode, w, opt, io);
    ResolveIsIdempotent(h, w.paths, opt);
    HealthyLoad(h, mode, first.world, opt, io);
  }

  /** `deleteKey` of a key the file holds removes just that key, in the
      promise convention and in the synchronous one without an optional file. */
  lemma DeletePresentKey(h: Host, mode: Mode, w: World, k: string, opt: Option<string>, io: Io)
    requires WellFormed(w.paths) && HealthyAt(h, w, opt, io) && io.writeOk
    requires mode == Promise || !Truthy(opt)
    requires k in w.fs[PathFor(h, w, opt)].doc
    ensures var o := DeleteKeyStep(h, mode, w, Str(k), opt, io);
      var p := PathFor(h, w, opt);
      o.out == Ok(true) && o.world.fs == w.fs[p := Parsed(w.fs[p].doc - {k})]
  {
    JsonDocIsJson(w.fs[PathFor(h, w, opt)].doc - {k});
    var first := Load(h, mode, w, if mode == Blocking then None else opt, io);
    HealthyLoad(h, mode, w, opt, io);
    ResolveIsIdempotent(h, w.paths, opt);
    HealthyLoad(h, mode, first.world, opt, io);
  }

  /** `deleteKeySync(key, name)` asks whether the key is in the named file, but
      deletes it from the DEFAULT document and writes that document over the
      named file. */
  lemma {:induction false} DeleteKeySyncWritesDefaultDocument(h: Host, w: World, k: string, name: string, io: Io)
    requires WellFormed(w.paths) && Initialized(w.paths) && name != "" && io.writeOk
    requires HealthyAt(h, w, None, io) && HealthyAt(h, w, Some(name), io)
    requires k in w.fs[PathFor(h, w, Some(name))].doc
    ensures var o := DeleteKeyStep(h, Blocking, w, Str(k), Some(name), io);
      var defaultDoc := w.fs[PathFor(h, w, None)].doc;
      o.out == Ok(true) && o.world.fs == w.fs[PathFor(h, w, Some(name)) := Parsed(defaultDoc - {k})]
  {
    JsonDocIsJson(w.fs[PathFor(h, w, None)].doc - {k});
    var first := Load(h, Blocking, w, None, io);
    HealthyLoad(h, Blocking, w, None, io);
    assert first.world == w;
    HealthyLoad(h, Blocking, w, Some(name), io);
    ResolveIsIdempotent(h, w.paths, Some(name));
  }

  /** `deleteKey_c` never writes: on a healthy file it reports `true` and the
      file keeps the key. */
  lemma DeleteKeyWithCallbackNeverPersists(h: Host, w: World, key: JsValue, opt: Option<string>, io: Io)
    requires WellFormed(w.paths) && HealthyAt(h, w, opt, io)
    ensures var o := DeleteKeyCallbackStep(h, w, key, opt, io);
      o.out == Ok(Reply(None, Some(true))) && o.world.fs == w.fs
  {
    var l := LoadCallback(h, w, opt, io);
    HealthyLoad(h, Blocking, w, opt, io);
    ResolveIsIdempotent(h, w.paths, opt);
    HealthyLoad(h, Blocking, l.world, opt, io);
  }

  /** On a healthy file the three conventions give the same answers and leave
      the same state. */
  lemma ConventionsAgreeOnHealthyFile(h: Host, w: World, key: JsValue, d: JsValue, keys: seq<JsValue>,
                                      opt: Option<string>, io: Io)
    requires WellFormed(w.paths) && HealthyAt(h, w, opt, io)
    ensures var b := HasKey(w.fs[PathFor(h, w, opt)].doc, key);
      && HasKeyStep(h, Blocking, w, key, opt, io).out == Ok(b)
      && HasKeyStep(h, Promise, w, key, opt, io).out == Ok(b)
      && HasKeyCallbackStep(h, w, key, opt, io).out == Ok(Reply(None, Some(b)))
    ensures var v := StatesOf(w.fs[PathFor(h, w, opt)].doc, keys);
      && GetStatesStep(h, Blocking, w, keys, opt, io).out == Ok(v)
      && GetStatesStep(h, Promise, w, keys, opt, io).out == Ok(v)
      && GetStatesCallbackStep(h, w, keys, opt, io).out == Ok(Reply(None, Some(v)))
    ensures GetStateStep(h, Blocking, w, key, d, opt, io) == GetStateStep(h, Promise, w, key, d, opt, io)
  {
    HealthyLoad(h, Blocking, w, opt, io);
    HealthyLoad(h, Promise, w, opt, io);
    SameGetStateBothWays(h, w, key, d, opt, io);
  }

  /** `getStateSync` and `getState` agree on a healthy file: both load twice
      and the loads agree. */
  lemma SameGetStateBothWays(h: Host, w: World, key: JsValue, d: JsValue, opt: Option<string>, io: Io)
    requires WellFormed(w.paths) && HealthyAt(h, w, opt, io)
    ensures GetStateStep(h, Blocking, w, key, d, opt, io) == GetStateStep(h, Promise, w, key, d, opt, io)
  {
    GetStateReadsHealthyFile(h, Blocking, w, key, d, opt, io);
    GetStateReadsHealthyFile(h, Promise, w, key, d, opt, io);
  }

  /** On a healthy file `getState` answers from the file's document, records
      the path resolution and writes nothing. */
  lemma GetStateReadsHealthyFile(h: Host, mode: Mode, w: World, key: JsValue, d: JsValue, opt: Option<string>, io: Io)
    requires WellFormed(w.paths) && HealthyAt(h, w, opt, io)
    ensures var doc := w.fs[PathFor(h, w, opt)].doc;
      var text := if HasKey(doc, key) then ToStr(Lookup(doc, ToStr(key))) else ToStr(d);
      GetStateStep(h, mode, w, key, d, opt, io) == Outcome(Ok(text), World(ResolvePath(h, w.paths, opt).value.1, w.fs))
  {
    HealthyLoad(h, mode, w, opt, io);
    ResolveIsIdempotent(h, w.paths, opt);
    var hk := HasKeyStep(h, mode, w, key, opt, io);
    HealthyLoad(h, mode, hk.world, opt, io);
  }

  /** `serialize(doc)` then `deserialize()` gives the JSON text of what the
      file now holds: `doc` itself when it is a JSON document. */
  lemma SerializeThenDeserialize(h: Host, mode: Mode, w: World, doc: Doc, opt: Option<string>, io: Io, next: Io)
    requires WellFormed(w.paths) && HealthyAt(h, w, opt, io) && io.writeOk && next.readOk
    ensures var s := StoreDoc(h, w, doc, opt, io);
      && s.out == Ok(true)
      && DeserializeStep(h, mode, s.world, opt, next).out == Ok(h.stringify(JsonDoc(doc)))
      && (IsJsonDoc(doc) ==> DeserializeStep(h, mode, s.world, opt, next).out == Ok(h.stringify(doc)))
  {
    JsonDocIsJson(doc);
    ResolveIsIdempotent(h, w.paths, opt);
  }

  /** The same from any file: whenever `serialize(doc)` reports `true`, a later
      `deserialize` gives the JSON text of the document as written. */
  lemma SerializeThenDeserializeOnAnyFile(h: Host, mode: Mode, w: World, doc: Doc, opt: Option<string>, io: Io, next: Io)
    requires WellFormed(w.paths) && next.readOk
    ensures var s := StoreDoc(h, w, doc, opt, io);
      s.out == Ok(true) ==>
        && DeserializeStep(h, mode, s.world, opt, next) == Outcome(Ok(h.stringify(JsonDoc(doc))), s.world)
        && DeserializeCallbackStep(h, s.world, opt, next).out == Ok(Reply(None, Some(JsonDoc(doc))))
  {
    if StoreDoc(h, w, doc, opt, io).out == Ok(true) {
      ResolveIsIdempotent(h, w.paths, opt);
    }
  }

  /** `serializeSync({x: undefined})` then `hasKeySync("x")` is false: the
      member did not survive `JSON.stringify`. */
  lemma SerializedUndefinedMemberIsGone(h: Host, mode: Mode, w: World, k: string, doc: Doc,
                                        opt: Option<string>, io: Io, next: Io)
    requires WellFormed(w.paths) && Initialized(w.paths) && io.writeOk && next.readOk
    requires !(PathFor(h, w, opt) in w.fs && w.fs[PathFor(h, w, opt)].Dir?)
    requires k in doc && doc[k] == Undefined
    ensures var s := StoreDoc(h, w, doc, opt, io);
      s.out == Ok(true) && HasKeyStep(h, mode, s.world, Str(k), opt, next).out == Ok(false)
  {
    ResolveIsIdempotent(h, w.paths, opt);
  }

  /** First access to a missing file: `hasKey` is false in both conventions,
      but only the promise convention leaves a file holding `{}`; the
      synchronous one creates the directory and no file. */
  lemma FirstAccessToMissingFile(h: Host, w: World, key: JsValue, opt: Option<string>, io: Io)
    requires WellFormed(w.paths) && Initialized(w.paths)
    requires var p := PathFor(h, w, opt);
      p !in w.fs && p != w.paths.preferenceFileDir.value
    requires io.openFault == NoFault && io.writeOk && io.mkdirOk
    requires w.paths.preferenceFileDir.value !in w.fs || w.fs[w.paths.preferenceFileDir.value].Dir?
    ensures var p := PathFor(h, w, opt);
      var a := HasKeyStep(h, Promise, w, key, opt, io);
      a.out == Ok(false) && a.world.fs[p] == Parsed(EmptyDoc)
    ensures var p := PathFor(h, w, opt);
      var s := HasKeyStep(h, Blocking, w, key, opt, io);
      s.out == Ok(false) && p !in s.world.fs
  {
  }
}
