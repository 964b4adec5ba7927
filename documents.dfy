/** The preference document in memory, and the reads and updates the store
    performs on it between loading and writing back. */
module Documents {
  import opened JsValues

  /** A parsed preference file: property name to value. */
  type Doc = map<string, JsValue>

  /** The property whose assignment goes to a setter: assigning a string to
      `__proto__` of an object that does not own such a property does nothing. */
  const ProtoKey: string := "__proto__"

  /** The methods every plain object inherits from `Object.prototype`. */
  const InheritedMethods: set<string> := {
    "toString", "toLocaleString", "valueOf", "hasOwnProperty", "isPrototypeOf",
    "propertyIsEnumerable", "__defineGetter__", "__defineSetter__",
    "__lookupGetter__", "__lookupSetter__"}

  /** Every property name a plain object has without owning it. */
  const InheritedNames: set<string> := InheritedMethods + {"constructor", ProtoKey}

  /** `doc[k]`: the own property, else the inherited one (`__proto__` is
      `Object.prototype`, `constructor` is the `Object` function), else
      `undefined`. */
  function Lookup(doc: Doc, k: string): (v: JsValue)
    ensures k in doc ==> v == doc[k]
    ensures k !in doc ==> (v.Undefined? <==> k !in InheritedNames)
  {
    if k in doc then doc[k]
    else if k == ProtoKey then Obj
    else if k == "constructor" then Native("Object")
    else if k in InheritedMethods then Native(k)
    else Undefined
  }

  /** Whether `doc[k] = v` creates or overwrites an own property. */
  predicate Assignable(doc: Doc, k: string)
  {
    k != ProtoKey || k in doc
  }

  /** `doc[k] = v` for a string `v`: ignored by the `__proto__` setter unless
      the document owns a `__proto__` property. */
  function Assign(doc: Doc, k: string, v: JsValue): (r: Doc)
    requires v.Str?
    ensures Assignable(doc, k) ==> k in r && r[k] == v && forall j :: j in r ==> j in doc || j == k
    ensures !Assignable(doc, k) ==> r == doc
    ensures forall j :: j in doc && j != k ==> j in r && r[j] == doc[j]
  {
    if Assignable(doc, k) then doc[k := v] else doc
  }

  /** A document `JSON.parse` can produce. */
  predicate IsJsonDoc(doc: Doc)
  {
    forall k :: k in doc ==> IsJsonValue(doc[k])
  }

  /** `JSON.parse(JSON.stringify(doc))`: members that are `undefined` or
      functions disappear, the others read back as JSON values. */
  function JsonDoc(doc: Doc): (r: Doc)
    ensures forall k :: k in r <==> k in doc && !DroppedMember(doc[k])
  {
    map k | k in doc && !DroppedMember(doc[k]) :: JsonValue(doc[k])
  }

  /** The round trip gives a JSON document, and leaves a JSON document as it is. */
  lemma JsonDocIsJson(doc: Doc)
    ensures IsJsonDoc(JsonDoc(doc))
    ensures IsJsonDoc(doc) ==> JsonDoc(doc) == doc
  {
    forall k | k in doc {
      JsonValueIsJson(doc[k]);
    }
  }

  /** Written and read back, a member that is `undefined` is gone, and a
      string member is kept. */
  lemma JsonDocDropsUndefined(doc: Doc, k: string)
    requires k in doc
    ensures doc[k] == Undefined ==> k !in JsonDoc(doc)
    ensures doc[k].Str? ==> k in JsonDoc(doc) && JsonDoc(doc)[k] == doc[k]
  {
  }

  /** `Object.keys(doc).includes(key)`. `includes` compares with SameValueZero
      and the keys are strings, so a key that is not a string is never found,
      even when its string form is a property of the document. */
  predicate HasKey(doc: Doc, key: JsValue)
  {
    match key
    case Str(k) => k in doc
    case _ => false
  }

  /** `keys.map((key) => `${doc[`${key}`]}`)`. */
  function StatesOf(doc: Doc, keys: seq<JsValue>): (values: seq<string>)
    ensures |values| == |keys|
    ensures forall i :: 0 <= i < |keys| ==> values[i] == ToStr(Lookup(doc, ToStr(keys[i])))
  {
    if keys == [] then [] else [ToStr(Lookup(doc, ToStr(keys[0])))] + StatesOf(doc, keys[1..])
  }

  /** A key the document does not own reads back as the text "undefined"
      exactly when no plain object inherits it; `constructor` reads back as
      the source text of the `Object` function. */
  lemma MissingStateIsUndefinedText(doc: Doc, keys: seq<JsValue>, i: nat)
    requires i < |keys| && ToStr(keys[i]) !in doc
    ensures StatesOf(doc, keys)[i] == "undefined" <==> ToStr(keys[i]) !in InheritedNames
    ensures ToStr(keys[i]) == "constructor" ==> StatesOf(doc, keys)[i] == "function Object() { [native code] }"
    ensures ToStr(keys[i]) == ProtoKey ==> StatesOf(doc, keys)[i] == "[object Object]"
  {
    assert StatesOf(doc, keys)[i] == ToStr(Lookup(doc, ToStr(keys[i])));
    MissingPropertyText(doc, ToStr(keys[i]));
  }

  /** The text of a property read for a key the document does not own. */
  lemma MissingPropertyText(doc: Doc, k: string)
    requires k !in doc
    ensures ToStr(Lookup(doc, k)) == "undefined" <==> k !in InheritedNames
    ensures k == "constructor" ==> ToStr(Lookup(doc, k)) == "function Object() { [native code] }"
    ensures k == ProtoKey ==> ToStr(Lookup(doc, k)) == "[object Object]"
  {
    UndefinedTextUnlessInherited(doc, k);
    ConstructorText(doc, k);
    ProtoText(doc, k);
  }

  lemma UndefinedTextUnlessInherited(doc: Doc, k: string)
    requires k !in doc
    ensures ToStr(Lookup(doc, k)) == "undefined" <==> k !in InheritedNames
  {
    var v := Lookup(doc, k);
    if v == Obj {
      assert ToStr(v)[1] != "undefined"[1];
    } else if v.Native? {
      assert ToStr(v)[0] != "undefined"[0];
    }
  }

  lemma ConstructorText(doc: Doc, k: string)
    requires k !in doc
    ensures k == "constructor" ==> ToStr(Lookup(doc, k)) == "function Object() { [native code] }"
  {
    if k == "constructor" {
      assert |k| != |ProtoKey|;
      assert Lookup(doc, k) == Native("Object");
    }
  }

  lemma ProtoText(doc: Doc, k: string)
    requires k !in doc
    ensures k == ProtoKey ==> ToStr(Lookup(doc, k)) == "[object Object]"
  {
  }

  /** The key/value pairs of the `states` object, in `Object.keys` order. */
  type States = seq<(string, JsValue)>

  /** An object has each property once. */
  predicate DistinctKeys(states: States)
  {
    forall i, j :: 0 <= i < j < |states| ==> states[i].0 != states[j].0
  }

  function KeysOf(states: States): set<string>
  {
    set i | 0 <= i < |states| :: states[i].0
  }

  /** The document after `preferenceOb[key] = `${states[key]}`` for every key in order. */
  function ApplyStates(doc: Doc, states: States): Doc
  {
    if states == [] then doc
    else
      var last := states[|states| - 1];
      Assign(ApplyStates(doc, states[..|states| - 1]), last.0, Str(ToStr(last.1)))
  }

  /** The values of the assignments, in key order: what `map` collects. */
  function InsertedValues(states: States): (values: seq<string>)
    ensures |values| == |states|
    ensures forall i :: 0 <= i < |states| ==> values[i] == ToStr(states[i].1)
  {
    if states == [] then [] else InsertedValues(states[..|states| - 1]) + [ToStr(states[|states| - 1].1)]
  }

  /** Assigning a string keeps a JSON document a JSON document. */
  lemma AssignKeepsJson(doc: Doc, k: string, text: string)
    requires IsJsonDoc(doc)
    ensures JsonDoc(Assign(doc, k, Str(text))) == Assign(doc, k, Str(text))
  {
    JsonDocIsJson(Assign(doc, k, Str(text)));
  }

  /** Whatever else the round trip drops, an assigned string survives it:
      written and read back, the document holds `k` exactly when the
      assignment took effect, and then holds the string. */
  lemma AssignSurvivesJson(doc: Doc, k: string, text: string)
    ensures var r := JsonDoc(Assign(doc, k, Str(text)));
      && (k in r <==> Assignable(doc, k))
      && (Assignable(doc, k) ==> r[k] == Str(text))
  {
    if Assignable(doc, k) {
      JsonDocDropsUndefined(Assign(doc, k, Str(text)), k);
    }
  }

  /** The properties `ApplyStates` leaves: the document's and the given keys,
      except a `__proto__` key the document does not own. */
  function StoredKeys(doc: Doc, states: States): set<string>
  {
    (doc.Keys + KeysOf(states)) - (if ProtoKey in doc then {} else {ProtoKey})
  }

  lemma {:induction false} ApplyStatesKeys(doc: Doc, states: States)
    ensures ApplyStates(doc, states).Keys == StoredKeys(doc, states)
  {
    if states != [] {
      var front := states[..|states| - 1];
      var last := states[|states| - 1];
      ApplyStatesKeys(doc, front);
      assert KeysOf(states) == KeysOf(front) + {last.0} by {
        forall k | k in KeysOf(states) ensures k in KeysOf(front) + {last.0} {
          var i :| 0 <= i < |states| && states[i].0 == k;
          if i < |front| { assert front[i] == states[i]; }
        }
      }
    }
  }

  lemma {:induction false} ApplyStatesValues(doc: Doc, states: States)
    requires DistinctKeys(states)
    ensures forall i :: 0 <= i < |states| && Assignable(doc, states[i].0) ==>
      states[i].0 in ApplyStates(doc, states) && ApplyStates(doc, states)[states[i].0] == Str(ToStr(states[i].1))
  {
    if states != [] {
      var front := states[..|states| - 1];
      var last := states[|states| - 1];
      ApplyStatesValues(doc, front);
      ApplyStatesKeys(doc, front);
      var prev := ApplyStates(doc, front);
      assert Assignable(doc, last.0) ==> Assignable(prev, last.0);
      forall i | 0 <= i < |states| - 1 && Assignable(doc, states[i].0)
        ensures states[i].0 in ApplyStates(doc, states) && ApplyStates(doc, states)[states[i].0] == Str(ToStr(states[i].1))
      {
        assert front[i] == states[i];
        assert states[i].0 != last.0;
      }
    }
  }

  lemma {:induction false} ApplyStatesKeepsOthers(doc: Doc, states: States)
    ensures forall k :: k in doc && k !in KeysOf(states) ==> k in ApplyStates(doc, states) && ApplyStates(doc, states)[k] == doc[k]
  {
    if states != [] {
      var front := states[..|states| - 1];
      ApplyStatesKeepsOthers(doc, front);
      assert forall k :: k in KeysOf(front) ==> k in KeysOf(states) by {
        forall k | k in KeysOf(front) ensures k in KeysOf(states) {
          var i :| 0 <= i < |front| && front[i].0 == k;
          assert states[i] == front[i];
        }
      }
    }
  }

  /** Only the given keys change, each to the string form of its value; every
      other property keeps its value, and no property disappears. A
      `__proto__` key the document does not own is not stored. */
  lemma ApplyStatesOverwritesOnlyGivenKeys(doc: Doc, states: States)
    requires DistinctKeys(states)
    ensures ApplyStates(doc, states).Keys
      == if ProtoKey in doc then doc.Keys + KeysOf(states) else doc.Keys + KeysOf(states) - {ProtoKey}
    ensures forall i :: 0 <= i < |states| && Assignable(doc, states[i].0) ==>
      ApplyStates(doc, states)[states[i].0] == Str(ToStr(states[i].1))
    ensures forall k :: k in doc && k !in KeysOf(states) ==> ApplyStates(doc, states)[k] == doc[k]
  {
    ApplyStatesKeys(doc, states);
    ApplyStatesValues(doc, states);
    ApplyStatesKeepsOthers(doc, states);
  }

  /** Assigning string values keeps a JSON document a JSON document. */
  lemma {:induction false} ApplyStatesKeepsJson(doc: Doc, states: States)
    requires IsJsonDoc(doc)
    ensures IsJsonDoc(ApplyStates(doc, states))
  {
    if states != [] {
      ApplyStatesKeepsJson(doc, states[..|states| - 1]);
    }
  }

  /** The side-effecting `Object.keys(states).map(...)`: assigns each value's
      string form into the document and collects the assigned strings. */
  method InsertStates(doc: Doc, states: States) returns (updated: Doc, inserted: seq<string>)
    ensures updated == ApplyStates(doc, states)
    ensures inserted == InsertedValues(states)
  {
    updated, inserted := doc, [];
    var i := 0;
    while i < |states|
      invariant 0 <= i <= |states|
      invariant updated == ApplyStates(doc, states[..i])
      invariant inserted == InsertedValues(states[..i])
    {
      var (key, value) := states[i];
      var text := ToStr(value);
      assert states[..i + 1][..i] == states[..i];
      updated := Assign(updated, key, Str(text));
      inserted := inserted + [text];
      i := i + 1;
    }
    assert states[..i] == states;
  }
}
