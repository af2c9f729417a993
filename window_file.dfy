/** The window-state persistence of liblava/app/app.cpp: `to_json` and
    `from_json` for `window::state`, and the control flow of
    `load_window_file` and `load_window_state`. A JSON document is a value
    of JsonValue; reading the file and parsing it are done by collaborators
    whose outcome is an input here. */
module WindowFile {
  import opened Wrappers

  /** A parsed JSON value, as far as the window state looks at it. */
  datatype JsonValue =
    | JNumber(n: int)
    | JBool(b: bool)
    | JObject(fields: map<string, JsonValue>)
    | JOther

  /** The JSON library's exceptions: a type error when the value under `key`
      cannot be read as the type of the field it is meant for, and a parse
      error when the text is not JSON. */
  datatype JsonError = TypeError(key: string) | ParseError

  /** What reading window.json gives: no data (`load_file_data` fails),
      text that `json::parse` rejects, or a parsed document. */
  datatype FileData = NoData | Unparsable | Parsed(doc: JsonValue)

  /** `window::state`. */
  datatype WindowState = WindowState(
    x: int, y: int, width: int, height: int,
    fullscreen: bool, floating: bool, resizable: bool, decorated: bool, maximized: bool,
    monitor: int)

  /** The fields of `window::state`, in the order `from_json` reads them. */
  datatype Field = X | Y | Width | Height | Fullscreen | Floating | Resizable | Decorated | Maximized | Monitor

  const FIELD_ORDER: seq<Field> :=
    [X, Y, Width, Height, Fullscreen, Floating, Resizable, Decorated, Maximized, Monitor]

  /** The JSON key of each field. */
  function Key(f: Field): string {
    match f
    case X => "x"
    case Y => "y"
    case Width => "width"
    case Height => "height"
    case Fullscreen => "fullscreen"
    case Floating => "floating"
    case Resizable => "resizable"
    case Decorated => "decorated"
    case Maximized => "maximized"
    case Monitor => "monitor"
  }

  predicate IsBoolField(f: Field) {
    f.Fullscreen? || f.Floating? || f.Resizable? || f.Decorated? || f.Maximized?
  }

  /** A value `get<int>()` or `get<bool>()` accepts for the field: the
      library reads a boolean as an integer too, but not a number as a
      boolean. */
  predicate Typed(f: Field, v: JsonValue) {
    if IsBoolField(f) then v.JBool? else v.JNumber? || v.JBool?
  }

  /** The value `get<int>()` or `get<bool>()` gives: a boolean read into an
      integer field becomes 1 or 0. */
  function AsField(f: Field, v: JsonValue): JsonValue {
    if !IsBoolField(f) && v.JBool? then JNumber(if v.b then 1 else 0) else v
  }

  function IntOf(v: JsonValue): int
    requires v.JNumber? || v.JBool?
  {
    if v.JNumber? then v.n else if v.b then 1 else 0
  }

  /** The field's value, as `to_json` writes it. */
  function Get(w: WindowState, f: Field): (v: JsonValue)
    ensures Typed(f, v)
    ensures v.JBool? <==> IsBoolField(f)
  {
    match f
    case X => JNumber(w.x)
    case Y => JNumber(w.y)
    case Width => JNumber(w.width)
    case Height => JNumber(w.height)
    case Fullscreen => JBool(w.fullscreen)
    case Floating => JBool(w.floating)
    case Resizable => JBool(w.resizable)
    case Decorated => JBool(w.decorated)
    case Maximized => JBool(w.maximized)
    case Monitor => JNumber(w.monitor)
  }

  /** `w.field = v.get<T>()`. */
  function With(w: WindowState, f: Field, v: JsonValue): (w': WindowState)
    requires Typed(f, v)
    ensures Get(w', f) == AsField(f, v)
    ensures forall g :: g != f ==> Get(w', g) == Get(w, g)
  {
    match f
    case X => w.(x := IntOf(v))
    case Y => w.(y := IntOf(v))
    case Width => w.(width := IntOf(v))
    case Height => w.(height := IntOf(v))
    case Fullscreen => w.(fullscreen := v.b)
    case Floating => w.(floating := v.b)
    case Resizable => w.(resizable := v.b)
    case Decorated => w.(decorated := v.b)
    case Maximized => w.(maximized := v.b)
    case Monitor => w.(monitor := IntOf(v))
  }

  /** Two states that agree on every field are equal. */
  lemma {:induction false} StateExtensionality(w1: WindowState, w2: WindowState)
    requires forall f :: Get(w1, f) == Get(w2, f)
    ensures w1 == w2
  {
    assert Get(w1, X) == Get(w2, X) && Get(w1, Y) == Get(w2, Y);
    assert Get(w1, Width) == Get(w2, Width) && Get(w1, Height) == Get(w2, Height);
    assert Get(w1, Fullscreen) == Get(w2, Fullscreen) && Get(w1, Floating) == Get(w2, Floating);
    assert Get(w1, Resizable) == Get(w2, Resizable) && Get(w1, Decorated) == Get(w2, Decorated);
    assert Get(w1, Maximized) == Get(w2, Maximized) && Get(w1, Monitor) == Get(w2, Monitor);
  }

  /** `j.count(key) != 0`: only an object has keys. */
  predicate HasKey(j: JsonValue, key: string) {
    j.JObject? && key in j.fields
  }

  /** The field holds the document's value, converted to the field's type,
      when its key is present, and its prior value otherwise. */
  predicate FieldFrom(j: JsonValue, w: WindowState, w': WindowState, f: Field) {
    Get(w', f) == if HasKey(j, Key(f)) then AsField(f, j.fields[Key(f)]) else Get(w, f)
  }

  /** `w'` is `w` with each field overwritten exactly when its key is present. */
  predicate UpdatedFrom(j: JsonValue, w: WindowState, w': WindowState) {
    forall f :: FieldFrom(j, w, w', f)
  }

  predicate FieldTyped(j: JsonValue, f: Field) {
    HasKey(j, Key(f)) ==> Typed(f, j.fields[Key(f)])
  }

  /** Every window-state key that is present holds a value of its field's type. */
  predicate WellTyped(j: JsonValue) {
    forall f :: FieldTyped(j, f)
  }

  /** One statement of `from_json`: when the key is present, the field is
      assigned the value converted to the field's type. */
  function ReadField(j: JsonValue, f: Field, w: WindowState): (r: Result<WindowState, JsonError>)
    ensures r.Success? <==> FieldTyped(j, f)
    ensures r.Failure? ==> r.error == TypeError(Key(f))
    ensures r.Success? ==> FieldFrom(j, w, r.value, f)
    ensures r.Success? ==> forall g :: g != f ==> Get(r.value, g) == Get(w, g)
  {
    if !HasKey(j, Key(f)) then Success(w)
    else if Typed(f, j.fields[Key(f)]) then Success(With(w, f, j.fields[Key(f)]))
    else Failure(TypeError(Key(f)))
  }

  /** The statements of `from_json` for the listed fields, in order; the
      first ill-typed value ends the run with its type error. */
  function ReadFields(j: JsonValue, fields: seq<Field>, w: WindowState): Result<WindowState, JsonError>
    decreases |fields|
  {
    if fields == [] then Success(w)
    else
      var w' :- ReadField(j, fields[0], w);
      ReadFields(j, fields[1..], w')
  }

  predicate Distinct(fields: seq<Field>) {
    forall a, b :: 0 <= a < b < |fields| ==> fields[a] != fields[b]
  }

  /** The position of each field in FIELD_ORDER. */
  function Position(f: Field): nat {
    match f
    case X => 0
    case Y => 1
    case Width => 2
    case Height => 3
    case Fullscreen => 4
    case Floating => 5
    case Resizable => 6
    case Decorated => 7
    case Maximized => 8
    case Monitor => 9
  }

  /** No field is read twice. */
  lemma FieldOrderDistinct()
    ensures Distinct(FIELD_ORDER)
  {
    assert forall i :: 0 <= i < |FIELD_ORDER| ==> Position(FIELD_ORDER[i]) == i;
  }

  /** `fields[k]` is the first listed field whose present value has the wrong
      type, and `err` is the type error on its key. */
  predicate FailsAt(j: JsonValue, fields: seq<Field>, k: nat, err: JsonError) {
    && k < |fields| && !FieldTyped(j, fields[k])
    && (forall m :: 0 <= m < k ==> FieldTyped(j, fields[m]))
    && err == TypeError(Key(fields[k]))
  }

  ghost predicate FailsAtFirstIllTyped(j: JsonValue, fields: seq<Field>, err: JsonError) {
    exists k: nat | k < |fields| :: FailsAt(j, fields, k, err)
  }

  lemma {:induction false} ReadFieldsSpec(j: JsonValue, fields: seq<Field>, w: WindowState)
    requires Distinct(fields)
    ensures var r := ReadFields(j, fields, w);
      && (r.Success? <==> forall f :: f in fields ==> FieldTyped(j, f))
      && (r.Success? ==> forall f :: f in fields ==> FieldFrom(j, w, r.value, f))
      && (r.Success? ==> forall f :: f !in fields ==> Get(r.value, f) == Get(w, f))
      && (r.Failure? ==> FailsAtFirstIllTyped(j, fields, r.error))
    decreases |fields|
  {
    if fields != [] {
      var step := ReadField(j, fields[0], w);
      if step.Failure? {
        assert FailsAt(j, fields, 0, step.error);
      } else {
        var rest := fields[1..];
        assert Distinct(rest) by {
          forall a, b | 0 <= a < b < |rest| ensures rest[a] != rest[b] {
            assert rest[a] == fields[a + 1] && rest[b] == fields[b + 1];
          }
        }
        ReadFieldsSpec(j, rest, step.value);
        assert fields[0] !in rest by {
          forall k | 0 <= k < |rest| ensures rest[k] != fields[0] {
            assert rest[k] == fields[k + 1];
          }
        }
        assert forall f :: f in fields <==> f == fields[0] || f in rest;
        var r := ReadFields(j, rest, step.value);
        if r.Failure? {
          var k: nat :| k < |rest| && FailsAt(j, rest, k, r.error);
          assert FailsAt(j, fields, k + 1, r.error) by {
            forall m | 0 <= m < k + 1 ensures FieldTyped(j, fields[m]) {
              if m > 0 { assert fields[m] == rest[m - 1]; }
            }
          }
        }
      }
    }
  }

  /** `from_json(j, w)`: a partial update of `w`, field by field in the order
      of the source, failing with the library's type error on the first
      ill-typed value. */
  function FromJson(j: JsonValue, w: WindowState): Result<WindowState, JsonError> {
    ReadFields(j, FIELD_ORDER, w)
  }

  /** `from_json(j, w)` as statements: `w` is overwritten one field at a
      time, and a type error abandons it. */
  method FromJsonInPlace(j: JsonValue, w: WindowState) returns (r: Result<WindowState, JsonError>)
    ensures r == FromJson(j, w)
  {
    var cur := w;
    var i := 0;
    while i < |FIELD_ORDER|
      invariant 0 <= i <= |FIELD_ORDER|
      invariant ReadFields(j, FIELD_ORDER[i..], cur) == FromJson(j, w)
    {
      var f := FIELD_ORDER[i];
      if HasKey(j, Key(f)) {
        var v := j.fields[Key(f)];
        if !Typed(f, v) {
          return Failure(TypeError(Key(f)));
        }
        cur := With(cur, f, v);
      }
      assert FIELD_ORDER[i..][1..] == FIELD_ORDER[i + 1..];
      i := i + 1;
    }
    return Success(cur);
  }

  lemma EveryFieldIsRead(f: Field)
    ensures f in FIELD_ORDER
  {
  }

  /** `from_json` reads exactly the keys that are present: it succeeds iff
      every present key holds a value of its field's type, and then a field
      changes iff its key is present. */
  lemma {:induction false} FromJsonSpec(j: JsonValue, w: WindowState)
    ensures FromJson(j, w).Success? <==> WellTyped(j)
    ensures FromJson(j, w).Success? ==> UpdatedFrom(j, w, FromJson(j, w).value)
  {
    FieldOrderDistinct();
    ReadFieldsSpec(j, FIELD_ORDER, w);
    forall f ensures f in FIELD_ORDER {
      EveryFieldIsRead(f);
    }
  }

  /** When `from_json` throws, the error names the first ill-typed key in the
      order of the source. */
  lemma {:induction false} FromJsonFirstError(j: JsonValue, w: WindowState)
    ensures FromJson(j, w).Failure? ==> FailsAtFirstIllTyped(j, FIELD_ORDER, FromJson(j, w).error)
  {
    FieldOrderDistinct();
    ReadFieldsSpec(j, FIELD_ORDER, w);
    var r := ReadFields(j, FIELD_ORDER, w);
    if r.Failure? {
      var k: nat :| k < |FIELD_ORDER| && FailsAt(j, FIELD_ORDER, k, r.error);
      assert FailsAt(j, FIELD_ORDER, k, FromJson(j, w).error);
    }
  }

  /** Different fields have different keys. */
  lemma KeyInjective(f: Field, g: Field)
    requires Key(f) == Key(g)
    ensures f == g
  {
    assert Key(f)[0] == Key(g)[0];
  }

  /** A document holding a single well-typed key assigns that one field. */
  lemma {:induction false} FromJsonOneKey(f: Field, v: JsonValue, w: WindowState)
    requires Typed(f, v)
    ensures FromJson(JObject(map[Key(f) := v]), w) == Success(With(w, f, v))
  {
    var j := JObject(map[Key(f) := v]);
    var w' := With(w, f, v);
    assert WellTyped(j) by {
      forall g | HasKey(j, Key(g)) ensures Typed(g, j.fields[Key(g)]) {
        KeyInjective(f, g);
      }
    }
    FromJsonSpec(j, w);
    var r := FromJson(j, w).value;
    forall g ensures Get(r, g) == Get(w', g) {
      assert FieldFrom(j, w, r, g);
      if g != f {
        assert !HasKey(j, Key(g)) by {
          if HasKey(j, Key(g)) { KeyInjective(f, g); }
        }
      }
    }
    StateExtensionality(r, w');
  }

  /** A boolean under an integer key is read as 1 or 0: `{"x": true}` sets
      `x` to 1 and nothing else. */
  lemma {:induction false} BoolReadAsInt(w: WindowState)
    ensures FromJson(JObject(map["x" := JBool(true)]), w) == Success(w.(x := 1))
  {
    FromJsonOneKey(X, JBool(true), w);
  }

  /** `to_json(j, w)`: every field under its key. */
  function ToJson(w: WindowState): JsonValue {
    JObject(map[
      Key(X) := Get(w, X), Key(Y) := Get(w, Y),
      Key(Width) := Get(w, Width), Key(Height) := Get(w, Height),
      Key(Fullscreen) := Get(w, Fullscreen), Key(Floating) := Get(w, Floating),
      Key(Resizable) := Get(w, Resizable), Key(Decorated) := Get(w, Decorated),
      Key(Maximized) := Get(w, Maximized), Key(Monitor) := Get(w, Monitor)])
  }

  /** `to_json` writes an object holding each field's value under its key. */
  lemma {:induction false} ToJsonFields(w: WindowState)
    ensures ToJson(w).JObject?
    ensures forall f :: HasKey(ToJson(w), Key(f)) && ToJson(w).fields[Key(f)] == Get(w, f)
  {
    var m := ToJson(w).fields;
    forall f ensures Key(f) in m && m[Key(f)] == Get(w, f) {
      match f
      case X =>
      case Y =>
      case Width =>
      case Height =>
      case Fullscreen =>
      case Floating =>
      case Resizable =>
      case Decorated =>
      case Maximized =>
      case Monitor =>
    }
  }

  /** Reading back what `to_json` wrote restores the state, whatever the
      state it is read into held before. */
  lemma {:induction false} FromJsonToJson(w: WindowState, prior: WindowState)
    ensures FromJson(ToJson(w), prior) == Success(w)
  {
    var j := ToJson(w);
    ToJsonFields(w);
    FromJsonSpec(j, prior);
    assert WellTyped(j) by {
      forall f ensures FieldTyped(j, f) {
        assert j.fields[Key(f)] == Get(w, f);
      }
    }
    var r := FromJson(j, prior).value;
    forall f ensures Get(r, f) == Get(w, f) {
      assert FieldFrom(j, prior, r, f);
    }
    StateExtensionality(r, w);
  }

  /** A value without any window-state key changes nothing. */
  lemma {:induction false} FromJsonWithoutKeys(j: JsonValue, w: WindowState)
    requires forall f :: !HasKey(j, Key(f))
    ensures FromJson(j, w) == Success(w)
  {
    FromJsonSpec(j, w);
    var r := FromJson(j, w).value;
    forall f ensures Get(r, f) == Get(w, f) {
      assert FieldFrom(j, w, r, f);
    }
    StateExtensionality(r, w);
  }

  /** Applying the same update twice is applying it once. */
  lemma {:induction false} FromJsonIdempotent(j: JsonValue, w: WindowState)
    requires FromJson(j, w).Success?
    ensures FromJson(j, FromJson(j, w).value) == FromJson(j, w)
  {
    var w1 := FromJson(j, w).value;
    FromJsonSpec(j, w);
    FromJsonSpec(j, w1);
    var w2 := FromJson(j, w1).value;
    forall f ensures Get(w2, f) == Get(w1, f) {
      assert FieldFrom(j, w, w1, f) && FieldFrom(j, w1, w2, f);
    }
    StateExtensionality(w2, w1);
  }

  /** `load_window_file(state, save_name)`. `file` is what reading and
      parsing window.json give. `state = j[save_name]` converts the entry
      into a default-constructed `window::state`, so the keys the entry lacks
      take the values of `defaults`, not those of `state`. The result is the
      returned flag and the new `state`; a Failure is the exception that
      `json::parse` or the conversion throws, `state` untouched. */
  function LoadWindowFile(state: WindowState, saveName: string, file: FileData,
                          defaults: WindowState): (r: Result<(bool, WindowState), JsonError>)
    ensures file.NoData? ==> r == Success((false, state))
    ensures file.Unparsable? ==> r == Failure(ParseError)
    ensures file.Parsed? && !HasKey(file.doc, saveName) ==> r == Success((false, state))
    ensures file.Parsed? && HasKey(file.doc, saveName) ==>
      var entry := FromJson(file.doc.fields[saveName], defaults);
      && (r.Success? <==> entry.Success?)
      && (r.Success? ==> r.value == (true, entry.value))
      && (r.Failure? ==> r.error == entry.error)
    ensures r.Success? && !r.value.0 ==> r.value.1 == state
  {
    match file
    case NoData => Success((false, state))
    case Unparsable => Failure(ParseError)
    case Parsed(j) =>
      if !HasKey(j, saveName) then Success((false, state))
      else
        var loaded :- FromJson(j.fields[saveName], defaults);
        Success((true, loaded))
  }

  /** `from_json` only ever throws type errors. */
  lemma {:induction false} FromJsonThrowsTypeErrors(j: JsonValue, w: WindowState)
    ensures FromJson(j, w).Failure? ==> FromJson(j, w).error.TypeError?
  {
    FromJsonFirstError(j, w);
  }

  /** Once the entry exists, what `state` held before does not matter: the
      loaded state is the entry applied to the defaults. */
  lemma {:induction false} LoadIgnoresPriorState(s1: WindowState, s2: WindowState, saveName: string,
                                                 file: FileData, defaults: WindowState)
    requires file.Parsed? && HasKey(file.doc, saveName)
    ensures LoadWindowFile(s1, saveName, file, defaults) == LoadWindowFile(s2, saveName, file, defaults)
    ensures var r := LoadWindowFile(s1, saveName, file, defaults);
      r.Success? ==> r.value.0 && UpdatedFrom(file.doc.fields[saveName], defaults, r.value.1)
  {
    FromJsonSpec(file.doc.fields[saveName], defaults);
  }

  /** `load_window_state(save_name)`: nothing when window.json does not exist
      or has no entry; otherwise the entry read into a default state. The
      exceptions of `load_window_file` pass through. */
  function LoadWindowState(fileExists: bool, saveName: string, file: FileData,
                           defaults: WindowState): (r: Result<Option<WindowState>, JsonError>)
    ensures !fileExists ==> r == Success(None)
    ensures fileExists ==> r.Success? == LoadWindowFile(defaults, saveName, file, defaults).Success?
    ensures fileExists && file.Unparsable? ==> r == Failure(ParseError)
    ensures fileExists && (file.NoData? || (file.Parsed? && !HasKey(file.doc, saveName))) ==> r == Success(None)
    ensures r.Success? && r.value.Some? ==>
      && file.Parsed? && HasKey(file.doc, saveName)
      && FromJson(file.doc.fields[saveName], defaults) == Success(r.value.value)
  {
    if !fileExists then Success(None)
    else
      var loaded :- LoadWindowFile(defaults, saveName, file, defaults);
      if loaded.0 then Success(Some(loaded.1)) else Success(None)
  }

  /** `load_window_state` throws only when window.json exists: a parse error
      when it is not JSON, or a type error from converting an existing
      entry. */
  lemma {:induction false} LoadWindowStateErrors(fileExists: bool, saveName: string, file: FileData,
                                                 defaults: WindowState)
    ensures var r := LoadWindowState(fileExists, saveName, file, defaults);
      r.Failure? ==>
        && fileExists
        && ((file.Unparsable? && r.error == ParseError)
            || (file.Parsed? && HasKey(file.doc, saveName) && r.error.TypeError?))
  {
    if fileExists && file.Parsed? && HasKey(file.doc, saveName) {
      FromJsonThrowsTypeErrors(file.doc.fields[saveName], defaults);
    }
  }

  /** A stored entry whose values all have their fields' types is always
      loaded, and it is the entry applied to the defaults. */
  lemma {:induction false} LoadWindowStateSucceeds(saveName: string, file: FileData, defaults: WindowState)
    requires file.Parsed? && HasKey(file.doc, saveName) && WellTyped(file.doc.fields[saveName])
    ensures var r := LoadWindowState(true, saveName, file, defaults);
      && r.Success? && r.value.Some?
      && UpdatedFrom(file.doc.fields[saveName], defaults, r.value.value)
  {
    FromJsonSpec(file.doc.fields[saveName], defaults);
  }
}
