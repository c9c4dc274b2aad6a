/** The persisted switch state: the current context and the one active before it (src/state.rs). */
module SwitchState {
  import opened Wrappers
  import opened Errors
  import opened Json
  import opened Fs

  /** The two name slots, as a value. */
  datatype Slots = Slots(current: Option<string>, previous: Option<string>)

  /** `State::default()` */
  const Empty := Slots(None, None)

  /** What `set_current(c)` leaves in the slots. */
  function AfterSet(s: Slots, c: string): (r: Slots)
    ensures r.current == Some(c)
    ensures s.current.Some? && s.current.value != c ==> r.previous == s.current
    ensures s.current.None? || s.current == Some(c) ==> r.previous == s.previous
  {
    if s.current.Some? && s.current.value != c then Slots(Some(c), s.current) else Slots(Some(c), s.previous)
  }

  /** What `unset_current()` leaves in the slots, and what it returns. */
  function AfterUnset(s: Slots): (r: (Slots, Option<string>))
    ensures r.1 == s.current
    ensures r.0.current.None?
    ensures s.current.Some? ==> r.0.previous == s.current
    ensures s.current.None? ==> r.0.previous == s.previous
  {
    if s.current.Some? then (Slots(None, s.current), s.current) else (s, None)
  }

  lemma SetCurrentIdempotent(s: Slots, c: string)
    ensures AfterSet(AfterSet(s, c), c) == AfterSet(s, c)
  {
  }

  /** Setting the previous name from (a, b) exchanges the two slots. */
  lemma SetCurrentSwaps(a: string, b: string)
    requires a != b
    ensures AfterSet(Slots(Some(a), Some(b)), b) == Slots(Some(b), Some(a))
  {
  }

  /** `serde_json::to_string_pretty(&state)`: an object with both fields, `null` for None. */
  function Encode(s: Slots): Value {
    Obj(map["current" := EncodeName(s.current), "previous" := EncodeName(s.previous)])
  }

  function EncodeName(n: Option<string>): Value {
    if n.Some? then Str(n.value) else Null
  }

  /** `Option<String>` as serde reads it: `null` or a string; anything else is rejected. */
  function DecodeName(v: Value): Option<Option<string>> {
    match v
    case Null => Some(None)
    case Str(s) => Some(Some(s))
    case _ => None
  }

  /** A struct field of type `Option<String>`: a missing field reads as None. */
  function DecodeField(fields: map<string, Value>, key: string): Option<Option<string>> {
    if key in fields then DecodeName(fields[key]) else Some(None)
  }

  /** A field that serde accepts as `Option<String>`: absent, `null` or a string. */
  predicate NameField(fields: map<string, Value>, key: string) {
    key !in fields || fields[key].Null? || fields[key].Str?
  }

  /** The name a field holds: its string, or none when it is absent or `null`. */
  function FieldName(fields: map<string, Value>, key: string): Option<string> {
    if key in fields && fields[key].Str? then Some(fields[key].s) else None
  }

  /** `serde_json::from_str::<State>` on a parsed value: an object (unknown fields ignored), or the
      struct's sequence form, an array of exactly two entries. */
  function Decode(v: Value): (r: Option<Slots>)
    ensures !(v.Obj? || v.Arr?) ==> r.None?
    ensures v.Obj? && "current" !in v.fields && "previous" !in v.fields ==> r == Some(Empty)
    ensures v.Obj? ==> (r.Some? <==> NameField(v.fields, "current") && NameField(v.fields, "previous"))
    ensures v.Obj? && r.Some? ==> r.value == Slots(FieldName(v.fields, "current"), FieldName(v.fields, "previous"))
    ensures v.Arr? && |v.items| != 2 ==> r.None?
    ensures v.Arr? && |v.items| == 2 ==>
      (r.Some? <==> forall i :: 0 <= i < 2 ==> v.items[i].Null? || v.items[i].Str?)
  {
    match v
    case Obj(f) =>
      var c := DecodeField(f, "current");
      var p := DecodeField(f, "previous");
      if c.Some? && p.Some? then Some(Slots(c.value, p.value)) else None
    case Arr(xs) =>
      if |xs| == 2 && DecodeName(xs[0]).Some? && DecodeName(xs[1]).Some? then
        Some(Slots(DecodeName(xs[0]).value, DecodeName(xs[1]).value))
      else None
    case _ => None
  }

  /** `State::load`: an absent file gives the empty state; a file that does not parse, or does not hold a
      state, is an error. */
  function LoadFrom(files: Files, path: string): (r: Result<Slots, Error>)
    ensures path !in files ==> r == Success(Empty)
    ensures path in files && files[path].Unparsable? ==> r == Failure(ParseError(path))
    ensures r.Failure? ==> r.error == ParseError(path)
    ensures path in files && files[path].Parsed? ==> (r.Success? <==> Decode(files[path].value).Some?)
    ensures path in files && files[path].Parsed? && r.Success? ==> r.value == Decode(files[path].value).value
  {
    if path !in files then Success(Empty)
    else match files[path]
      case Unparsable => Failure(ParseError(path))
      case Parsed(v) => if Decode(v).Some? then Success(Decode(v).value) else Failure(ParseError(path))
  }

  /** `save` followed by `load` gives back the same two slots. */
  lemma SaveThenLoad(files: Files, path: string, s: Slots)
    ensures LoadFrom(files[path := Parsed(Encode(s))], path) == Success(s)
  {
    var f := Encode(s).fields;
    assert "current" in f && "previous" in f;
  }

  /** `State`: the two slots as fields that `set_current` and `unset_current` update in place. */
  class State {
    var current: Option<string>
    var previous: Option<string>

    function Value(): Slots
      reads this
    {
      Slots(current, previous)
    }

    constructor (s: Slots)
      ensures Value() == s
    {
      current, previous := s.current, s.previous;
    }

    /** `State::load` */
    static method Load(fs: FileSystem, path: string) returns (r: Result<State, Error>)
      ensures LoadFrom(fs.files, path).Failure? ==> r == Failure(LoadFrom(fs.files, path).error)
      ensures LoadFrom(fs.files, path).Success? ==> r.Success? && fresh(r.value) && r.value.Value() == LoadFrom(fs.files, path).value
    {
      var loaded := LoadFrom(fs.files, path);
      if loaded.Failure? {
        return Failure(loaded.error);
      }
      var state := new State(loaded.value);
      return Success(state);
    }

    /** `State::save`: a plain write of the encoded state. */
    method Save(fs: FileSystem, path: string)
      modifies fs
      ensures fs.files == old(fs.files)[path := Parsed(Encode(Value()))]
    {
      fs.files := fs.files[path := Parsed(Encode(Value()))];
    }

    method SetCurrent(context: string)
      modifies this
      ensures Value() == AfterSet(old(Value()), context)
    {
      if current.Some? && current.value != context {
        previous := current;
      }
      current := Some(context);
    }

    method UnsetCurrent() returns (was: Option<string>)
      modifies this
      ensures (Value(), was) == AfterUnset(old(Value()))
    {
      was := current;
      current := None;
      if was.Some? {
        previous := was;
      }
    }
  }
}
