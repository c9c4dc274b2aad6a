/** The JSON tree (serde_json::Value). Numbers are kept as their opaque lexeme. */
module Json {
  import opened Wrappers

  datatype Value =
    | Null
    | Bool(b: bool)
    | Num(lexeme: string)
    | Str(s: string)
    | Arr(items: seq<Value>)
    | Obj(fields: map<string, Value>)

  /** `value.get(key)`: present only when `value` is an object holding `key`. */
  function Get(v: Value, key: string): Option<Value> {
    if v.Obj? && key in v.fields then Some(v.fields[key]) else None
  }

  /** Looking a key up in an object's field map. */
  function Lookup(m: map<string, Value>, key: string): Option<Value> {
    if key in m then Some(m[key]) else None
  }

  /** `.and_then(|a| a.as_array())` */
  function AsArray(v: Option<Value>): Option<seq<Value>> {
    if v.Some? && v.value.Arr? then Some(v.value.items) else None
  }

  /** The string entries of a list, as `iter().filter_map(|v| v.as_str()).collect::<HashSet<_>>()` gathers them. */
  function StringsOf(xs: seq<Value>): set<string> {
    set x | x in xs && x.Str? :: x.s
  }

  /** Every entry is a string and no entry occurs twice: the shape of a list rebuilt from a HashSet. */
  predicate DistinctStrings(xs: seq<Value>) {
    && (forall i :: 0 <= i < |xs| ==> xs[i].Str?)
    && (forall i, j :: 0 <= i < j < |xs| ==> xs[i] != xs[j])
  }

  predicate HasPrefix(s: string, prefix: string) {
    |prefix| <= |s| && s[..|prefix|] == prefix
  }

  lemma StringsOfAppend(xs: seq<Value>, ys: seq<Value>)
    ensures StringsOf(xs + ys) == StringsOf(xs) + StringsOf(ys)
  {
    forall s | s in StringsOf(xs + ys) ensures s in StringsOf(xs) + StringsOf(ys) {
      var x :| x in xs + ys && x.Str? && x.s == s;
      assert x in xs || x in ys;
    }
    forall s | s in StringsOf(xs) + StringsOf(ys) ensures s in StringsOf(xs + ys) {
      if s in StringsOf(xs) {
        var x :| x in xs && x.Str? && x.s == s;
        assert x in xs + ys;
      } else {
        var x :| x in ys && x.Str? && x.s == s;
        assert x in xs + ys;
      }
    }
  }

  lemma DistinctStringsSnoc(r: seq<Value>, x: string)
    requires DistinctStrings(r) && x !in StringsOf(r)
    ensures DistinctStrings(r + [Str(x)])
    ensures StringsOf(r + [Str(x)]) == StringsOf(r) + {x}
  {
    StringsOfAppend(r, [Str(x)]);
    assert StringsOf([Str(x)]) == {x};
    forall i | 0 <= i < |r| ensures r[i] != Str(x) {
      assert r[i] in r;
    }
  }

  /** `into_iter().map(Value::String).collect()` over a HashSet: the set's strings, once each, in an order
      the model leaves open (each step takes any element that is left). */
  method SetToList(strings: set<string>) returns (r: seq<Value>)
    ensures DistinctStrings(r)
    ensures StringsOf(r) == strings
  {
    r := [];
    var rest := strings;
    while rest != {}
      invariant DistinctStrings(r)
      invariant StringsOf(r) + rest == strings
      invariant StringsOf(r) !! rest
      decreases rest
    {
      var x :| x in rest;
      DistinctStringsSnoc(r, x);
      r := r + [Str(x)];
      rest := rest - {x};
    }
  }
}
