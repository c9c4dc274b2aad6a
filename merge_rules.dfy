/** Rule lists under `permissions.allow` / `permissions.deny`: merging with deduplication, the items a
    merge records, and the by-value removal an unmerge does (src/merge.rs). */
module MergeRules {
  import opened Wrappers
  import opened Errors
  import opened Json
  import opened Seqs

  /** `json!({"allow": [], "deny": []})` */
  const EmptyPermissions: Value := Obj(map["allow" := Arr([]), "deny" := Arr([])])

  /** The strings of `src`, in source order, that a HashSet seeded with `known` accepts as new:
      the values a merge records. */
  function NewRules(known: set<string>, src: seq<Value>): seq<string>
    decreases |src|
  {
    if src == [] then []
    else
      var init := src[..|src| - 1];
      var last := src[|src| - 1];
      if last.Str? && last.s !in known + StringsOf(init) then NewRules(known, init) + [last.s]
      else NewRules(known, init)
  }

  /** The recorded values are exactly the source strings not already known, each once. */
  lemma {:induction false} NewRulesSpec(known: set<string>, src: seq<Value>)
    ensures forall s :: s in NewRules(known, src) <==> s in StringsOf(src) && s !in known
    ensures NoDup(NewRules(known, src))
    decreases |src|
  {
    if src != [] {
      var init := src[..|src| - 1];
      var last := src[|src| - 1];
      assert src == init + [last];
      StringsOfAppend(init, [last]);
      NewRulesSpec(known, init);
      if last.Str? {
        assert StringsOf([last]) == {last.s};
      } else {
        assert StringsOf([last]) == {};
      }
    }
  }

  /** Once every source string is known, a merge records nothing. */
  lemma NewRulesOfKnown(known: set<string>, src: seq<Value>)
    requires StringsOf(src) <= known
    ensures NewRules(known, src) == []
  {
    NewRulesSpec(known, src);
  }

  /** `format!("{prefix}{s}")` for every value. */
  function Prefixed(prefix: string, xs: seq<string>): (r: seq<string>)
    ensures |r| == |xs|
    ensures forall i :: 0 <= i < |xs| ==> r[i] == prefix + xs[i]
  {
    seq(|xs|, i requires 0 <= i < |xs| => prefix + xs[i])
  }

  lemma PrefixCancel(prefix: string, a: string, b: string)
    ensures prefix + a == prefix + b <==> a == b
  {
    if prefix + a == prefix + b {
      assert a == (prefix + a)[|prefix|..];
    }
  }

  lemma InPrefixed(prefix: string, xs: seq<string>, x: string)
    ensures prefix + x in Prefixed(prefix, xs) <==> x in xs
  {
    if prefix + x in Prefixed(prefix, xs) {
      var i :| 0 <= i < |xs| && Prefixed(prefix, xs)[i] == prefix + x;
      PrefixCancel(prefix, xs[i], x);
    }
    if x in xs {
      var i :| 0 <= i < |xs| && xs[i] == x;
      assert Prefixed(prefix, xs)[i] == prefix + x;
    }
  }

  /** Two prefixes whose first characters differ never produce the same item. */
  lemma DistinctPrefixes(p: string, q: string, a: string, b: string)
    requires p != [] && q != [] && p[0] != q[0]
    ensures p + a != q + b
  {
    assert (p + a)[0] == p[0];
    assert (q + b)[0] == q[0];
  }

  /** The HashSet loop of one list: seed with the target's strings, insert the source's strings in
      order, record each newly inserted one with `prefix`, then rebuild the list from the set. */
  method MergeList(target: seq<Value>, source: seq<Value>, prefix: string) returns (merged: seq<Value>, added: seq<string>)
    ensures DistinctStrings(merged)
    ensures StringsOf(merged) == StringsOf(target) + StringsOf(source)
    ensures added == Prefixed(prefix, NewRules(StringsOf(target), source))
  {
    var seen := StringsOf(target);
    added := [];
    for i := 0 to |source|
      invariant seen == StringsOf(target) + StringsOf(source[..i])
      invariant added == Prefixed(prefix, NewRules(StringsOf(target), source[..i]))
    {
      var item := source[i];
      assert source[..i + 1][..i] == source[..i];
      assert source[..i + 1] == source[..i] + [item];
      StringsOfAppend(source[..i], [item]);
      if item.Str? {
        assert StringsOf([item]) == {item.s};
        if item.s !in seen {
          seen := seen + {item.s};
          added := added + [prefix + item.s];
        }
      } else {
        assert StringsOf([item]) == {};
      }
    }
    assert source[..|source|] == source;
    merged := SetToList(seen);
  }

  /** `perms[key].as_array_mut()` through serde_json's `IndexMut`: a null value becomes an object, a
      missing key is filled with null (neither is an array), and any other non-object panics. */
  function ListAt(perms: Value, key: string): (r: Result<seq<Value>, Error>)
    ensures r.Success? <==> perms.Obj? && key in perms.fields && perms.fields[key].Arr?
    ensures r.Success? ==> r.value == perms.fields[key].items
    ensures r.Failure? ==> r.error == (if perms.Obj? || perms.Null? then NotAnArray(key) else IndexPanic)
  {
    match perms
    case Obj(f) => if key in f && f[key].Arr? then Success(f[key].items) else Failure(NotAnArray(key))
    case Null => Failure(NotAnArray(key))
    case _ => Failure(IndexPanic)
  }

  /** The error a merge of the two lists into `perms` stops with, allow first. */
  function SlotsError(perms: Value, allow: Option<seq<Value>>, deny: Option<seq<Value>>): Option<Error> {
    if allow.Some? && ListAt(perms, "allow").Failure? then Some(ListAt(perms, "allow").error)
    else if deny.Some? && ListAt(perms, "deny").Failure? then Some(ListAt(perms, "deny").error)
    else None
  }

  /** The items a successful merge of the two lists records: allow items, then deny items. */
  function SlotItems(perms: Value, allow: Option<seq<Value>>, deny: Option<seq<Value>>, allowPrefix: string, denyPrefix: string): seq<string>
    requires SlotsError(perms, allow, deny).None?
  {
    (if allow.Some? then Prefixed(allowPrefix, NewRules(StringsOf(ListAt(perms, "allow").value), allow.value)) else [])
    + (if deny.Some? then Prefixed(denyPrefix, NewRules(StringsOf(ListAt(perms, "deny").value), deny.value)) else [])
  }

  /** The list `key` after a merge from `src`: untouched when the source has no such list, otherwise
      distinct strings whose set is the union of the old strings and the source's. */
  ghost predicate ListMerged(f: map<string, Value>, f': map<string, Value>, key: string, src: Option<seq<Value>>) {
    if src.None? then Lookup(f', key) == Lookup(f, key)
    else
      && key in f && f[key].Arr? && key in f' && f'[key].Arr?
      && DistinctStrings(f'[key].items)
      && StringsOf(f'[key].items) == StringsOf(f[key].items) + StringsOf(src.value)
  }

  /** `perms'` is `perms` with both lists merged, and every other entry untouched. */
  ghost predicate SlotsMerged(perms: Value, allow: Option<seq<Value>>, deny: Option<seq<Value>>, perms': Value) {
    if allow.None? && deny.None? then perms' == perms
    else
      && perms.Obj? && perms'.Obj? && perms'.fields.Keys == perms.fields.Keys
      && (forall k :: k in perms.fields && k != "allow" && k != "deny" ==> perms'.fields[k] == perms.fields[k])
      && ListMerged(perms.fields, perms'.fields, "allow", allow)
      && ListMerged(perms.fields, perms'.fields, "deny", deny)
  }

  /** The allow block and the deny block of a merge, shared by the permission merge and the full merge. */
  method MergeSlots(perms: Value, allow: Option<seq<Value>>, deny: Option<seq<Value>>, allowPrefix: string, denyPrefix: string)
    returns (r: Result<(Value, seq<string>), Error>)
    ensures r.Failure? <==> SlotsError(perms, allow, deny).Some?
    ensures r.Failure? ==> r.error == SlotsError(perms, allow, deny).value
    ensures r.Success? ==> SlotsMerged(perms, allow, deny, r.value.0)
    ensures r.Success? ==> r.value.1 == SlotItems(perms, allow, deny, allowPrefix, denyPrefix)
  {
    var p := perms;
    var items: seq<string> := [];
    if allow.Some? {
      var current := ListAt(p, "allow");
      if current.Failure? {
        return Failure(current.error);
      }
      var merged, added := MergeList(current.value, allow.value, allowPrefix);
      p := Obj(p.fields["allow" := Arr(merged)]);
      items := added;
    }
    if deny.Some? {
      var current := ListAt(p, "deny");
      if current.Failure? {
        return Failure(current.error);
      }
      var merged, added := MergeList(current.value, deny.value, denyPrefix);
      p := Obj(p.fields["deny" := Arr(merged)]);
      items := items + added;
    }
    return Success((p, items));
  }

  /** Whether `retain` drops `v`: a string whose recorded item `prefix + v` is to be removed. */
  predicate Drops(v: Value, prefix: string, items: set<string>) {
    v.Str? && prefix + v.s in items
  }

  /** `list.retain(...)` dropping every string whose item is recorded; other entries keep their order
      and their multiplicity. */
  function Retain(xs: seq<Value>, prefix: string, items: set<string>): seq<Value> {
    if xs == [] then []
    else (if Drops(xs[0], prefix, items) then [] else [xs[0]]) + Retain(xs[1..], prefix, items)
  }

  /** `retain` keeps every entry it does not drop, as often as it occurs. */
  lemma {:induction false} RetainCount(xs: seq<Value>, prefix: string, items: set<string>)
    ensures forall v :: multiset(Retain(xs, prefix, items))[v] == if Drops(v, prefix, items) then 0 else multiset(xs)[v]
  {
    if xs != [] {
      RetainCount(xs[1..], prefix, items);
      assert xs == [xs[0]] + xs[1..];
    }
  }

  /** With nothing recorded, `retain` keeps the whole list. */
  lemma {:induction false} RetainNothing(xs: seq<Value>, prefix: string)
    ensures Retain(xs, prefix, {}) == xs
  {
    if xs != [] {
      RetainNothing(xs[1..], prefix);
      assert xs == [xs[0]] + xs[1..];
    }
  }

  lemma StringsOfRetain(xs: seq<Value>, prefix: string, items: set<string>)
    ensures forall s :: s in StringsOf(Retain(xs, prefix, items)) <==> s in StringsOf(xs) && prefix + s !in items
  {
    var r := Retain(xs, prefix, items);
    RetainCount(xs, prefix, items);
    forall s ensures s in StringsOf(r) <==> s in StringsOf(xs) && prefix + s !in items {
      assert s in StringsOf(r) <==> Str(s) in r;
      assert s in StringsOf(xs) <==> Str(s) in xs;
      assert multiset(r)[Str(s)] == if prefix + s in items then 0 else multiset(xs)[Str(s)];
    }
  }

  /** Items that do not carry `prefix` never make `retain` drop anything. */
  lemma {:induction false} RetainIgnores(xs: seq<Value>, prefix: string, items: set<string>, x: string)
    requires !HasPrefix(x, prefix)
    ensures Retain(xs, prefix, items + {x}) == Retain(xs, prefix, items)
  {
    if xs != [] {
      RetainIgnores(xs[1..], prefix, items, x);
      if xs[0].Str? {
        assert (prefix + xs[0].s)[..|prefix|] == prefix;
      }
    }
  }

  /** `retain(|v| v.as_str() != Some(value))` */
  function WithoutString(xs: seq<Value>, value: string): seq<Value> {
    if xs == [] then []
    else (if xs[0] == Str(value) then [] else [xs[0]]) + WithoutString(xs[1..], value)
  }

  lemma WithoutStringCons(head: Value, tail: seq<Value>, value: string)
    ensures WithoutString([head] + tail, value) == (if head == Str(value) then [] else [head]) + WithoutString(tail, value)
  {
    assert ([head] + tail)[0] == head;
    assert ([head] + tail)[1..] == tail;
  }

  /** Dropping one recorded value after the others is the same as dropping all of them at once. */
  lemma {:induction false} RetainThenWithout(xs: seq<Value>, prefix: string, items: set<string>, value: string)
    ensures WithoutString(Retain(xs, prefix, items), value) == Retain(xs, prefix, items + {prefix + value})
  {
    if xs != [] {
      var head, tail := xs[0], xs[1..];
      var more := items + {prefix + value};
      RetainThenWithout(tail, prefix, items, value);
      if head.Str? {
        PrefixCancel(prefix, head.s, value);
      }
      assert Drops(head, prefix, more) <==> Drops(head, prefix, items) || head == Str(value);
      if Drops(head, prefix, items) {
        assert Retain(xs, prefix, items) == Retain(tail, prefix, items);
      } else {
        assert Retain(xs, prefix, items) == [head] + Retain(tail, prefix, items);
        WithoutStringCons(head, Retain(tail, prefix, items), value);
      }
    }
  }

  /** The list `key` of an object's fields with `retain` applied, when it is an array. */
  function RetainList(f: map<string, Value>, key: string, prefix: string, items: set<string>): map<string, Value> {
    if key in f && f[key].Arr? then f[key := Arr(Retain(f[key].items, prefix, items))] else f
  }

  /** Both `retain` passes over a permissions value; anything but an object is left alone. */
  function StripRules(perms: Value, allowPrefix: string, denyPrefix: string, items: set<string>): Value {
    if perms.Obj? then Obj(RetainList(RetainList(perms.fields, "allow", allowPrefix, items), "deny", denyPrefix, items))
    else perms
  }

  /** `target.get_mut("permissions")` followed by both `retain` passes. */
  function RemoveRules(target: Value, allowPrefix: string, denyPrefix: string, items: set<string>): (r: Value)
    ensures r.Obj? <==> target.Obj?
    ensures r.Obj? ==> r.fields.Keys == target.fields.Keys
    ensures r.Obj? ==> forall k :: k in target.fields && k != "permissions" ==> r.fields[k] == target.fields[k]
  {
    if target.Obj? && "permissions" in target.fields then
      Obj(target.fields["permissions" := StripRules(target.fields["permissions"], allowPrefix, denyPrefix, items)])
    else target
  }

  /** The strings of list `key` under `permissions`, or none when there is no such array. */
  function RuleSet(v: Value, key: string): set<string> {
    var p := Get(v, "permissions");
    var l := if p.Some? then AsArray(Get(p.value, key)) else None;
    if l.Some? then StringsOf(l.value) else {}
  }

  /** Removing rules by value takes exactly the recorded strings out of the rule set. */
  lemma RuleSetAfterRemove(target: Value, allowPrefix: string, denyPrefix: string, items: set<string>, key: string)
    requires key == "allow" || key == "deny"
    ensures var prefix := if key == "allow" then allowPrefix else denyPrefix;
      forall s :: s in RuleSet(RemoveRules(target, allowPrefix, denyPrefix, items), key) <==> s in RuleSet(target, key) && prefix + s !in items
  {
    var prefix := if key == "allow" then allowPrefix else denyPrefix;
    var p := Get(target, "permissions");
    if p.Some? && p.value.Obj? && key in p.value.fields && p.value.fields[key].Arr? {
      StringsOfRetain(p.value.fields[key].items, prefix, items);
    }
  }
}
