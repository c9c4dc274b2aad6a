/** `MergeManager`: merging permissions or whole settings from a source into a target document, and
    undoing it from the recorded history (src/merge.rs). */
module Merge {
  import opened Wrappers
  import opened Errors
  import opened Json
  import opened Fs
  import opened MergeRules
  import opened Seqs
  import opened MergeHistoryFile

  /** What a merge hands back: the updated target and the history record to append. */
  datatype Merged = Merged(target: Value, history: MergeHistory)

  // ---------------------------------------------------------------- permission merge

  /** The guard of `merge_permissions`: a target without `permissions` gets an empty allow/deny
      object. Writing a key into a value that is neither object nor null panics. */
  function Prepare(target: Value): (r: Result<Value, Error>)
    ensures r.Failure? <==> !(target.Obj? || target.Null?)
    ensures r.Failure? ==> r.error == IndexPanic
    ensures r.Success? ==> r.value.Obj? && "permissions" in r.value.fields
    ensures r.Success? && target.Obj? ==> r.value.fields.Keys == target.fields.Keys + {"permissions"}
    ensures r.Success? && target.Obj? ==> forall k :: k in target.fields ==> r.value.fields[k] == target.fields[k]
    ensures r.Success? && Get(target, "permissions").None? ==> r.value.fields["permissions"] == EmptyPermissions
  {
    match target
    case Null => Success(Obj(map["permissions" := EmptyPermissions]))
    case Obj(f) => Success(if "permissions" in f then target else Obj(f["permissions" := EmptyPermissions]))
    case _ => Failure(IndexPanic)
  }

  /** `source.get("permissions").and_then(|p| p.get(key)).and_then(|a| a.as_array())` */
  function SourceList(source: Value, key: string): Option<seq<Value>> {
    var p := Get(source, "permissions");
    if p.Some? then AsArray(Get(p.value, key)) else None
  }

  /** Why `merge_permissions(target, source)` fails, if it does. */
  function PermissionsError(target: Value, source: Value): Option<Error> {
    match Prepare(target)
    case Failure(e) => Some(e)
    case Success(t) => SlotsError(t.fields["permissions"], SourceList(source, "allow"), SourceList(source, "deny"))
  }

  /** `result` is the target after a successful `merge_permissions`: everything but `permissions`
      as the guard left it, and both lists merged. */
  ghost predicate PermissionsMerged(target: Value, source: Value, result: Value) {
    && PermissionsError(target, source).None?
    && var t := Prepare(target).value;
    && result.Obj? && result.fields.Keys == t.fields.Keys
    && (forall k :: k in t.fields && k != "permissions" ==> result.fields[k] == t.fields[k])
    && SlotsMerged(t.fields["permissions"], SourceList(source, "allow"), SourceList(source, "deny"), result.fields["permissions"])
  }

  /** The `merged_items` of a successful `merge_permissions`. */
  function PermissionItems(target: Value, source: Value): seq<string>
    requires PermissionsError(target, source).None?
  {
    SlotItems(Prepare(target).value.fields["permissions"], SourceList(source, "allow"), SourceList(source, "deny"), "allow:", "deny:")
  }

  // ---------------------------------------------------------------- full merge

  /** The permissions value a full merge works on: the target's, or the empty one it inserts. */
  function PermissionsBase(t: map<string, Value>): Value {
    if "permissions" in t then t["permissions"] else EmptyPermissions
  }

  /** The target's value at `key` (other than `permissions`) after a full merge: `env` gains the
      source's missing variables when both are objects; every other key is copied only when absent. */
  function FullField(t: map<string, Value>, s: map<string, Value>, key: string): Option<Value> {
    if key !in s then Lookup(t, key)
    else if key == "env" then
      if !s[key].Obj? then Lookup(t, key)
      else
        var te := EnvBase(t);
        if te.Obj? then Some(Obj(s[key].fields + te.fields)) else Some(te)
    else if key in t then Some(t[key])
    else Some(s[key])
  }

  /** The `env` value a full merge works on: the target's, or the empty object it inserts. */
  function EnvBase(t: map<string, Value>): Value {
    if "env" in t then t["env"] else Obj(map[])
  }

  /** Why `merge_full(target, source)` fails, if it does: only the permissions lists can. */
  function FullMergeError(target: Value, source: Value): Option<Error> {
    if target.Obj? && source.Obj? && "permissions" in source.fields then
      SlotsError(PermissionsBase(target.fields), SourceList(source, "allow"), SourceList(source, "deny"))
    else None
  }

  /** `result` is the target after a successful `merge_full`. */
  ghost predicate FullMerged(target: Value, source: Value, result: Value) {
    if !(target.Obj? && source.Obj?) then result == target
    else
      var t, s := target.fields, source.fields;
      && result.Obj?
      && (forall k :: k != "permissions" ==> Lookup(result.fields, k) == FullField(t, s, k))
      && (if "permissions" in s then
            "permissions" in result.fields
            && SlotsMerged(PermissionsBase(t), SourceList(source, "allow"), SourceList(source, "deny"), result.fields["permissions"])
          else Lookup(result.fields, "permissions") == Lookup(t, "permissions"))
  }

  /** Top-level keys a full merge copies over, restricted to the keys in `done`. */
  function TopAdded(t: map<string, Value>, s: map<string, Value>, done: set<string>): set<string> {
    set k | k in done && k in s && k !in t && k != "permissions" && k != "env"
  }

  /** The `env:` items of a full merge: one per source variable the target's `env` lacks. */
  function EnvItems(t: map<string, Value>, s: map<string, Value>): multiset<string> {
    if "env" in s && s["env"].Obj? && EnvBase(t).Obj? then multiset(EnvNew(EnvBase(t).fields, s["env"].fields.Keys))
    else multiset{}
  }

  /** The `env:` items for the source variables in `keys` that `te` lacks. */
  function EnvNew(te: map<string, Value>, keys: set<string>): set<string> {
    set k | k in keys && k !in te :: "env:" + k
  }

  /** The `permissions.allow:` and `permissions.deny:` items of a full merge. */
  function PermissionsFullItems(target: Value, source: Value): seq<string>
    requires target.Obj? && source.Obj?
    requires FullMergeError(target, source).None?
  {
    if "permissions" in source.fields then
      SlotItems(PermissionsBase(target.fields), SourceList(source, "allow"), SourceList(source, "deny"), "permissions.allow:", "permissions.deny:")
    else []
  }

  /** The `merged_items` of a successful full merge, as a multiset: their order follows the source
      object's key order, which the model leaves open. */
  function FullItems(target: Value, source: Value): multiset<string>
    requires FullMergeError(target, source).None?
  {
    if !(target.Obj? && source.Obj?) then multiset{}
    else
      multiset(TopAdded(target.fields, source.fields, source.fields.Keys))
      + EnvItems(target.fields, source.fields)
      + multiset(PermissionsFullItems(target, source))
  }

  // ---------------------------------------------------------------- full unmerge

  /** `env` with the variables of recorded `env:` items removed. */
  function EnvStripped(env: Value, items: set<string>): Value {
    if env.Obj? then Obj(map k | k in env.fields && "env:" + k !in items :: env.fields[k]) else env
  }

  /** The target after the first part of `unmerge_full`: recorded top-level keys removed, then recorded
      `env:` variables and `permissions.allow:`/`permissions.deny:` values. */
  function UnmergeFullTarget(target: Value, items: set<string>): Value {
    if target.Obj? then
      Obj(map k | k in target.fields && k !in items ::
            if k == "env" then EnvStripped(target.fields[k], items)
            else if k == "permissions" then StripRules(target.fields[k], "permissions.allow:", "permissions.deny:", items)
            else target.fields[k])
    else target
  }

  lemma EnvNewStep(te: map<string, Value>, keys: set<string>, key: string)
    requires key !in keys
    ensures key in te ==> EnvNew(te, keys + {key}) == EnvNew(te, keys)
    ensures key !in te ==> EnvNew(te, keys + {key}) == EnvNew(te, keys) + {"env:" + key}
    ensures "env:" + key !in EnvNew(te, keys)
  {
    forall k | k in keys ensures "env:" + k != "env:" + key {
      PrefixCancel("env:", k, key);
    }
  }

  /** A duplicate-free list holds each member of its set once. */
  lemma {:induction false} NoDupMultiset(xs: seq<string>, strings: set<string>)
    requires NoDup(xs)
    requires forall x :: x in xs <==> x in strings
    ensures multiset(xs) == multiset(strings)
    decreases |xs|
  {
    if xs == [] {
      assert strings == {};
    } else {
      var init, x := xs[..|xs| - 1], xs[|xs| - 1];
      assert xs == init + [x];
      assert x !in init by {
        forall i | 0 <= i < |init| ensures init[i] != x {
          assert xs[i] == init[i];
        }
      }
      assert NoDup(init) by {
        forall i, j | 0 <= i < j < |init| ensures init[i] != init[j] {
          assert xs[i] == init[i] && xs[j] == init[j];
        }
      }
      NoDupMultiset(init, strings - {x});
      assert strings == (strings - {x}) + {x};
      assert multiset(strings) == multiset(strings - {x}) + multiset{x};
    }
  }

  /** The items recorded once the source keys in `done` have been processed. */
  function DoneItems(target: Value, source: Value, done: set<string>): multiset<string>
    requires target.Obj? && source.Obj?
    requires "permissions" in done ==> FullMergeError(target, source).None?
  {
    multiset(TopAdded(target.fields, source.fields, done))
    + (if "env" in done then EnvItems(target.fields, source.fields) else multiset{})
    + (if "permissions" in done then multiset(PermissionsFullItems(target, source)) else multiset{})
  }

  lemma TopAddedStep(t: map<string, Value>, s: map<string, Value>, done: set<string>, key: string)
    requires key !in done && key in s
    ensures key in t || key == "permissions" || key == "env" ==> TopAdded(t, s, done + {key}) == TopAdded(t, s, done)
    ensures key !in t && key != "permissions" && key != "env" ==>
      multiset(TopAdded(t, s, done + {key})) == multiset(TopAdded(t, s, done)) + multiset{key}
  {
    if key !in t && key != "permissions" && key != "env" {
      assert TopAdded(t, s, done + {key}) == TopAdded(t, s, done) + {key};
    }
  }

  /** What `merge_full` has done once the source keys in `done` have been visited in some order:
      those keys are merged, the others untouched, and their items recorded. */
  ghost predicate FullProgress(target: Value, source: Value, cur: map<string, Value>, items: seq<string>, done: set<string>)
    requires target.Obj? && source.Obj?
  {
    var t, s := target.fields, source.fields;
    && done <= s.Keys
    && (forall k :: k !in done ==> Lookup(cur, k) == Lookup(t, k))
    && (forall k :: k in done && k != "permissions" ==> Lookup(cur, k) == FullField(t, s, k))
    && ("permissions" in done ==> FullMergeError(target, source).None?)
    && ("permissions" in done ==> "permissions" in cur)
    && ("permissions" in done ==>
          SlotsMerged(PermissionsBase(t), SourceList(source, "allow"), SourceList(source, "deny"), cur["permissions"]))
    && multiset(items) == DoneItems(target, source, done)
  }

  lemma FullProgressComplete(target: Value, source: Value, cur: map<string, Value>, items: seq<string>)
    requires target.Obj? && source.Obj?
    requires FullProgress(target, source, cur, items, source.fields.Keys)
    ensures FullMergeError(target, source).None?
    ensures FullMerged(target, source, Obj(cur))
    ensures multiset(items) == FullItems(target, source)
  {
  }

  lemma PermissionsStep(target: Value, source: Value, cur: map<string, Value>, items: seq<string>, done: set<string>,
                        perms: Value, added: seq<string>)
    requires target.Obj? && source.Obj? && "permissions" in source.fields && "permissions" !in done
    requires FullProgress(target, source, cur, items, done)
    requires FullMergeError(target, source).None?
    requires SlotsMerged(PermissionsBase(target.fields), SourceList(source, "allow"), SourceList(source, "deny"), perms)
    requires added == PermissionsFullItems(target, source)
    ensures FullProgress(target, source, cur["permissions" := perms], items + added, done + {"permissions"})
  {
    var t, s := target.fields, source.fields;
    var done' := done + {"permissions"};
    var cur' := cur["permissions" := perms];
    assert forall k :: k != "permissions" ==> Lookup(cur', k) == Lookup(cur, k);
    assert forall k :: k !in done' ==> Lookup(cur', k) == Lookup(t, k);
    assert forall k :: k in done' && k != "permissions" ==> Lookup(cur', k) == FullField(t, s, k);
    PermissionsItemsStep(target, source, done);
  }

  lemma PermissionsItemsStep(target: Value, source: Value, done: set<string>)
    requires target.Obj? && source.Obj? && "permissions" in source.fields && "permissions" !in done
    requires FullMergeError(target, source).None?
    ensures DoneItems(target, source, done + {"permissions"}) == DoneItems(target, source, done) + multiset(PermissionsFullItems(target, source))
  {
    TopAddedStep(target.fields, source.fields, done, "permissions");
    assert "env" in done + {"permissions"} <==> "env" in done;
  }

  lemma EnvStep(target: Value, source: Value, cur: map<string, Value>, items: seq<string>, done: set<string>,
                env: Option<Value>, added: seq<string>)
    requires target.Obj? && source.Obj? && "env" in source.fields && "env" !in done
    requires FullProgress(target, source, cur, items, done)
    requires env.Some? ==> Some(env.value) == FullField(cur, source.fields, "env")
    requires env.None? ==> Lookup(cur, "env") == FullField(cur, source.fields, "env")
    requires multiset(added) == EnvItems(cur, source.fields)
    ensures FullProgress(target, source, if env.Some? then cur["env" := env.value] else cur, items + added, done + {"env"})
  {
    var t, s := target.fields, source.fields;
    var done' := done + {"env"};
    var cur' := if env.Some? then cur["env" := env.value] else cur;
    assert Lookup(cur, "env") == Lookup(t, "env");
    assert EnvBase(cur) == EnvBase(t);
    assert FullField(cur, s, "env") == FullField(t, s, "env");
    assert forall k :: k != "env" ==> Lookup(cur', k) == Lookup(cur, k);
    assert Lookup(cur', "env") == FullField(t, s, "env");
    assert forall k :: k !in done' ==> Lookup(cur', k) == Lookup(t, k);
    assert forall k :: k in done' && k != "permissions" ==> Lookup(cur', k) == FullField(t, s, k);
    assert "permissions" in done' ==> "permissions" in cur' && cur'["permissions"] == cur["permissions"];
    assert EnvItems(cur, s) == EnvItems(t, s);
    EnvItemsStep(target, source, done);
  }

  lemma EnvItemsStep(target: Value, source: Value, done: set<string>)
    requires target.Obj? && source.Obj? && "env" in source.fields && "env" !in done
    requires "permissions" in done ==> FullMergeError(target, source).None?
    ensures DoneItems(target, source, done + {"env"}) == DoneItems(target, source, done) + EnvItems(target.fields, source.fields)
  {
    TopAddedStep(target.fields, source.fields, done, "env");
    assert "permissions" in done + {"env"} <==> "permissions" in done;
  }

  lemma OtherStep(target: Value, source: Value, cur: map<string, Value>, items: seq<string>, done: set<string>, key: string)
    requires target.Obj? && source.Obj? && key in source.fields && key !in done
    requires key != "permissions" && key != "env"
    requires FullProgress(target, source, cur, items, done)
    ensures key !in cur ==> FullProgress(target, source, cur[key := source.fields[key]], items + [key], done + {key})
    ensures key in cur ==> FullProgress(target, source, cur, items, done + {key})
  {
    var t, s := target.fields, source.fields;
    var done' := done + {key};
    var (cur', items') := if key !in cur then (cur[key := s[key]], items + [key]) else (cur, items);
    assert Lookup(cur, key) == Lookup(t, key);
    assert forall k :: k != key ==> Lookup(cur', k) == Lookup(cur, k);
    assert Lookup(cur', key) == FullField(t, s, key);
    assert forall k :: k !in done' ==> Lookup(cur', k) == Lookup(t, k);
    assert forall k :: k in done' && k != "permissions" ==> Lookup(cur', k) == FullField(t, s, k);
    assert "permissions" in done' ==> "permissions" in cur' && cur'["permissions"] == cur["permissions"];
    OtherItemsStep(target, source, done, key);
  }

  lemma OtherItemsStep(target: Value, source: Value, done: set<string>, key: string)
    requires target.Obj? && source.Obj? && key in source.fields && key !in done
    requires key != "permissions" && key != "env"
    requires "permissions" in done ==> FullMergeError(target, source).None?
    ensures key in target.fields ==> DoneItems(target, source, done + {key}) == DoneItems(target, source, done)
    ensures key !in target.fields ==> DoneItems(target, source, done + {key}) == DoneItems(target, source, done) + multiset{key}
  {
    TopAddedStep(target.fields, source.fields, done, key);
    assert "permissions" in done + {key} <==> "permissions" in done;
    assert "env" in done + {key} <==> "env" in done;
  }

  /** The target's fields once the top-level keys in `items` are dropped and the items in `done`
      have been applied to `env` and `permissions`. */
  function StripPartial(f: map<string, Value>, items: set<string>, done: set<string>): map<string, Value> {
    map k | k in f && k !in items ::
      if k == "env" then EnvStripped(f[k], done)
      else if k == "permissions" then StripRules(f[k], "permissions.allow:", "permissions.deny:", done)
      else f[k]
  }

  lemma EnvStrippedStep(v: Value, done: set<string>, item: string)
    ensures HasPrefix(item, "env:") && v.Obj? ==>
      EnvStripped(v, done + {item}) == Obj(EnvStripped(v, done).fields - {item[4..]})
    ensures !HasPrefix(item, "env:") ==> EnvStripped(v, done + {item}) == EnvStripped(v, done)
  {
    if v.Obj? {
      forall k ensures "env:" + k == item <==> HasPrefix(item, "env:") && k == item[4..] {
        if "env:" + k == item {
          assert item[..4] == "env:" && item[4..] == k;
        }
        if HasPrefix(item, "env:") && k == item[4..] {
          assert item == item[..4] + item[4..];
        }
      }
    }
  }

  /** Before any item is applied, only the top-level keys are gone. */
  lemma StripNothing(f: map<string, Value>, items: set<string>)
    ensures StripPartial(f, items, {}) == map k | k in f && k !in items :: f[k]
  {
    if "env" in f && f["env"].Obj? {
      assert EnvStripped(f["env"], {}) == f["env"];
    }
    if "permissions" in f && f["permissions"].Obj? {
      var p := f["permissions"].fields;
      if "allow" in p && p["allow"].Arr? {
        RetainNothing(p["allow"].items, "permissions.allow:");
      }
      var p' := RetainList(p, "allow", "permissions.allow:", {});
      assert p' == p;
      if "deny" in p && p["deny"].Arr? {
        RetainNothing(p["deny"].items, "permissions.deny:");
      }
      assert RetainList(p', "deny", "permissions.deny:", {}) == p;
    }
  }

  /** The two permission item prefixes never both apply, and neither applies to an `env:` item. */
  lemma ItemPrefixes(item: string)
    ensures HasPrefix(item, "permissions.allow:") ==> !HasPrefix(item, "permissions.deny:")
    ensures HasPrefix(item, "env:") ==> !HasPrefix(item, "permissions.allow:") && !HasPrefix(item, "permissions.deny:")
  {
    if HasPrefix(item, "permissions.allow:") {
      assert item[12] == "permissions.allow:"[12];
    }
    if HasPrefix(item, "env:") {
      assert item[0] == 'e';
    }
  }

  /** One more recorded `allow` value is one more `retain(|v| v.as_str() != Some(value))` on `allow`. */
  lemma StripAllowStep(v: Value, pa: string, pd: string, done: set<string>, value: string)
    requires v.Obj? && !HasPrefix(pa + value, pd)
    ensures var r := StripRules(v, pa, pd, done);
      StripRules(v, pa, pd, done + {pa + value})
        == if "allow" in r.fields && r.fields["allow"].Arr? then Obj(r.fields["allow" := Arr(WithoutString(r.fields["allow"].items, value))]) else r
  {
    var f, more := v.fields, done + {pa + value};
    var r := StripRules(v, pa, pd, done);
    var r' := StripRules(v, pa, pd, more);
    if "deny" in f && f["deny"].Arr? {
      RetainIgnores(f["deny"].items, pd, done, pa + value);
      assert r'.fields["deny"] == r.fields["deny"];
    }
    if "allow" in f && f["allow"].Arr? {
      RetainThenWithout(f["allow"].items, pa, done, value);
      assert r'.fields["allow"] == Arr(WithoutString(r.fields["allow"].items, value));
      assert r'.fields == r.fields["allow" := Arr(WithoutString(r.fields["allow"].items, value))];
    } else {
      assert r'.fields == r.fields;
    }
  }

  /** One more recorded `deny` value is one more `retain(|v| v.as_str() != Some(value))` on `deny`. */
  lemma StripDenyStep(v: Value, pa: string, pd: string, done: set<string>, value: string)
    requires v.Obj? && !HasPrefix(pd + value, pa)
    ensures var r := StripRules(v, pa, pd, done);
      StripRules(v, pa, pd, done + {pd + value})
        == if "deny" in r.fields && r.fields["deny"].Arr? then Obj(r.fields["deny" := Arr(WithoutString(r.fields["deny"].items, value))]) else r
  {
    var f, more := v.fields, done + {pd + value};
    if "allow" in f && f["allow"].Arr? {
      RetainIgnores(f["allow"].items, pa, done, pd + value);
    }
    var mid := RetainList(f, "allow", pa, done);
    assert RetainList(f, "allow", pa, more) == mid;
    if "deny" in mid && mid["deny"].Arr? {
      RetainThenWithout(mid["deny"].items, pd, done, value);
    }
  }

  /** An item with neither prefix leaves both lists alone. */
  lemma StripRulesIgnores(v: Value, pa: string, pd: string, done: set<string>, item: string)
    requires !HasPrefix(item, pa) && !HasPrefix(item, pd)
    ensures StripRules(v, pa, pd, done + {item}) == StripRules(v, pa, pd, done)
  {
    if v.Obj? {
      var f := v.fields;
      if "allow" in f && f["allow"].Arr? {
        RetainIgnores(f["allow"].items, pa, done, item);
      }
      if "deny" in f && f["deny"].Arr? {
        RetainIgnores(f["deny"].items, pd, done, item);
      }
    }
  }

  /** Applying one more recorded item is the loop body of `unmerge_full`. */
  lemma StripStep(f: map<string, Value>, items: set<string>, done: set<string>, item: string)
    ensures var prev, next := StripPartial(f, items, done), StripPartial(f, items, done + {item});
      && (HasPrefix(item, "env:") ==>
            next == if "env" in prev && prev["env"].Obj? then prev["env" := Obj(prev["env"].fields - {item[4..]})] else prev)
      && (!HasPrefix(item, "env:") && HasPrefix(item, "permissions.allow:") ==>
            next == if "permissions" in prev && prev["permissions"].Obj? && "allow" in prev["permissions"].fields && prev["permissions"].fields["allow"].Arr?
                    then prev["permissions" := Obj(prev["permissions"].fields["allow" := Arr(WithoutString(prev["permissions"].fields["allow"].items, item[18..]))])]
                    else prev)
      && (!HasPrefix(item, "env:") && !HasPrefix(item, "permissions.allow:") && HasPrefix(item, "permissions.deny:") ==>
            next == if "permissions" in prev && prev["permissions"].Obj? && "deny" in prev["permissions"].fields && prev["permissions"].fields["deny"].Arr?
                    then prev["permissions" := Obj(prev["permissions"].fields["deny" := Arr(WithoutString(prev["permissions"].fields["deny"].items, item[17..]))])]
                    else prev)
      && (!HasPrefix(item, "env:") && !HasPrefix(item, "permissions.allow:") && !HasPrefix(item, "permissions.deny:") ==> next == prev)
  {
    var pa, pd := "permissions.allow:", "permissions.deny:";
    ItemPrefixes(item);
    if HasPrefix(item, "env:") {
      StripEnvCase(f, items, done, item);
    } else if HasPrefix(item, pa) {
      StripAllowCase(f, items, done, item);
    } else if HasPrefix(item, pd) {
      StripDenyCase(f, items, done, item);
    } else {
      StripOtherCase(f, items, done, item);
    }
  }

  lemma StripEnvCase(f: map<string, Value>, items: set<string>, done: set<string>, item: string)
    requires HasPrefix(item, "env:")
    ensures var prev, next := StripPartial(f, items, done), StripPartial(f, items, done + {item});
      next == if "env" in prev && prev["env"].Obj? then prev["env" := Obj(prev["env"].fields - {item[4..]})] else prev
  {
    var prev, next := StripPartial(f, items, done), StripPartial(f, items, done + {item});
    ItemPrefixes(item);
    if "env" in f {
      EnvStrippedStep(f["env"], done, item);
    }
    if "permissions" in f {
      StripRulesIgnores(f["permissions"], "permissions.allow:", "permissions.deny:", done, item);
    }
    assert next.Keys == prev.Keys;
  }

  lemma StripAllowCase(f: map<string, Value>, items: set<string>, done: set<string>, item: string)
    requires HasPrefix(item, "permissions.allow:")
    ensures var prev, next := StripPartial(f, items, done), StripPartial(f, items, done + {item});
      next == if "permissions" in prev && prev["permissions"].Obj? && "allow" in prev["permissions"].fields && prev["permissions"].fields["allow"].Arr?
              then prev["permissions" := Obj(prev["permissions"].fields["allow" := Arr(WithoutString(prev["permissions"].fields["allow"].items, item[18..]))])]
              else prev
  {
    var pa, pd := "permissions.allow:", "permissions.deny:";
    var prev, next := StripPartial(f, items, done), StripPartial(f, items, done + {item});
    ItemPrefixes(item);
    if "env" in f {
      EnvStrippedStep(f["env"], done, item);
    }
    if "permissions" in f && f["permissions"].Obj? {
      assert item == pa + item[18..];
      StripAllowStep(f["permissions"], pa, pd, done, item[18..]);
    }
    assert next.Keys == prev.Keys;
  }

  lemma StripDenyCase(f: map<string, Value>, items: set<string>, done: set<string>, item: string)
    requires HasPrefix(item, "permissions.deny:") && !HasPrefix(item, "permissions.allow:")
    ensures var prev, next := StripPartial(f, items, done), StripPartial(f, items, done + {item});
      next == if "permissions" in prev && prev["permissions"].Obj? && "deny" in prev["permissions"].fields && prev["permissions"].fields["deny"].Arr?
              then prev["permissions" := Obj(prev["permissions"].fields["deny" := Arr(WithoutString(prev["permissions"].fields["deny"].items, item[17..]))])]
              else prev
  {
    var pa, pd := "permissions.allow:", "permissions.deny:";
    var prev, next := StripPartial(f, items, done), StripPartial(f, items, done + {item});
    assert !HasPrefix(item, "env:") by {
      assert item[0] == 'p';
    }
    if "env" in f {
      EnvStrippedStep(f["env"], done, item);
    }
    if "permissions" in f && f["permissions"].Obj? {
      assert item == pd + item[17..];
      StripDenyStep(f["permissions"], pa, pd, done, item[17..]);
    }
    assert next.Keys == prev.Keys;
  }

  lemma StripOtherCase(f: map<string, Value>, items: set<string>, done: set<string>, item: string)
    requires !HasPrefix(item, "env:") && !HasPrefix(item, "permissions.allow:") && !HasPrefix(item, "permissions.deny:")
    ensures StripPartial(f, items, done + {item}) == StripPartial(f, items, done)
  {
    var prev, next := StripPartial(f, items, done), StripPartial(f, items, done + {item});
    if "env" in f {
      EnvStrippedStep(f["env"], done, item);
    }
    if "permissions" in f {
      StripRulesIgnores(f["permissions"], "permissions.allow:", "permissions.deny:", done, item);
    }
    assert next.Keys == prev.Keys;
  }

  /** `MergeManager`, working in one contexts directory. */
  datatype MergeManager = MergeManager(settingsDir: string) {

    /** `save_history`: a plain write of the encoded records. */
    method SaveHistory(fs: FileSystem, contextName: string, history: seq<MergeHistory>)
      modifies fs
      ensures fs.files == old(fs.files)[HistoryPath(settingsDir, contextName) := Parsed(EncodeHistory(history))]
    {
      fs.files := fs.files[HistoryPath(settingsDir, contextName) := Parsed(EncodeHistory(history))];
    }

    /** `merge_permissions`: fails exactly as the guard and the two list blocks do; otherwise merges
        both lists and records the new rules. */
    method MergePermissions(target: Value, source: Value, sourceName: string, timestamp: string) returns (r: Result<Merged, Error>)
      ensures r.Failure? <==> PermissionsError(target, source).Some?
      ensures r.Failure? ==> r.error == PermissionsError(target, source).value
      ensures r.Success? ==> PermissionsMerged(target, source, r.value.target)
      ensures r.Success? ==> r.value.history == MergeHistory(sourceName, timestamp, PermissionItems(target, source), false)
    {
      var prepared := Prepare(target);
      if prepared.Failure? {
        return Failure(prepared.error);
      }
      var t := prepared.value;
      var slots := MergeSlots(t.fields["permissions"], SourceList(source, "allow"), SourceList(source, "deny"), "allow:", "deny:");
      if slots.Failure? {
        return Failure(slots.error);
      }
      var (perms, items) := slots.value;
      r := Success(Merged(Obj(t.fields["permissions" := perms]), MergeHistory(sourceName, timestamp, items, false)));
    }

    /** `unmerge_permissions`: removes by value every rule recorded by ANY record from `sourceName`,
        then saves the history without those records; no matching record is not an error. */
    method UnmergePermissions(fs: FileSystem, target: Value, contextName: string, sourceName: string) returns (r: Result<Value, Error>)
      modifies fs
      ensures var loaded := LoadHistory(old(fs.files), settingsDir, contextName);
        && (loaded.Failure? ==> r == Failure(loaded.error) && fs.files == old(fs.files))
        && (loaded.Success? ==>
              && r == Success(RemoveRules(target, "allow:", "deny:", ItemsFrom(loaded.value, sourceName, false)))
              && fs.files == old(fs.files)[HistoryPath(settingsDir, contextName) := Parsed(EncodeHistory(Without(loaded.value, sourceName)))])
    {
      var history := LoadHistory(fs.files, settingsDir, contextName);
      if history.Failure? {
        return Failure(history.error);
      }
      var itemsToRemove := ItemsFrom(history.value, sourceName, false);
      var t := target;
      if t.Obj? && "permissions" in t.fields && t.fields["permissions"].Obj? {
        var p := t.fields["permissions"].fields;
        if "allow" in p && p["allow"].Arr? {
          p := p["allow" := Arr(Retain(p["allow"].items, "allow:", itemsToRemove))];
        }
        if "deny" in p && p["deny"].Arr? {
          p := p["deny" := Arr(Retain(p["deny"].items, "deny:", itemsToRemove))];
        }
        t := Obj(t.fields["permissions" := Obj(p)]);
      } else if t.Obj? && "permissions" in t.fields {
        assert t.fields["permissions" := t.fields["permissions"]] == t.fields;
      }
      SaveHistory(fs, contextName, Without(history.value, sourceName));
      r := Success(t);
    }

    /** `merge_full`: visits every source key; `permissions` merges both lists as the permission
        merge does (with `permissions.allow:`/`permissions.deny:` items), `env` adds the missing
        variables, any other key is copied when the target lacks it. A non-object on either side
        changes nothing. */
    static method MergeFull(target: Value, source: Value, sourceName: string, timestamp: string) returns (r: Result<Merged, Error>)
      ensures r.Failure? <==> FullMergeError(target, source).Some?
      ensures r.Failure? ==> r.error == FullMergeError(target, source).value
      ensures r.Success? ==> FullMerged(target, source, r.value.target)
      ensures r.Success? ==> r.value.history.source == sourceName && r.value.history.timestamp == timestamp
      ensures r.Success? ==> r.value.history.fullMerge
      ensures r.Success? ==> multiset(r.value.history.mergedItems) == FullItems(target, source)
    {
      if !(target.Obj? && source.Obj?) {
        return Success(Merged(target, MergeHistory(sourceName, timestamp, [], true)));
      }
      var merged := FullLoop(target, source);
      if merged.Failure? {
        return Failure(merged.error);
      }
      FullProgressComplete(target, source, merged.value.0, merged.value.1);
      r := Success(Merged(Obj(merged.value.0), MergeHistory(sourceName, timestamp, merged.value.1, true)));
    }

    /** The `for (key, value) in source_obj` loop of `merge_full`, over the keys in some order. */
    static method FullLoop(target: Value, source: Value) returns (r: Result<(map<string, Value>, seq<string>), Error>)
      requires target.Obj? && source.Obj?
      ensures r.Failure? <==> FullMergeError(target, source).Some?
      ensures r.Failure? ==> r.error == FullMergeError(target, source).value
      ensures r.Success? ==> FullProgress(target, source, r.value.0, r.value.1, source.fields.Keys)
    {
      var cur := target.fields;
      var items: seq<string> := [];
      var todo := source.fields.Keys;
      ghost var done: set<string> := {};
      while todo != {}
        invariant done + todo == source.fields.Keys && done !! todo
        invariant FullProgress(target, source, cur, items, done)
        decreases todo
      {
        var key :| key in todo;
        var step := FullKey(target, source, cur, items, done, key);
        if step.Failure? {
          return Failure(step.error);
        }
        cur, items := step.value.0, step.value.1;
        todo := todo - {key};
        done := done + {key};
      }
      FullProgressComplete(target, source, cur, items);
      r := Success((cur, items));
    }

    /** One iteration of the `for (key, value) in source_obj` loop of `merge_full`. */
    static method FullKey(target: Value, source: Value, cur: map<string, Value>, items: seq<string>, ghost done: set<string>, key: string)
      returns (r: Result<(map<string, Value>, seq<string>), Error>)
      requires target.Obj? && source.Obj? && key in source.fields && key !in done
      requires FullProgress(target, source, cur, items, done)
      ensures r.Failure? <==> key == "permissions" && FullMergeError(target, source).Some?
      ensures r.Failure? ==> r.error == FullMergeError(target, source).value
      ensures r.Success? ==> FullProgress(target, source, r.value.0, r.value.1, done + {key})
    {
      var t, s := target.fields, source.fields;
      if key == "permissions" {
        assert PermissionsBase(cur) == PermissionsBase(t);
        var slots := FullPermissions(PermissionsBase(cur), source);
        if slots.Failure? {
          return Failure(slots.error);
        }
        PermissionsStep(target, source, cur, items, done, slots.value.0, slots.value.1);
        r := Success((cur["permissions" := slots.value.0], items + slots.value.1));
      } else if key == "env" {
        assert EnvBase(cur) == EnvBase(t);
        var env, added := FullEnv(cur, s);
        EnvStep(target, source, cur, items, done, env, added);
        r := Success((if env.Some? then cur["env" := env.value] else cur, items + added));
      } else {
        OtherStep(target, source, cur, items, done, key);
        r := Success(if key !in cur then (cur[key := s[key]], items + [key]) else (cur, items));
      }
    }

    /** The `"permissions"` arm of `merge_full`, on the (possibly inserted) permissions value. */
    static method FullPermissions(base: Value, source: Value) returns (r: Result<(Value, seq<string>), Error>)
      requires source.Obj? && "permissions" in source.fields
      ensures r.Failure? <==> SlotsError(base, SourceList(source, "allow"), SourceList(source, "deny")).Some?
      ensures r.Failure? ==> r.error == SlotsError(base, SourceList(source, "allow"), SourceList(source, "deny")).value
      ensures r.Success? ==> SlotsMerged(base, SourceList(source, "allow"), SourceList(source, "deny"), r.value.0)
      ensures r.Success? ==> r.value.1 == SlotItems(base, SourceList(source, "allow"), SourceList(source, "deny"), "permissions.allow:", "permissions.deny:")
    {
      if source.fields["permissions"].Obj? {
        r := MergeSlots(base, SourceList(source, "allow"), SourceList(source, "deny"), "permissions.allow:", "permissions.deny:");
      } else {
        r := Success((base, []));
      }
    }

    /** The `"env"` arm of `merge_full`: the new `env` value, if any, and the recorded items. */
    static method FullEnv(t: map<string, Value>, s: map<string, Value>) returns (env: Option<Value>, added: seq<string>)
      requires "env" in s
      ensures env.Some? ==> Some(env.value) == FullField(t, s, "env")
      ensures env.None? ==> Lookup(t, "env") == FullField(t, s, "env")
      ensures multiset(added) == EnvItems(t, s)
    {
      env, added := None, [];
      if s["env"].Obj? {
        var te := EnvBase(t);
        if te.Obj? {
          var merged, items := MergeEnv(te.fields, s["env"].fields);
          NoDupMultiset(items, EnvNew(te.fields, s["env"].fields.Keys));
          env, added := Some(Obj(merged)), items;
        } else {
          env := Some(te);
        }
      }
    }

    /** `unmerge_full`: drops what every full-merge record from `sourceName` added (top-level keys,
        `env` variables, `permissions.allow:`/`permissions.deny:` values), then runs
        `unmerge_permissions`, which also writes the history back without that source's records. */
    method UnmergeFull(fs: FileSystem, target: Value, contextName: string, sourceName: string) returns (r: Result<Value, Error>)
      modifies fs
      ensures var loaded := LoadHistory(old(fs.files), settingsDir, contextName);
        && (loaded.Failure? ==> r == Failure(loaded.error) && fs.files == old(fs.files))
        && (loaded.Success? ==>
              && r == Success(RemoveRules(UnmergeFullTarget(target, ItemsFrom(loaded.value, sourceName, true)),
                                          "allow:", "deny:", ItemsFrom(loaded.value, sourceName, false)))
              && fs.files == old(fs.files)[HistoryPath(settingsDir, contextName) := Parsed(EncodeHistory(Without(loaded.value, sourceName)))])
    {
      var history := LoadHistory(fs.files, settingsDir, contextName);
      if history.Failure? {
        return Failure(history.error);
      }
      var stripped := StripFull(target, ItemsFrom(history.value, sourceName, true));
      r := UnmergePermissions(fs, stripped, contextName, sourceName);
    }

    /** The `if let Some(target_obj) = target.as_object_mut()` block of `unmerge_full`. */
    static method StripFull(target: Value, items: set<string>) returns (r: Value)
      ensures r == UnmergeFullTarget(target, items)
    {
      if !target.Obj? {
        return target;
      }
      var f := map k | k in target.fields && k !in items :: target.fields[k];
      var todo := items;
      ghost var done: set<string> := {};
      StripNothing(target.fields, items);
      while todo != {}
        invariant done + todo == items && done !! todo
        invariant f == StripPartial(target.fields, items, done)
        decreases todo
      {
        var item :| item in todo;
        StripStep(target.fields, items, done, item);
        if HasPrefix(item, "env:") {
          if "env" in f && f["env"].Obj? {
            f := f["env" := Obj(f["env"].fields - {item[4..]})];
          }
        } else if HasPrefix(item, "permissions.allow:") || HasPrefix(item, "permissions.deny:") {
          var (kind, value) := if HasPrefix(item, "permissions.allow:") then ("allow", item[18..]) else ("deny", item[17..]);
          if "permissions" in f && f["permissions"].Obj? && kind in f["permissions"].fields && f["permissions"].fields[kind].Arr? {
            var perms := f["permissions"].fields;
            f := f["permissions" := Obj(perms[kind := Arr(WithoutString(perms[kind].items, value))])];
          }
        }
        todo := todo - {item};
        done := done + {item};
      }
      assert f == StripPartial(target.fields, items, items);
      r := Obj(f);
    }

    /** The `for (env_key, env_value) in source_env` loop: insert each absent variable and record it. */
    static method MergeEnv(te: map<string, Value>, se: map<string, Value>) returns (env: map<string, Value>, added: seq<string>)
      ensures env == se + te
      ensures NoDup(added) && forall x :: x in added <==> x in EnvNew(te, se.Keys)
    {
      env, added := te, [];
      var todo := se.Keys;
      ghost var done: set<string> := {};
      while todo != {}
        invariant done + todo == se.Keys && done !! todo
        invariant env.Keys == done + te.Keys
        invariant forall k :: k in env ==> env[k] == if k in te then te[k] else se[k]
        invariant NoDup(added) && forall x :: x in added <==> x in EnvNew(te, done)
        decreases todo
      {
        var key :| key in todo;
        EnvNewStep(te, done, key);
        if key !in env {
          env := env[key := se[key]];
          added := added + ["env:" + key];
        }
        todo := todo - {key};
        done := done + {key};
      }
      assert env == se + te;
    }
  }

  // ---------------------------------------------------------------- properties

  /** The list `key` of the target's permissions, as an array, if it is one. */
  function RuleList(v: Value, key: string): Option<seq<Value>> {
    var p := Get(v, "permissions");
    if p.Some? then AsArray(Get(p.value, key)) else None
  }

  /** After `merge_permissions`, a list the source has is a duplicate-free list of strings whose set
      is the old rules plus the source's; a list the source lacks is untouched. */
  lemma PermissionsMergedLists(target: Value, source: Value, result: Value, key: string)
    requires PermissionsMerged(target, source, result)
    requires key == "allow" || key == "deny"
    ensures SourceList(source, key).Some? ==>
      && RuleList(result, key).Some?
      && DistinctStrings(RuleList(result, key).value)
      && RuleSet(result, key) == RuleSet(target, key) + StringsOf(SourceList(source, key).value)
    ensures SourceList(source, key).None? ==>
      Get(Get(result, "permissions").value, key) == (if target.Obj? && "permissions" in target.fields then Get(target.fields["permissions"], key) else Get(EmptyPermissions, key))
  {
  }

  /** The recorded items are `allow:s` for exactly the new allow strings, then `deny:s` for the new
      deny strings, each once. */
  lemma PermissionItemsSpec(target: Value, source: Value, x: string)
    requires PermissionsError(target, source).None?
    ensures var items := PermissionItems(target, source);
      && NoDup(items)
      && ("allow:" + x in items <==> SourceList(source, "allow").Some? && x in StringsOf(SourceList(source, "allow").value) && x !in RuleSet(target, "allow"))
      && ("deny:" + x in items <==> SourceList(source, "deny").Some? && x in StringsOf(SourceList(source, "deny").value) && x !in RuleSet(target, "deny"))
  {
    var perms := Prepare(target).value.fields["permissions"];
    var allow, deny := SourceList(source, "allow"), SourceList(source, "deny");
    var known := if allow.Some? then StringsOf(ListAt(perms, "allow").value) else {};
    var knownDeny := if deny.Some? then StringsOf(ListAt(perms, "deny").value) else {};
    var a := if allow.Some? then Prefixed("allow:", NewRules(known, allow.value)) else [];
    var d := if deny.Some? then Prefixed("deny:", NewRules(knownDeny, deny.value)) else [];
    assert PermissionItems(target, source) == a + d;
    assert allow.Some? ==> known == RuleSet(target, "allow");
    assert deny.Some? ==> knownDeny == RuleSet(target, "deny");
    HalfItems("allow:", known, allow, x, 0);
    HalfItems("deny:", knownDeny, deny, x, 0);
    SplitByChar(a, d, 0, "allow:" + x, "deny:" + x);
  }

  /** Items that differ at position `at` between the two halves cannot collide. */
  lemma SplitByChar(a: seq<string>, d: seq<string>, at: nat, ya: string, yd: string)
    requires NoDup(a) && NoDup(d)
    requires at < |ya| && at < |yd| && ya[at] != yd[at]
    requires forall i :: 0 <= i < |a| ==> at < |a[i]| && a[i][at] == ya[at]
    requires forall i :: 0 <= i < |d| ==> at < |d[i]| && d[i][at] == yd[at]
    ensures NoDup(a + d)
    ensures ya in a + d <==> ya in a
    ensures yd in a + d <==> yd in d
  {
    NoDupAppend(a, d);
  }

  /** One list's items: `prefix` before each new source string, each once; every item agrees with
      `prefix` at position `at`. */
  lemma HalfItems(prefix: string, known: set<string>, src: Option<seq<Value>>, x: string, at: nat)
    requires at < |prefix|
    ensures var h := if src.Some? then Prefixed(prefix, NewRules(known, src.value)) else [];
      && NoDup(h)
      && (prefix + x in h <==> src.Some? && x in StringsOf(src.value) && x !in known)
      && (forall i :: 0 <= i < |h| ==> at < |h[i]| && h[i][at] == prefix[at])
  {
    if src.Some? {
      var h := Prefixed(prefix, NewRules(known, src.value));
      NewRulesSpec(known, src.value);
      InPrefixed(prefix, NewRules(known, src.value), x);
      PrefixedNoDup(prefix, NewRules(known, src.value));
      forall i | 0 <= i < |h| ensures at < |h[i]| && h[i][at] == prefix[at] {
        assert h[i] == prefix + NewRules(known, src.value)[i];
      }
    }
  }

  lemma PrefixedNoDup(prefix: string, xs: seq<string>)
    requires NoDup(xs)
    ensures NoDup(Prefixed(prefix, xs))
  {
    forall i, j | 0 <= i < j < |xs| ensures Prefixed(prefix, xs)[i] != Prefixed(prefix, xs)[j] {
      PrefixCancel(prefix, xs[i], xs[j]);
    }
  }

  /** Merging the same source a second time cannot fail, records nothing and changes no rule set. */
  lemma RemergePermissions(target: Value, source: Value, result: Value, again: Value, key: string)
    requires PermissionsMerged(target, source, result)
    requires key == "allow" || key == "deny"
    ensures PermissionsError(result, source).None?
    ensures PermissionItems(result, source) == []
    ensures PermissionsMerged(result, source, again) ==> RuleSet(again, key) == RuleSet(result, key)
  {
    var t := Prepare(result).value;
    assert t == result;
    var perms := result.fields["permissions"];
    if SourceList(source, "allow").Some? {
      NewRulesOfKnown(StringsOf(ListAt(perms, "allow").value), SourceList(source, "allow").value);
    }
    if SourceList(source, "deny").Some? {
      NewRulesOfKnown(StringsOf(ListAt(perms, "deny").value), SourceList(source, "deny").value);
    }
    if PermissionsMerged(result, source, again) {
      PermissionsMergedLists(result, source, again, key);
      PermissionsMergedLists(target, source, result, key);
    }
  }

  /** Removing exactly what a merge recorded gives back the target's allow and deny rule sets. */
  lemma MergeThenUnmergeRestoresRules(target: Value, source: Value, result: Value, key: string)
    requires PermissionsMerged(target, source, result)
    requires key == "allow" || key == "deny"
    ensures var items := set x | x in PermissionItems(target, source);
      RuleSet(RemoveRules(result, "allow:", "deny:", items), key) == RuleSet(target, key)
  {
    var items := set x | x in PermissionItems(target, source);
    var prefix := if key == "allow" then "allow:" else "deny:";
    RuleSetAfterRemove(result, "allow:", "deny:", items, key);
    PermissionsMergedLists(target, source, result, key);
    forall x ensures x in RuleSet(RemoveRules(result, "allow:", "deny:", items), key) <==> x in RuleSet(target, key) {
      PermissionItemsSpec(target, source, x);
    }
  }

  /** A merge's record is the only one from its source when none was there before, so unmerging
      removes exactly its items. */
  lemma ItemsFromFreshRecord(earlier: seq<MergeHistory>, record: MergeHistory, fullOnly: bool)
    requires forall i :: 0 <= i < |earlier| ==> earlier[i].source != record.source
    requires fullOnly ==> record.fullMerge
    ensures ItemsFrom(earlier + [record], record.source, fullOnly) == set x | x in record.mergedItems
  {
    var hs := earlier + [record];
    assert hs[|earlier|] == record;
  }

  /** A full merge never overwrites: every target key other than `permissions` keeps its value,
      except that `env` only gains variables, and every source key ends up in the target. */
  lemma FullMergeKeepsTarget(target: Value, source: Value, result: Value, key: string)
    requires target.Obj? && source.Obj? && FullMerged(target, source, result)
    ensures key in target.fields && key != "permissions" && key != "env" ==> Lookup(result.fields, key) == Some(target.fields[key])
    ensures key in source.fields && (key == "env" ==> source.fields[key].Obj?) ==> key in result.fields
    ensures key == "env" && key in target.fields && target.fields[key].Obj? ==>
      && key in result.fields && result.fields[key].Obj?
      && forall v :: v in target.fields[key].fields ==> Lookup(result.fields[key].fields, v) == Some(target.fields[key].fields[v])
  {
    if key != "permissions" {
      assert Lookup(result.fields, key) == FullField(target.fields, source.fields, key);
    }
  }

  /** Full-merging the same source again cannot fail and records nothing. */
  lemma FullRemergeAddsNothing(target: Value, source: Value, result: Value)
    requires FullMergeError(target, source).None? && FullMerged(target, source, result)
    ensures FullMergeError(result, source).None?
    ensures FullItems(result, source) == multiset{}
  {
    if target.Obj? && source.Obj? {
      var t, s, r := target.fields, source.fields, result.fields;
      forall k | k in s && k != "permissions" && k != "env" ensures k in r {
        assert Lookup(r, k) == FullField(t, s, k);
      }
      assert TopAdded(r, s, s.Keys) == {};
      if "env" in s && s["env"].Obj? {
        assert Lookup(r, "env") == FullField(t, s, "env");
        if EnvBase(r).Obj? {
          assert EnvNew(EnvBase(r).fields, s["env"].fields.Keys) == {};
        }
      }
      if "permissions" in s {
        var allow, deny := SourceList(source, "allow"), SourceList(source, "deny");
        var base := PermissionsBase(r);
        assert SlotsMerged(PermissionsBase(t), allow, deny, base);
        if allow.Some? {
          NewRulesOfKnown(StringsOf(ListAt(base, "allow").value), allow.value);
        }
        if deny.Some? {
          NewRulesOfKnown(StringsOf(ListAt(base, "deny").value), deny.value);
        }
      }
    }
  }

  /** No key looks like a recorded `env:` or `permissions.*:` item. */
  ghost predicate NoItemLikeKeys(m: map<string, Value>) {
    forall k :: k in m ==> !HasPrefix(k, "env:") && !HasPrefix(k, "permissions.allow:") && !HasPrefix(k, "permissions.deny:")
  }

  /** The `env:` items of a full merge name exactly the source variables the target lacked. */
  lemma EnvItemsShape(t: map<string, Value>, s: map<string, Value>, x: string)
    ensures x in EnvItems(t, s) <==>
      && "env" in s && s["env"].Obj? && EnvBase(t).Obj? && HasPrefix(x, "env:")
      && x[4..] in s["env"].fields && x[4..] !in EnvBase(t).fields
  {
    if x in EnvItems(t, s) {
      var k :| k in s["env"].fields && k !in EnvBase(t).fields && x == "env:" + k;
      assert x[4..] == k;
    }
    if HasPrefix(x, "env:") {
      assert x == "env:" + x[4..];
    }
  }

  /** Lists from which a permission item of a full merge comes: `a` for allow, `d` for deny. */
  lemma PermissionsFullItemsSplit(target: Value, source: Value)
    requires target.Obj? && source.Obj? && FullMergeError(target, source).None?
    ensures var base, allow, deny := PermissionsBase(target.fields), SourceList(source, "allow"), SourceList(source, "deny");
      PermissionsFullItems(target, source) ==
        if "permissions" in source.fields then
          (if allow.Some? then Prefixed("permissions.allow:", NewRules(StringsOf(ListAt(base, "allow").value), allow.value)) else [])
          + (if deny.Some? then Prefixed("permissions.deny:", NewRules(StringsOf(ListAt(base, "deny").value), deny.value)) else [])
        else []
  {
  }

  /** Every permission item of a full merge carries one of the two permission prefixes. */
  lemma PermissionsFullItemsPrefixed(target: Value, source: Value, x: string)
    requires target.Obj? && source.Obj? && FullMergeError(target, source).None?
    ensures x in PermissionsFullItems(target, source) ==> HasPrefix(x, "permissions.allow:") || HasPrefix(x, "permissions.deny:")
  {
    PermissionsFullItemsSplit(target, source);
    var base, allow, deny := PermissionsBase(target.fields), SourceList(source, "allow"), SourceList(source, "deny");
    if x in PermissionsFullItems(target, source) {
      if allow.Some? && x in Prefixed("permissions.allow:", NewRules(StringsOf(ListAt(base, "allow").value), allow.value)) {
        var i :| 0 <= i < |NewRules(StringsOf(ListAt(base, "allow").value), allow.value)| && Prefixed("permissions.allow:", NewRules(StringsOf(ListAt(base, "allow").value), allow.value))[i] == x;
        assert x[..18] == "permissions.allow:";
      } else {
        var i :| 0 <= i < |NewRules(StringsOf(ListAt(base, "deny").value), deny.value)| && Prefixed("permissions.deny:", NewRules(StringsOf(ListAt(base, "deny").value), deny.value))[i] == x;
        assert x[..17] == "permissions.deny:";
      }
    }
  }

  /** A `permissions.<key>:v` item of a full merge is recorded exactly when `v` is a new rule of that list. */
  lemma PermissionsFullItemKey(target: Value, source: Value, key: string, v: string)
    requires target.Obj? && source.Obj? && FullMergeError(target, source).None?
    requires key == "allow" || key == "deny"
    ensures var prefix := if key == "allow" then "permissions.allow:" else "permissions.deny:";
      var src := SourceList(source, key);
      prefix + v in PermissionsFullItems(target, source) <==>
        "permissions" in source.fields && src.Some? && v in StringsOf(src.value)
        && v !in StringsOf(ListAt(PermissionsBase(target.fields), key).value)
  {
    var pa, pd := "permissions.allow:", "permissions.deny:";
    var base, allow, deny := PermissionsBase(target.fields), SourceList(source, "allow"), SourceList(source, "deny");
    PermissionsFullItemsSplit(target, source);
    if "permissions" in source.fields {
      var knownAllow := if allow.Some? then StringsOf(ListAt(base, "allow").value) else {};
      var knownDeny := if deny.Some? then StringsOf(ListAt(base, "deny").value) else {};
      var a := if allow.Some? then Prefixed(pa, NewRules(knownAllow, allow.value)) else [];
      var d := if deny.Some? then Prefixed(pd, NewRules(knownDeny, deny.value)) else [];
      assert PermissionsFullItems(target, source) == a + d;
      HalfItems(pa, knownAllow, allow, v, 12);
      HalfItems(pd, knownDeny, deny, v, 12);
      assert (pa + v)[12] == 'a' && (pd + v)[12] == 'd';
    }
  }

  /** The set of items a full merge records. */
  function FullItemSet(target: Value, source: Value): set<string>
    requires FullMergeError(target, source).None?
  {
    set x | x in FullItems(target, source)
  }

  lemma FullItemSetMembers(target: Value, source: Value, x: string)
    requires target.Obj? && source.Obj? && FullMergeError(target, source).None?
    ensures x in FullItemSet(target, source) <==>
      x in TopAdded(target.fields, source.fields, source.fields.Keys) || x in EnvItems(target.fields, source.fields) || x in PermissionsFullItems(target, source)
  {
  }

  /** `unmerge_full` with exactly the items of that merge removes the copied top-level keys and
      leaves every other top-level key of the target as it was, except a target key that is spelt like
      a recorded `env:`/`permissions.*:` item: the code deletes that one too. */
  lemma FullUnmergeRestoresKey(target: Value, source: Value, result: Value, key: string)
    requires target.Obj? && source.Obj? && FullMergeError(target, source).None? && FullMerged(target, source, result)
    requires key != "env" && key != "permissions"
    ensures var items := FullItemSet(target, source);
      Lookup(UnmergeFullTarget(result, items).fields, key) ==
        if key in target.fields && key in items then None else Lookup(target.fields, key)
    ensures key in target.fields && key in FullItemSet(target, source) ==>
      HasPrefix(key, "env:") || HasPrefix(key, "permissions.allow:") || HasPrefix(key, "permissions.deny:")
  {
    var t, s := target.fields, source.fields;
    EnvItemsShape(t, s, key);
    PermissionsFullItemsPrefixed(target, source, key);
    FullItemSetMembers(target, source, key);
    assert key in s && key !in t ==> key in FullItemSet(target, source);
    assert Lookup(result.fields, key) == FullField(t, s, key);
  }

  /** With no item-like source keys, an `env:` item is recorded exactly for a variable the merge added. */
  lemma FullEnvItem(target: Value, source: Value, k: string)
    requires target.Obj? && source.Obj? && FullMergeError(target, source).None?
    requires NoItemLikeKeys(source.fields)
    ensures var t, s := target.fields, source.fields;
      "env:" + k in FullItemSet(target, source) <==>
        "env" in s && s["env"].Obj? && EnvBase(t).Obj? && k in s["env"].fields && k !in EnvBase(t).fields
  {
    var x := "env:" + k;
    assert x[..4] == "env:" && x[4..] == k;
    EnvItemsShape(target.fields, source.fields, x);
    PermissionsFullItemsPrefixed(target, source, x);
    ItemPrefixes(x);
  }

  /** ... and gives `env` back exactly, when the target had an `env` object. */
  lemma FullUnmergeRestoresEnv(target: Value, source: Value, result: Value)
    requires target.Obj? && source.Obj? && FullMergeError(target, source).None? && FullMerged(target, source, result)
    requires NoItemLikeKeys(source.fields)
    requires "env" in target.fields && target.fields["env"].Obj?
    ensures Lookup(UnmergeFullTarget(result, FullItemSet(target, source)).fields, "env") == Some(target.fields["env"])
  {
    var t, s, items := target.fields, source.fields, FullItemSet(target, source);
    var te := t["env"].fields;
    assert "env" !in items by {
      EnvItemsShape(t, s, "env");
      PermissionsFullItemsPrefixed(target, source, "env");
    }
    assert Lookup(result.fields, "env") == FullField(t, s, "env");
    var re := result.fields["env"];
    assert re.Obj?;
    var kept := map k | k in re.fields && "env:" + k !in items :: re.fields[k];
    forall k | k in re.fields ensures "env:" + k !in items <==> k in te {
      FullEnvItem(target, source, k);
    }
    assert kept.Keys == te.Keys;
    assert kept == te;
  }

  /** The key `permissions` itself is never a recorded item. */
  lemma PermissionsNotRecorded(target: Value, source: Value)
    requires target.Obj? && source.Obj? && FullMergeError(target, source).None?
    ensures "permissions" !in FullItemSet(target, source)
  {
    EnvItemsShape(target.fields, source.fields, "permissions");
    PermissionsFullItemsPrefixed(target, source, "permissions");
    assert |"permissions"| == 11 && |"permissions.allow:"| == 18 && |"permissions.deny:"| == 17;
    assert "permissions"[0] != "env:"[0];
  }

  /** The strings of the source's list `key`, when the source carries `permissions` and that list. */
  function SourceStrings(source: Value, key: string): set<string> {
    var src := SourceList(source, key);
    if Get(source, "permissions").Some? && src.Some? then StringsOf(src.value) else {}
  }

  /** With no item-like source keys, a `permissions.allow:`/`permissions.deny:` item is recorded
      exactly for a rule the merge added to that list. */
  lemma FullPermissionItem(target: Value, source: Value, key: string, v: string)
    requires target.Obj? && source.Obj? && FullMergeError(target, source).None?
    requires NoItemLikeKeys(source.fields)
    requires key == "allow" || key == "deny"
    ensures var prefix := if key == "allow" then "permissions.allow:" else "permissions.deny:";
      prefix + v in FullItemSet(target, source) <==>
        v in SourceStrings(source, key) && v !in ListStrings(PermissionsBase(target.fields), key)
  {
    var prefix := if key == "allow" then "permissions.allow:" else "permissions.deny:";
    var x := prefix + v;
    assert HasPrefix(x, prefix) && x[|prefix|..] == v by {
      assert x[..|prefix|] == prefix;
    }
    assert x in FullItemSet(target, source) <==> x in PermissionsFullItems(target, source) by {
      ItemPrefixes(x);
      FullItemSetMembers(target, source, x);
      assert x !in TopAdded(target.fields, source.fields, source.fields.Keys);
      EnvItemsShape(target.fields, source.fields, x);
    }
    PermissionsFullItemKey(target, source, key, v);
  }

  /** The strings of list `key` of a permissions value, or none when it is not an array. */
  function ListStrings(perms: Value, key: string): set<string> {
    if perms.Obj? && key in perms.fields && perms.fields[key].Arr? then StringsOf(perms.fields[key].items) else {}
  }

  lemma StripRulesStrings(perms: Value, key: string, items: set<string>)
    requires key == "allow" || key == "deny"
    ensures var prefix := if key == "allow" then "permissions.allow:" else "permissions.deny:";
      forall v :: v in ListStrings(StripRules(perms, "permissions.allow:", "permissions.deny:", items), key) <==>
        v in ListStrings(perms, key) && prefix + v !in items
  {
    var prefix := if key == "allow" then "permissions.allow:" else "permissions.deny:";
    if perms.Obj? && key in perms.fields && perms.fields[key].Arr? {
      StringsOfRetain(perms.fields[key].items, prefix, items);
    }
  }

  /** The permissions a full merge leaves: present when either side had them, holding the union. */
  lemma FullResultPermissions(target: Value, source: Value, result: Value, key: string)
    requires target.Obj? && source.Obj? && FullMergeError(target, source).None? && FullMerged(target, source, result)
    requires key == "allow" || key == "deny"
    ensures "permissions" in result.fields <==> "permissions" in source.fields || "permissions" in target.fields
    ensures "permissions" in result.fields ==>
      ListStrings(result.fields["permissions"], key) == ListStrings(PermissionsBase(target.fields), key) + SourceStrings(source, key)
  {
    if "permissions" !in source.fields {
      assert Lookup(result.fields, "permissions") == Lookup(target.fields, "permissions");
    }
  }

  lemma UnmergeFullPermissions(result: Value, items: set<string>)
    requires result.Obj? && "permissions" !in items
    ensures var after := UnmergeFullTarget(result, items);
      && ("permissions" in after.fields <==> "permissions" in result.fields)
      && ("permissions" in result.fields ==>
            after.fields["permissions"] == StripRules(result.fields["permissions"], "permissions.allow:", "permissions.deny:", items))
  {
  }

  lemma RuleSetOfObject(v: Value, key: string)
    requires v.Obj?
    ensures RuleSet(v, key) == ListStrings(PermissionsBase(v.fields), key)
  {
    assert StringsOf([]) == {};
  }

  /** ... and the strip pass of `unmerge_full` gives back the target's `allow` and `deny` rule sets. */
  lemma FullStripRestoresRules(target: Value, source: Value, result: Value, key: string)
    requires target.Obj? && source.Obj? && FullMergeError(target, source).None? && FullMerged(target, source, result)
    requires NoItemLikeKeys(source.fields)
    requires key == "allow" || key == "deny"
    ensures RuleSet(UnmergeFullTarget(result, FullItemSet(target, source)), key) == RuleSet(target, key)
  {
    var t, items := target.fields, FullItemSet(target, source);
    var prefix := if key == "allow" then "permissions.allow:" else "permissions.deny:";
    var base := PermissionsBase(t);
    PermissionsNotRecorded(target, source);
    UnmergeFullPermissions(result, items);
    FullResultPermissions(target, source, result, key);
    var after := UnmergeFullTarget(result, items);
    RuleSetOfObject(target, key);
    RuleSetOfObject(after, key);
    if "permissions" in result.fields {
      var rp := result.fields["permissions"];
      StripRulesStrings(rp, key, items);
      forall v ensures prefix + v in items <==> v in SourceStrings(source, key) && v !in ListStrings(base, key) {
        FullPermissionItem(target, source, key, v);
      }
    }
  }

  /** No key looks like an item of a permission merge (`allow:…`, `deny:…`). */
  ghost predicate NoRuleLikeKeys(m: map<string, Value>) {
    forall k :: k in m ==> !HasPrefix(k, "allow:") && !HasPrefix(k, "deny:")
  }

  /** With no rule-like source keys, no `allow:`/`deny:` item is among a full merge's items. */
  lemma RuleItemNotFull(target: Value, source: Value, x: string)
    requires target.Obj? && source.Obj? && FullMergeError(target, source).None?
    requires NoRuleLikeKeys(source.fields)
    requires HasPrefix(x, "allow:") || HasPrefix(x, "deny:")
    ensures x !in FullItemSet(target, source)
  {
    FullItemSetMembers(target, source, x);
    EnvItemsShape(target.fields, source.fields, x);
    PermissionsFullItemsPrefixed(target, source, x);
    assert x[0] == 'a' || x[0] == 'd' by {
      if HasPrefix(x, "allow:") { assert x[..6][0] == 'a'; } else { assert x[..5][0] == 'd'; }
    }
  }

  /** The whole of `unmerge_full` with exactly the items of that merge, the strip pass followed by the
      `allow:`/`deny:` removal of `unmerge_permissions`, gives back the target's rule sets when no source
      key is spelt like an item. */
  lemma FullUnmergeRestoresRules(target: Value, source: Value, result: Value, key: string)
    requires target.Obj? && source.Obj? && FullMergeError(target, source).None? && FullMerged(target, source, result)
    requires NoItemLikeKeys(source.fields) && NoRuleLikeKeys(source.fields)
    requires key == "allow" || key == "deny"
    ensures var items := FullItemSet(target, source);
      RuleSet(RemoveRules(UnmergeFullTarget(result, items), "allow:", "deny:", items), key) == RuleSet(target, key)
  {
    var items := FullItemSet(target, source);
    var prefix := if key == "allow" then "allow:" else "deny:";
    var stripped := UnmergeFullTarget(result, items);
    FullStripRestoresRules(target, source, result, key);
    RuleSetAfterRemove(stripped, "allow:", "deny:", items, key);
    forall v ensures prefix + v !in items {
      var x := prefix + v;
      assert x[..|prefix|] == prefix;
      RuleItemNotFull(target, source, x);
    }
  }

  /** The collision the requirement above rules out: a top-level source key `allow:v` that the target
      lacks is copied and recorded by the full merge, and the full unmerge then also removes the
      target's own allow rule `v`. */
  lemma RuleLikeKeyCollides(target: Value, source: Value, result: Value, v: string)
    requires target.Obj? && source.Obj? && FullMergeError(target, source).None? && FullMerged(target, source, result)
    requires "allow:" + v in source.fields && "allow:" + v !in target.fields
    ensures var items := FullItemSet(target, source);
      v !in RuleSet(RemoveRules(UnmergeFullTarget(result, items), "allow:", "deny:", items), "allow")
  {
    var items := FullItemSet(target, source);
    var k := "allow:" + v;
    assert k != "permissions" && k != "env" by { assert k[0] == 'a'; }
    assert k in TopAdded(target.fields, source.fields, source.fields.Keys);
    FullItemSetMembers(target, source, k);
    RuleSetAfterRemove(UnmergeFullTarget(result, items), "allow:", "deny:", items, "allow");
  }

  /** The collision `NoItemLikeKeys` rules out, already in the strip pass: a top-level source key
      `permissions.allow:v` that the target lacks is copied and recorded by the full merge, and the
      strip pass then reads it as a permission item and removes the target's own allow rule `v`. */
  lemma ItemLikeKeyCollides(target: Value, source: Value, result: Value, v: string)
    requires target.Obj? && source.Obj? && FullMergeError(target, source).None? && FullMerged(target, source, result)
    requires "permissions.allow:" + v in source.fields && "permissions.allow:" + v !in target.fields
    ensures v !in RuleSet(UnmergeFullTarget(result, FullItemSet(target, source)), "allow")
  {
    var items := FullItemSet(target, source);
    var k := "permissions.allow:" + v;
    assert k != "permissions" && k != "env" by { assert k[0] == 'p' && k[11] == '.'; }
    assert k in TopAdded(target.fields, source.fields, source.fields.Keys);
    FullItemSetMembers(target, source, k);
    PermissionsNotRecorded(target, source);
    UnmergeFullPermissions(result, items);
    RuleSetOfObject(UnmergeFullTarget(result, items), "allow");
    if "permissions" in result.fields {
      StripRulesStrings(result.fields["permissions"], "allow", items);
    }
  }
}
