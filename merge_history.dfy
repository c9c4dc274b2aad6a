/** Merge history records and the hidden per-context history file (src/merge.rs). */
module MergeHistoryFile {
  import opened Wrappers
  import opened Errors
  import opened Json
  import opened Fs

  /** `MergeHistory` */
  datatype MergeHistory = MergeHistory(source: string, timestamp: string, mergedItems: seq<string>, fullMerge: bool)

  function StrValues(xs: seq<string>): seq<Value> {
    seq(|xs|, i requires 0 <= i < |xs| => Str(xs[i]))
  }

  /** serde's encoding of one record: an object with the four fields. */
  function EncodeRecord(h: MergeHistory): Value {
    Obj(map["source" := Str(h.source), "timestamp" := Str(h.timestamp),
            "merged_items" := Arr(StrValues(h.mergedItems)), "full_merge" := Bool(h.fullMerge)])
  }

  /** `serde_json::to_string_pretty(history)`: an array of records. */
  function EncodeHistory(hs: seq<MergeHistory>): Value {
    Arr(seq(|hs|, i requires 0 <= i < |hs| => EncodeRecord(hs[i])))
  }

  /** `Vec<String>` as serde reads it: every entry must be a string. */
  function DecodeStrings(xs: seq<Value>): Option<seq<string>> {
    if xs == [] then Some([])
    else if xs[0].Str? && DecodeStrings(xs[1..]).Some? then Some([xs[0].s] + DecodeStrings(xs[1..]).value)
    else None
  }

  /** The four fields of a record, in declaration order; None if any has the wrong type. */
  function DecodeFields(source: Value, timestamp: Value, items: Value, full: Value): Option<MergeHistory> {
    if source.Str? && timestamp.Str? && items.Arr? && DecodeStrings(items.items).Some? && full.Bool? then
      Some(MergeHistory(source.s, timestamp.s, DecodeStrings(items.items).value, full.b))
    else None
  }

  /** One record as serde_derive reads it: an object holding all four fields (others ignored), or the
      struct's sequence form, an array of exactly four entries. */
  function DecodeRecord(v: Value): Option<MergeHistory> {
    match v
    case Obj(f) =>
      if "source" in f && "timestamp" in f && "merged_items" in f && "full_merge" in f then
        DecodeFields(f["source"], f["timestamp"], f["merged_items"], f["full_merge"])
      else None
    case Arr(xs) => if |xs| == 4 then DecodeFields(xs[0], xs[1], xs[2], xs[3]) else None
    case _ => None
  }

  function DecodeRecords(xs: seq<Value>): Option<seq<MergeHistory>> {
    if xs == [] then Some([])
    else if DecodeRecord(xs[0]).Some? && DecodeRecords(xs[1..]).Some? then Some([DecodeRecord(xs[0]).value] + DecodeRecords(xs[1..]).value)
    else None
  }

  /** `serde_json::from_str::<Vec<MergeHistory>>` on a parsed value. */
  function DecodeHistory(v: Value): Option<seq<MergeHistory>> {
    if v.Arr? then DecodeRecords(v.items) else None
  }

  lemma {:induction false} DecodeStrValues(xs: seq<string>)
    ensures DecodeStrings(StrValues(xs)) == Some(xs)
  {
    if xs != [] {
      assert StrValues(xs)[0] == Str(xs[0]);
      assert StrValues(xs)[1..] == StrValues(xs[1..]);
      DecodeStrValues(xs[1..]);
      assert [xs[0]] + xs[1..] == xs;
    }
  }

  lemma DecodeEncodeRecord(h: MergeHistory)
    ensures DecodeRecord(EncodeRecord(h)) == Some(h)
  {
    DecodeStrValues(h.mergedItems);
  }

  /** Decoding an encoded history gives back the same records in the same order. */
  lemma {:induction false} DecodeEncodeHistory(hs: seq<MergeHistory>)
    ensures DecodeHistory(EncodeHistory(hs)) == Some(hs)
  {
    var xs := EncodeHistory(hs).items;
    if hs != [] {
      DecodeEncodeRecord(hs[0]);
      assert xs[0] == EncodeRecord(hs[0]);
      assert xs[1..] == EncodeHistory(hs[1..]).items;
      DecodeEncodeHistory(hs[1..]);
      assert DecodeRecords(xs[1..]) == Some(hs[1..]);
      assert [hs[0]] + hs[1..] == hs;
    }
  }

  /** Every item recorded by records from `source` (only full-merge records when `fullOnly`):
      the `filter(..).flat_map(..).collect::<HashSet<_>>()` of an unmerge. */
  function ItemsFrom(hs: seq<MergeHistory>, source: string, fullOnly: bool): (r: set<string>)
    ensures forall x :: x in r <==> exists i :: 0 <= i < |hs| && hs[i].source == source && (fullOnly ==> hs[i].fullMerge) && x in hs[i].mergedItems
  {
    if hs == [] then {}
    else
      var rest := ItemsFrom(hs[1..], source, fullOnly);
      assert forall i :: 0 < i < |hs| ==> hs[i] == hs[1..][i - 1];
      if hs[0].source == source && (fullOnly ==> hs[0].fullMerge) then (set x | x in hs[0].mergedItems) + rest else rest
  }

  /** `history.into_iter().filter(|h| h.source != source).collect()`: every record from other sources,
      in order, and none from `source`. */
  function Without(hs: seq<MergeHistory>, source: string): seq<MergeHistory> {
    if hs == [] then []
    else (if hs[0].source == source then [] else [hs[0]]) + Without(hs[1..], source)
  }

  /** The filter keeps every record from another source as often as it occurs, and none from `source`. */
  lemma {:induction false} WithoutCounts(hs: seq<MergeHistory>, source: string, h: MergeHistory)
    ensures multiset(Without(hs, source))[h] == if h.source == source then 0 else multiset(hs)[h]
  {
    if hs != [] {
      WithoutCounts(hs[1..], source, h);
      assert hs == [hs[0]] + hs[1..];
    }
  }

  lemma WithoutCons(h: MergeHistory, t: seq<MergeHistory>, source: string)
    ensures Without([h] + t, source) == (if h.source == source then [] else [h]) + Without(t, source)
  {
    var hs := [h] + t;
    assert hs[0] == h && hs[1..] == t;
  }

  /** Dropping the records of a source that only the last record came from gives back the earlier history. */
  lemma {:induction false} WithoutFresh(earlier: seq<MergeHistory>, record: MergeHistory)
    requires forall i :: 0 <= i < |earlier| ==> earlier[i].source != record.source
    ensures Without(earlier + [record], record.source) == earlier
  {
    if earlier == [] {
      WithoutCons(record, [], record.source);
      assert [record] + [] == earlier + [record];
    } else {
      var rest := earlier[1..];
      assert earlier + [record] == [earlier[0]] + (rest + [record]);
      WithoutCons(earlier[0], rest + [record], record.source);
      WithoutFresh(rest, record);
      assert earlier == [earlier[0]] + rest;
    }
  }

  /** The history file of a context: `.{name}-merge-history.json` inside the contexts directory. */
  function HistoryPath(settingsDir: string, contextName: string): string {
    Join(settingsDir, "." + contextName + "-merge-history.json")
  }

  /** `load_history`: no file is an empty history; a file that does not parse as a history is an error. */
  function LoadHistory(files: Files, settingsDir: string, contextName: string): (r: Result<seq<MergeHistory>, Error>)
    ensures HistoryPath(settingsDir, contextName) !in files ==> r == Success([])
    ensures r.Failure? ==> r.error == ParseError(HistoryPath(settingsDir, contextName))
    ensures var p := HistoryPath(settingsDir, contextName);
      p in files ==> (r.Success? <==> files[p].Parsed? && DecodeHistory(files[p].value).Some?)
    ensures var p := HistoryPath(settingsDir, contextName);
      p in files && r.Success? ==> r.value == DecodeHistory(files[p].value).value
  {
    var path := HistoryPath(settingsDir, contextName);
    if path !in files then Success([])
    else match files[path]
      case Unparsable => Failure(ParseError(path))
      case Parsed(v) => if DecodeHistory(v).Some? then Success(DecodeHistory(v).value) else Failure(ParseError(path))
  }

  /** `save_history` followed by `load_history` gives back the saved records. */
  lemma SaveThenLoadHistory(files: Files, settingsDir: string, contextName: string, hs: seq<MergeHistory>)
    ensures LoadHistory(files[HistoryPath(settingsDir, contextName) := Parsed(EncodeHistory(hs))], settingsDir, contextName) == Success(hs)
  {
    DecodeEncodeHistory(hs);
  }

  /** History file names start with a dot, so a context listing never shows them; the file sits
      directly in the contexts directory exactly when the context name has no `/` (the name is not
      checked, so `a/b` puts it under `.a`). */
  lemma HistoryFileIsHidden(settingsDir: string, contextName: string)
    ensures var p := HistoryPath(settingsDir, contextName);
      p[..|settingsDir| + 1] == settingsDir + "/" && p[|settingsDir| + 1..][0] == '.'
    ensures var p := HistoryPath(settingsDir, contextName);
      '/' !in p[|settingsDir| + 1..] <==> '/' !in contextName
  {
    var p := HistoryPath(settingsDir, contextName);
    var file := "." + contextName + "-merge-history.json";
    assert p == settingsDir + "/" + file;
    assert p[|settingsDir| + 1..] == file;
    assert file == ["."[0]] + contextName + "-merge-history.json";
    assert '/' !in "-merge-history.json";
  }
}
