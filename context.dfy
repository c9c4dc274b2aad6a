/** `ContextManager`: the contexts directory, the active settings file and the switch state of one
    settings level, and the operations on them (src/context.rs). */
module Contexts {
  import opened Wrappers
  import opened Errors
  import opened Json
  import opened Fs
  import opened Seqs
  import opened SwitchState
  import opened NameOrder
  import opened MergeHistoryFile
  import opened MergeRules
  import opened Merge

  datatype SettingsLevel = User | Project | Local

  /** What an operation ends with: the error it reports, if any, and the files it leaves. Writes done
      before a failing step stay done. */
  datatype Outcome = Outcome(error: Option<Error>, files: Files)

  /** `name.is_empty() || name == "-" || name == "." || name == ".." || name.contains('/')`, negated. */
  predicate ValidName(name: string) {
    !(name == "" || name == "-" || name == "." || name == ".." || '/' in name)
  }

  /** Whether a file name has extension `json` by `Path::extension`, for a name not starting with a dot. */
  predicate IsJsonFile(f: string) {
    |f| >= 5 && f[|f| - 5..] == ".json"
  }

  /** `Path::file_stem` of such a file. */
  function Stem(f: string): string
    requires IsJsonFile(f)
  {
    f[..|f| - 5]
  }

  /** `ContextManager::new_with_level`. The home directory is an input (an absent one is an error);
      an unknown working directory falls back to `.`. */
  function NewWithLevel(level: SettingsLevel, home: Option<string>, cwd: Option<string>): (r: Result<ContextManager, Error>)
    ensures r.Failure? <==> home.None?
    ensures r.Failure? ==> r.error == HomeDirUnavailable
    ensures r.Success? ==> r.value.settingsLevel == level
  {
    if home.None? then Failure(HomeDirUnavailable)
    else
      var root := if level.User? then home.value else cwd.GetOr(".");
      var claudeDir := Join(root, ".claude");
      var contextsDir := Join(claudeDir, "settings");
      Success(match level
        case User => ContextManager(contextsDir, Join(claudeDir, "settings.json"), Join(contextsDir, ".cctx-state.json"), level)
        case Project => ContextManager(contextsDir, Join(claudeDir, "settings.json"), Join(contextsDir, ".cctx-state.json"), level)
        case Local => ContextManager(contextsDir, Join(claudeDir, "settings.local.json"), Join(contextsDir, ".cctx-state.local.json"), level))
  }

  /** The `.claude` directory of a level: under the home directory for User, else under the working directory. */
  function ClaudeDir(level: SettingsLevel, home: string, cwd: Option<string>): string {
    Join(if level.User? then home else cwd.GetOr("."), ".claude")
  }

  /** The three levels keep their contexts in `<root>/.claude/settings`; the active settings file
      sits beside that directory, and the state file inside it. */
  lemma LevelPaths(level: SettingsLevel, home: string, cwd: Option<string>)
    ensures var m := NewWithLevel(level, Some(home), cwd).value;
      var claudeDir := ClaudeDir(level, home, cwd);
      && m.contextsDir == Join(claudeDir, "settings")
      && m.claudeSettingsPath == Join(claudeDir, if level.Local? then "settings.local.json" else "settings.json")
      && m.statePath == Join(m.contextsDir, if level.Local? then ".cctx-state.local.json" else ".cctx-state.json")
  {
  }

  /** Every level's layout keeps the settings file out of the listing and hides the state file in it. */
  lemma LayoutSeparate(level: SettingsLevel, home: string, cwd: Option<string>)
    ensures NewWithLevel(level, Some(home), cwd).value.Separate()
  {
    var m := NewWithLevel(level, Some(home), cwd).value;
    var claudeDir := ClaudeDir(level, home, cwd);
    var n := |claudeDir|;
    assert m.claudeSettingsPath[n + 9] == '.';
    assert (m.contextsDir + "/")[n + 9] == '/';
    assert m.statePath == m.contextsDir + "/" + (if level.Local? then ".cctx-state.local.json" else ".cctx-state.json");
    assert m.statePath[|m.contextsDir| + 1] == '.';
  }

  /** Local differs from Project only in the two file names. */
  lemma LocalMatchesProject(home: string, cwd: Option<string>)
    ensures var p, l := NewWithLevel(Project, Some(home), cwd).value, NewWithLevel(Local, Some(home), cwd).value;
      && l.contextsDir == p.contextsDir
      && l.claudeSettingsPath != p.claudeSettingsPath
      && l.statePath != p.statePath
  {
    var claudeDir := ClaudeDir(Project, home, cwd);
    JoinInjective(claudeDir, "settings.json", "settings.local.json");
    JoinInjective(Join(claudeDir, "settings"), ".cctx-state.json", ".cctx-state.local.json");
  }

  /** `list_contexts` keeps the `.json` entries whose names do not start with a dot. */
  predicate Listed(f: string) {
    f != [] && f[0] != '.' && IsJsonFile(f)
  }

  /** The stems of the listed names among `entries`. */
  function Stems(entries: set<string>): set<string> {
    set f | f in entries && Listed(f) :: Stem(f)
  }

  lemma StemInjective(f: string, g: string)
    requires IsJsonFile(f) && IsJsonFile(g) && Stem(f) == Stem(g)
    ensures f == g
  {
    assert f == Stem(f) + ".json" && g == Stem(g) + ".json";
  }

  lemma StemsAdd(seen: set<string>, f: string)
    requires Listed(f)
    ensures Stems(seen + {f}) == Stems(seen) + {Stem(f)}
  {
  }

  lemma StemsSkip(seen: set<string>, f: string)
    requires !Listed(f)
    ensures Stems(seen + {f}) == Stems(seen)
  {
  }

  lemma StemsFresh(seen: set<string>, f: string)
    requires Listed(f) && f !in seen
    ensures Stem(f) !in Stems(seen)
  {
    if Stem(f) in Stems(seen) {
      var g :| g in seen && Listed(g) && Stem(g) == Stem(f);
      StemInjective(f, g);
    }
  }

  /** `<home>/.claude/settings.json`, the source `user` of the merge commands. */
  function UserSettingsPath(home: string): string {
    Join(Join(home, ".claude"), "settings.json")
  }

  /** A merge command's resolved target path and the parsed target and source. */
  datatype MergeInput = MergeInput(path: string, target: Value, source: Value)

  datatype ContextManager = ContextManager(contextsDir: string, claudeSettingsPath: string, statePath: string, settingsLevel: SettingsLevel) {

    /** `context_path(name)` */
    function ContextPath(name: string): string {
      Join(contextsDir, name + ".json")
    }

    /** The names `list_contexts` reports, as a set: stems of the `.json` files in the contexts
        directory whose names do not start with a dot. */
    function Names(files: Files): set<string> {
      Stems(Entries(files, contextsDir))
    }

    /** A name is listed exactly when its context file exists and it does not start with a dot
        (and has no `/`, which no directory entry has). */
    lemma NamesSpec(files: Files, name: string)
      ensures name in Names(files) <==> name != [] && name[0] != '.' && '/' !in name && ContextPath(name) in files
    {
      var f := name + ".json";
      assert IsJsonFile(f) && Stem(f) == name;
      if name in Names(files) {
        var g :| g in Entries(files, contextsDir) && Listed(g) && Stem(g) == name;
        assert g == Stem(g) + ".json";
        assert g == f;
        assert '/' !in name by {
          assert forall i :: 0 <= i < |name| ==> name[i] == g[i];
        }
        JoinEntry(files, contextsDir, f);
      }
      if name != [] && name[0] != '.' && '/' !in name && ContextPath(name) in files {
        assert '/' !in f;
        JoinEntry(files, contextsDir, f);
        assert f[0] != '.';
      }
    }

    /** Whether `path` cannot be the file of a listed context: outside the contexts directory, or a
        hidden entry of it. */
    predicate Unlisted(path: string) {
      !HasPrefix(path, contextsDir + "/") || (|path| > |contextsDir| + 1 && path[|contextsDir| + 1] == '.')
    }

    /** The layout `new_with_level` builds: the active settings file outside the contexts directory,
        the state file a hidden entry of it. */
    predicate Separate() {
      && !HasPrefix(claudeSettingsPath, contextsDir + "/")
      && HasPrefix(statePath, contextsDir + "/") && Unlisted(statePath)
    }

    /** The content `switch_context(name)`, `create_context` and the merge commands find at a path. */
    function ReadJson(files: Files, path: string): (r: Result<Value, Error>)
      requires path in files
      ensures r.Failure? <==> files[path].Unparsable?
      ensures r.Success? ==> files[path] == Parsed(r.value)
      ensures r.Failure? ==> r.error == ParseError(path)
    {
      match files[path]
      case Parsed(v) => Success(v)
      case Unparsable => Failure(ParseError(path))
    }

    /** `switch_context(name)`: the name must be listed; the state is loaded, the context file copied
        over the active settings, and the state saved with `name` current. */
    function SwitchOutcome(files: Files, name: string): Outcome {
      if name !in Names(files) then Outcome(Some(NotFound(name)), files)
      else
        var state := LoadFrom(files, statePath);
        if state.Failure? then Outcome(Some(state.error), files)
        else
          NamesSpec(files, name);
          var copied := files[claudeSettingsPath := files[ContextPath(name)]];
          Outcome(None, copied[statePath := Parsed(Encode(AfterSet(state.value, name)))])
    }

    method SwitchContext(fs: FileSystem, name: string) returns (err: Option<Error>)
      modifies fs
      ensures Outcome(err, fs.files) == SwitchOutcome(old(fs.files), name)
    {
      var contexts := ListContexts(fs);
      if name !in contexts {
        return Some(NotFound(name));
      }
      var loaded := State.Load(fs, statePath);
      if loaded.Failure? {
        return Some(loaded.error);
      }
      var state := loaded.value;
      state.SetCurrent(name);
      NamesSpec(fs.files, name);
      var content := fs.files[ContextPath(name)];
      fs.files := fs.files[claudeSettingsPath := content];
      state.Save(fs, statePath);
      return None;
    }

    /** `switch_to_previous`: switches to the previous context, if the state names one. */
    function SwitchToPreviousOutcome(files: Files): Outcome {
      var state := LoadFrom(files, statePath);
      if state.Failure? then Outcome(Some(state.error), files)
      else if state.value.previous.None? then Outcome(Some(NoPreviousContext), files)
      else SwitchOutcome(files, state.value.previous.value)
    }

    method SwitchToPrevious(fs: FileSystem) returns (err: Option<Error>)
      modifies fs
      ensures Outcome(err, fs.files) == SwitchToPreviousOutcome(old(fs.files))
    {
      var loaded := State.Load(fs, statePath);
      if loaded.Failure? {
        return Some(loaded.error);
      }
      var previous := loaded.value.previous;
      if previous.None? {
        return Some(NoPreviousContext);
      }
      err := SwitchContext(fs, previous.value);
    }

    /** `create_context(name)`: a valid name not yet listed gets a copy of the active settings, or an
        empty object when there are none. */
    function CreateOutcome(files: Files, name: string): Outcome {
      if !ValidName(name) then Outcome(Some(InvalidName(name)), files)
      else if name in Names(files) then Outcome(Some(AlreadyExists(name)), files)
      else if claudeSettingsPath in files then Outcome(None, files[ContextPath(name) := files[claudeSettingsPath]])
      else Outcome(None, files[ContextPath(name) := Parsed(Obj(map[]))])
    }

    method CreateContext(fs: FileSystem, name: string) returns (err: Option<Error>)
      modifies fs
      ensures Outcome(err, fs.files) == CreateOutcome(old(fs.files), name)
    {
      if name == "" || name == "-" || name == "." || name == ".." || '/' in name {
        return Some(InvalidName(name));
      }
      var contexts := ListContexts(fs);
      if name in contexts {
        return Some(AlreadyExists(name));
      }
      if claudeSettingsPath in fs.files {
        fs.files := fs.files[ContextPath(name) := fs.files[claudeSettingsPath]];
      } else {
        fs.files := fs.files[ContextPath(name) := Parsed(Obj(map[]))];
      }
      return None;
    }

    /** `delete_context(name)`: refuses the current context before looking for the file; a deleted
        previous context is cleared from the state. */
    function DeleteOutcome(files: Files, name: string): Outcome {
      var state := LoadFrom(files, statePath);
      if state.Failure? then Outcome(Some(state.error), files)
      else if state.value.current == Some(name) then Outcome(Some(CannotDeleteActive(name)), files)
      else if ContextPath(name) !in files then Outcome(Some(NotFound(name)), files)
      else
        var removed := files - {ContextPath(name)};
        if state.value.previous == Some(name) then
          Outcome(None, removed[statePath := Parsed(Encode(Slots(state.value.current, None)))])
        else Outcome(None, removed)
    }

    method DeleteContext(fs: FileSystem, name: string) returns (err: Option<Error>)
      modifies fs
      ensures Outcome(err, fs.files) == DeleteOutcome(old(fs.files), name)
    {
      var loaded := State.Load(fs, statePath);
      if loaded.Failure? {
        return Some(loaded.error);
      }
      var state := loaded.value;
      if state.current == Some(name) {
        return Some(CannotDeleteActive(name));
      }
      if ContextPath(name) !in fs.files {
        return Some(NotFound(name));
      }
      fs.files := fs.files - {ContextPath(name)};
      if state.previous == Some(name) {
        state.previous := None;
        state.Save(fs, statePath);
      }
      return None;
    }

    /** What `rename_context(oldName, newName)` leaves in the slots: each one naming `oldName` now
        names `newName`. */
    function Renamed(s: Slots, oldName: string, newName: string): Slots {
      Slots(if s.current == Some(oldName) then Some(newName) else s.current,
            if s.previous == Some(oldName) then Some(newName) else s.previous)
    }

    /** `rename_context(oldName, newName)`: checks the new name, then moves the file, then loads the
        state (a failure there leaves the file moved) and saves it if a slot named `oldName`. */
    function RenameOutcome(files: Files, oldName: string, newName: string): Outcome {
      if !ValidName(newName) then Outcome(Some(InvalidName(newName)), files)
      else if oldName !in Names(files) then Outcome(Some(NotFound(oldName)), files)
      else if newName in Names(files) then Outcome(Some(AlreadyExists(newName)), files)
      else
        NamesSpec(files, oldName);
        var moved := (files - {ContextPath(oldName)})[ContextPath(newName) := files[ContextPath(oldName)]];
        var state := LoadFrom(moved, statePath);
        if state.Failure? then Outcome(Some(state.error), moved)
        else if state.value.current == Some(oldName) || state.value.previous == Some(oldName) then
          Outcome(None, moved[statePath := Parsed(Encode(Renamed(state.value, oldName, newName)))])
        else Outcome(None, moved)
    }

    method RenameContext(fs: FileSystem, oldName: string, newName: string) returns (err: Option<Error>)
      modifies fs
      ensures Outcome(err, fs.files) == RenameOutcome(old(fs.files), oldName, newName)
    {
      if newName == "" || newName == "-" || newName == "." || newName == ".." || '/' in newName {
        return Some(InvalidName(newName));
      }
      var contexts := ListContexts(fs);
      if oldName !in contexts {
        return Some(NotFound(oldName));
      }
      if newName in contexts {
        return Some(AlreadyExists(newName));
      }
      NamesSpec(fs.files, oldName);
      var content := fs.files[ContextPath(oldName)];
      fs.files := (fs.files - {ContextPath(oldName)})[ContextPath(newName) := content];
      var loaded := State.Load(fs, statePath);
      if loaded.Failure? {
        return Some(loaded.error);
      }
      var state := loaded.value;
      var updated := false;
      if state.current == Some(oldName) {
        state.current := Some(newName);
        updated := true;
      }
      if state.previous == Some(oldName) {
        state.previous := Some(newName);
        updated := true;
      }
      if updated {
        state.Save(fs, statePath);
      }
      return None;
    }

    /** `unset_context`: removes the active settings file, then (a failure to load the state leaves it
        removed) saves the state with no current context if there was one. */
    function UnsetOutcome(files: Files): Outcome {
      var removed := files - {claudeSettingsPath};
      var state := LoadFrom(removed, statePath);
      if state.Failure? then Outcome(Some(state.error), removed)
      else
        var (after, was) := AfterUnset(state.value);
        if was.Some? then Outcome(None, removed[statePath := Parsed(Encode(after))]) else Outcome(None, removed)
    }

    method UnsetContext(fs: FileSystem) returns (err: Option<Error>)
      modifies fs
      ensures Outcome(err, fs.files) == UnsetOutcome(old(fs.files))
    {
      if claudeSettingsPath in fs.files {
        fs.files := fs.files - {claudeSettingsPath};
      }
      var loaded := State.Load(fs, statePath);
      if loaded.Failure? {
        return Some(loaded.error);
      }
      var state := loaded.value;
      var was := state.UnsetCurrent();
      if was.Some? {
        state.Save(fs, statePath);
      }
      return None;
    }

    /** `import_context(name)`, with the text read from standard input given as `input`: the same name
        checks as `create_context`, then the input must parse. */
    function ImportOutcome(files: Files, name: string, input: Doc): Outcome {
      if !ValidName(name) then Outcome(Some(InvalidName(name)), files)
      else if name in Names(files) then Outcome(Some(AlreadyExists(name)), files)
      else if input.Unparsable? then Outcome(Some(InvalidJsonInput), files)
      else Outcome(None, files[ContextPath(name) := input])
    }

    method ImportContext(fs: FileSystem, name: string, input: Doc) returns (err: Option<Error>)
      modifies fs
      ensures Outcome(err, fs.files) == ImportOutcome(old(fs.files), name, input)
    {
      if name == "" || name == "-" || name == "." || name == ".." || '/' in name {
        return Some(InvalidName(name));
      }
      var contexts := ListContexts(fs);
      if name in contexts {
        return Some(AlreadyExists(name));
      }
      if input.Unparsable? {
        return Some(InvalidJsonInput);
      }
      fs.files := fs.files[ContextPath(name) := input];
      return None;
    }

    /** `get_current_context` */
    method GetCurrentContext(fs: FileSystem) returns (r: Result<Option<string>, Error>)
      ensures r.Failure? <==> LoadFrom(fs.files, statePath).Failure?
      ensures r.Failure? ==> r.error == LoadFrom(fs.files, statePath).error
      ensures r.Success? ==> r.value == LoadFrom(fs.files, statePath).value.current
    {
      var loaded := State.Load(fs, statePath);
      if loaded.Failure? {
        return Failure(loaded.error);
      }
      return Success(loaded.value.current);
    }

    /** The file a merge command's target names: the active settings for `current`, else a context file. */
    function TargetPath(files: Files, target: string): (r: Result<string, Error>)
      ensures r.Success? ==> r.value in files
      ensures target == "current" ==> (r.Failure? <==> claudeSettingsPath !in files)
      ensures target == "current" && r.Success? ==> r.value == claudeSettingsPath
      ensures target == "current" && r.Failure? ==> r.error == NoCurrentSettings
      ensures target != "current" ==> (r.Failure? <==> ContextPath(target) !in files)
      ensures target != "current" && r.Success? ==> r.value == ContextPath(target)
      ensures target != "current" && r.Failure? ==> r.error == NotFound(target)
    {
      if target == "current" then
        if claudeSettingsPath in files then Success(claudeSettingsPath) else Failure(NoCurrentSettings)
      else if ContextPath(target) in files then Success(ContextPath(target)) else Failure(NotFound(target))
    }

    /** The file a merge command reads its source from: `user` is the user-level settings wherever the
        command runs, a name ending in `.json` is a path, anything else a context. */
    function SourcePath(files: Files, home: Option<string>, source: string): (r: Result<string, Error>)
      ensures r.Success? ==> r.value in files
    {
      if source == "user" then
        if home.None? then Failure(HomeDirUnavailable)
        else
          var user := UserSettingsPath(home.value);
          if user in files then Success(user) else Failure(UserSettingsNotFound(user))
      else if IsJsonFile(source) then
        if source in files then Success(source) else Failure(SourceFileNotFound(source))
      else if ContextPath(source) in files then Success(ContextPath(source)) else Failure(NotFound(source))
    }

    /** The name the merge history is kept under: the target itself, or for `current` the current
        context (`current` when there is none). */
    function HistoryName(files: Files, target: string): Result<string, Error> {
      if target != "current" then Success(target)
      else
        var state := LoadFrom(files, statePath);
        if state.Failure? then Failure(state.error)
        else if state.value.current.Some? then Success(state.value.current.value)
        else Success("current")
    }

    method GetHistoryName(fs: FileSystem, target: string) returns (r: Result<string, Error>)
      ensures r == HistoryName(fs.files, target)
    {
      if target != "current" {
        return Success(target);
      }
      var current := GetCurrentContext(fs);
      if current.Failure? {
        return Failure(current.error);
      }
      return Success(current.value.GetOr("current"));
    }

    /** The parsed target and source of `merge_from` and `merge_from_full`, resolved and read in the
        order the commands do: target path, source path, target content, source content. */
    function MergeInputs(files: Files, home: Option<string>, target: string, source: string): Result<MergeInput, Error> {
      var path := TargetPath(files, target);
      if path.Failure? then Failure(path.error)
      else
        var from := SourcePath(files, home, source);
        if from.Failure? then Failure(from.error)
        else
          var t := ReadJson(files, path.value);
          if t.Failure? then Failure(t.error)
          else
            var s := ReadJson(files, from.value);
            if s.Failure? then Failure(s.error)
            else Success(MergeInput(path.value, t.value, s.value))
    }

    /** The rest of `merge_from` and `merge_from_full` once the merge produced `merged` and `record`:
        write the target, then append the record to the history (a failure to find the history name or
        to load the history leaves the target written). */
    function AfterMerge(files: Files, target: string, path: string, merged: Value, record: MergeHistory): Outcome {
      var written := files[path := Parsed(merged)];
      var name := HistoryName(written, target);
      if name.Failure? then Outcome(Some(name.error), written)
      else
        var history := LoadHistory(written, contextsDir, name.value);
        if history.Failure? then Outcome(Some(history.error), written)
        else Outcome(None, written[HistoryPath(contextsDir, name.value) := Parsed(EncodeHistory(history.value + [record]))])
    }

    method ResolveMerge(fs: FileSystem, home: Option<string>, target: string, source: string) returns (r: Result<MergeInput, Error>)
      ensures r == MergeInputs(fs.files, home, target, source)
    {
      var path := TargetPath(fs.files, target);
      if path.Failure? {
        return Failure(path.error);
      }
      var from := SourcePath(fs.files, home, source);
      if from.Failure? {
        return Failure(from.error);
      }
      var t := ReadJson(fs.files, path.value);
      if t.Failure? {
        return Failure(t.error);
      }
      var s := ReadJson(fs.files, from.value);
      if s.Failure? {
        return Failure(s.error);
      }
      return Success(MergeInput(path.value, t.value, s.value));
    }

    method AppendHistory(fs: FileSystem, target: string, record: MergeHistory) returns (err: Option<Error>)
      modifies fs
      ensures var name := HistoryName(old(fs.files), target);
        && (name.Failure? ==> err == Some(name.error) && fs.files == old(fs.files))
        && (name.Success? ==>
              var history := LoadHistory(old(fs.files), contextsDir, name.value);
              && (history.Failure? ==> err == Some(history.error) && fs.files == old(fs.files))
              && (history.Success? ==> err.None? && fs.files == old(fs.files)[HistoryPath(contextsDir, name.value) := Parsed(EncodeHistory(history.value + [record]))]))
    {
      var name := GetHistoryName(fs, target);
      if name.Failure? {
        return Some(name.error);
      }
      var history := LoadHistory(fs.files, contextsDir, name.value);
      if history.Failure? {
        return Some(history.error);
      }
      MergeManager(contextsDir).SaveHistory(fs, name.value, history.value + [record]);
      return None;
    }

    /** `merge_from(target, source)`, with the clock reading `timestamp`. */
    method MergeFrom(fs: FileSystem, home: Option<string>, target: string, source: string, timestamp: string) returns (err: Option<Error>)
      modifies fs
      ensures var inputs := MergeInputs(old(fs.files), home, target, source);
        && (inputs.Failure? ==> err == Some(inputs.error) && fs.files == old(fs.files))
        && (inputs.Success? && PermissionsError(inputs.value.target, inputs.value.source).Some? ==>
              err == PermissionsError(inputs.value.target, inputs.value.source) && fs.files == old(fs.files))
        && (inputs.Success? && PermissionsError(inputs.value.target, inputs.value.source).None? ==>
              exists merged :: PermissionsMerged(inputs.value.target, inputs.value.source, merged)
                && Outcome(err, fs.files) == AfterMerge(old(fs.files), target, inputs.value.path, merged,
                     MergeHistory(source, timestamp, PermissionItems(inputs.value.target, inputs.value.source), false)))
    {
      var inputs := ResolveMerge(fs, home, target, source);
      if inputs.Failure? {
        return Some(inputs.error);
      }
      var merged := MergeManager(contextsDir).MergePermissions(inputs.value.target, inputs.value.source, source, timestamp);
      if merged.Failure? {
        return Some(merged.error);
      }
      fs.files := fs.files[inputs.value.path := Parsed(merged.value.target)];
      err := AppendHistory(fs, target, merged.value.history);
    }

    /** `merge_from_full(target, source)`, with the clock reading `timestamp`. */
    method MergeFromFull(fs: FileSystem, home: Option<string>, target: string, source: string, timestamp: string) returns (err: Option<Error>)
      modifies fs
      ensures var inputs := MergeInputs(old(fs.files), home, target, source);
        && (inputs.Failure? ==> err == Some(inputs.error) && fs.files == old(fs.files))
        && (inputs.Success? && FullMergeError(inputs.value.target, inputs.value.source).Some? ==>
              err == FullMergeError(inputs.value.target, inputs.value.source) && fs.files == old(fs.files))
        && (inputs.Success? && FullMergeError(inputs.value.target, inputs.value.source).None? ==>
              exists merged, items :: FullMerged(inputs.value.target, inputs.value.source, merged)
                && multiset(items) == FullItems(inputs.value.target, inputs.value.source)
                && Outcome(err, fs.files) == AfterMerge(old(fs.files), target, inputs.value.path, merged,
                     MergeHistory(source, timestamp, items, true)))
    {
      var inputs := ResolveMerge(fs, home, target, source);
      if inputs.Failure? {
        return Some(inputs.error);
      }
      var merged := MergeManager.MergeFull(inputs.value.target, inputs.value.source, source, timestamp);
      if merged.Failure? {
        return Some(merged.error);
      }
      fs.files := fs.files[inputs.value.path := Parsed(merged.value.target)];
      err := AppendHistory(fs, target, merged.value.history);
    }

    /** `unmerge_from(target, source)` and, with `full`, `unmerge_from_full`: resolve and read the
        target, find the history name, drop the source's records from the history (saving it), then
        write the target with the recorded items removed. */
    function UnmergeOutcome(files: Files, target: string, source: string, full: bool): Outcome {
      var path := TargetPath(files, target);
      if path.Failure? then Outcome(Some(path.error), files)
      else
        var t := ReadJson(files, path.value);
        if t.Failure? then Outcome(Some(t.error), files)
        else
          var name := HistoryName(files, target);
          if name.Failure? then Outcome(Some(name.error), files)
          else
            var history := LoadHistory(files, contextsDir, name.value);
            if history.Failure? then Outcome(Some(history.error), files)
            else
              var kept := files[HistoryPath(contextsDir, name.value) := Parsed(EncodeHistory(Without(history.value, source)))];
              var stripped := if full then UnmergeFullTarget(t.value, ItemsFrom(history.value, source, true)) else t.value;
              var result := RemoveRules(stripped, "allow:", "deny:", ItemsFrom(history.value, source, false));
              Outcome(None, kept[path.value := Parsed(result)])
    }

    method UnmergeFrom(fs: FileSystem, target: string, source: string, full: bool) returns (err: Option<Error>)
      modifies fs
      ensures Outcome(err, fs.files) == UnmergeOutcome(old(fs.files), target, source, full)
    {
      var path := TargetPath(fs.files, target);
      if path.Failure? {
        return Some(path.error);
      }
      var t := ReadJson(fs.files, path.value);
      if t.Failure? {
        return Some(t.error);
      }
      var name := GetHistoryName(fs, target);
      if name.Failure? {
        return Some(name.error);
      }
      var mm := MergeManager(contextsDir);
      var result;
      if full {
        result := mm.UnmergeFull(fs, t.value, name.value, source);
      } else {
        result := mm.UnmergePermissions(fs, t.value, name.value, source);
      }
      if result.Failure? {
        return Some(result.error);
      }
      fs.files := fs.files[path.value := Parsed(result.value)];
      return None;
    }

    /** No file outside `changed` is added, removed or rewritten. */
    ghost predicate Frame(files: Files, files': Files, changed: set<string>) {
      forall p :: p !in changed ==> (p in files <==> p in files') && (p in files ==> files'[p] == files[p])
    }

    lemma ContextPathInjective(a: string, b: string)
      ensures ContextPath(a) == ContextPath(b) <==> a == b
    {
      JoinInjective(contextsDir, a + ".json", b + ".json");
      if a + ".json" == b + ".json" {
        assert a == (a + ".json")[..|a|] && b == (b + ".json")[..|b|];
      }
    }

    /** A listed context's file is never one the listing hides. */
    lemma ListedPath(name: string)
      requires name != [] && name[0] != '.'
      ensures !Unlisted(ContextPath(name))
    {
      assert ContextPath(name)[..|contextsDir| + 1] == contextsDir + "/";
      assert ContextPath(name)[|contextsDir| + 1] == name[0];
    }

    /** Changing only files the listing hides leaves the listed names as they are. */
    lemma NamesIgnore(files: Files, files': Files, changed: set<string>)
      requires forall q :: q in changed ==> Unlisted(q)
      requires forall q :: q !in changed ==> (q in files <==> q in files')
      ensures Names(files') == Names(files)
    {
      forall n ensures n in Names(files') <==> n in Names(files) {
        NamesSpec(files, n);
        NamesSpec(files', n);
        if n != [] && n[0] != '.' {
          ListedPath(n);
        }
      }
    }

    /** Writing the file of a valid name adds that name to the listing, unless it starts with a dot. */
    lemma NamesAfterWrite(files: Files, name: string, d: Doc)
      requires ValidName(name)
      ensures Names(files[ContextPath(name) := d]) == Names(files) + (if name[0] != '.' then {name} else {})
    {
      var written := files[ContextPath(name) := d];
      var added := if name[0] != '.' then {name} else {};
      forall n ensures n in Names(written) <==> n in Names(files) + added {
        NamesSpec(files, n);
        NamesSpec(written, n);
        ContextPathInjective(n, name);
      }
    }

    /** Removing the file of a name takes that name out of the listing and nothing else. */
    lemma NamesAfterRemove(files: Files, name: string)
      ensures Names(files - {ContextPath(name)}) == Names(files) - {name}
    {
      forall n ensures n in Names(files - {ContextPath(name)}) <==> n in Names(files) - {name} {
        NamesSpec(files, n);
        NamesSpec(files - {ContextPath(name)}, n);
        ContextPathInjective(n, name);
      }
    }

    /** `switch_context(name)` changes nothing unless `name` is listed and the state loads; then the
        active settings hold the context's content, the state is `set_current(name)` of the old one, and
        no other file changes. */
    lemma SwitchSpec(files: Files, name: string)
      requires Separate()
      ensures var o, state := SwitchOutcome(files, name), LoadFrom(files, statePath);
        && (o.error.None? <==> name in Names(files) && state.Success?)
        && (name !in Names(files) ==> o.error == Some(NotFound(name)))
        && (o.error.Some? ==> o.files == files)
        && (o.error.None? ==>
              && ContextPath(name) in files && o.files[claudeSettingsPath] == files[ContextPath(name)]
              && LoadFrom(o.files, statePath) == Success(AfterSet(state.value, name))
              && Names(o.files) == Names(files)
              && Frame(files, o.files, {claudeSettingsPath, statePath}))
    {
      var o := SwitchOutcome(files, name);
      if o.error.None? {
        NamesSpec(files, name);
        SaveThenLoad(files[claudeSettingsPath := files[ContextPath(name)]], statePath, AfterSet(LoadFrom(files, statePath).value, name));
        NamesIgnore(files, o.files, {claudeSettingsPath, statePath});
      }
    }

    /** From (a, b), both listed, `switch_to_previous` activates b and leaves (b, a); a second one
        activates a again and restores (a, b). */
    lemma SwitchToPreviousToggles(files: Files, a: string, b: string)
      requires Separate()
      requires LoadFrom(files, statePath) == Success(Slots(Some(a), Some(b))) && a != b
      requires a in Names(files) && b in Names(files)
      ensures var once := SwitchToPreviousOutcome(files);
        var twice := SwitchToPreviousOutcome(once.files);
        && ContextPath(a) in files && ContextPath(b) in files
        && once.error.None? && once.files[claudeSettingsPath] == files[ContextPath(b)]
        && LoadFrom(once.files, statePath) == Success(Slots(Some(b), Some(a)))
        && twice.error.None? && twice.files[claudeSettingsPath] == files[ContextPath(a)]
        && LoadFrom(twice.files, statePath) == Success(Slots(Some(a), Some(b)))
    {
      NamesSpec(files, a);
      NamesSpec(files, b);
      SwitchSpec(files, b);
      var once := SwitchOutcome(files, b);
      SwitchSpec(once.files, a);
      ListedPath(a);
    }

    /** Without a previous context `switch_to_previous` fails and changes nothing. */
    lemma NoPreviousFails(files: Files)
      requires LoadFrom(files, statePath).Success? && LoadFrom(files, statePath).value.previous.None?
      ensures SwitchToPreviousOutcome(files) == Outcome(Some(NoPreviousContext), files)
    {
    }

    /** `create_context(name)` succeeds exactly for a valid name not yet listed; it then writes only the
        new context, a copy of the active settings or an empty object, which is listed unless its name
        starts with a dot. */
    lemma CreateSpec(files: Files, name: string)
      ensures var o := CreateOutcome(files, name);
        && (o.error.None? <==> ValidName(name) && name !in Names(files))
        && (!ValidName(name) ==> o.error == Some(InvalidName(name)))
        && (o.error.Some? ==> o.files == files)
        && (o.error.None? ==>
              && ContextPath(name) in o.files
              && o.files[ContextPath(name)] == (if claudeSettingsPath in files then files[claudeSettingsPath] else Parsed(Obj(map[])))
              && Names(o.files) == Names(files) + (if name[0] != '.' then {name} else {})
              && Frame(files, o.files, {ContextPath(name)}))
    {
      var o := CreateOutcome(files, name);
      if o.error.None? {
        NamesAfterWrite(files, name, o.files[ContextPath(name)]);
      }
    }

    /** `import_context(name)` has the same name rules as create, then stores the input as it was read
        when it parses. */
    lemma ImportSpec(files: Files, name: string, input: Doc)
      ensures var o := ImportOutcome(files, name, input);
        && (o.error.None? <==> ValidName(name) && name !in Names(files) && input.Parsed?)
        && (!ValidName(name) ==> o.error == Some(InvalidName(name)))
        && (ValidName(name) && name in Names(files) ==> o.error == Some(AlreadyExists(name)))
        && (o.error.Some? ==> o.files == files)
        && (o.error.None? ==>
              && ContextPath(name) in o.files && o.files[ContextPath(name)] == input
              && Names(o.files) == Names(files) + (if name[0] != '.' then {name} else {})
              && Frame(files, o.files, {ContextPath(name)}))
    {
      if ImportOutcome(files, name, input).error.None? {
        NamesAfterWrite(files, name, input);
      }
    }

    /** `delete_context(name)` refuses the current context even when its file is missing, and a missing
        file; otherwise it removes only that file, and rewrites the state only to clear a previous slot
        naming it. */
    lemma DeleteSpec(files: Files, name: string)
      requires Separate() && ContextPath(name) != statePath
      ensures var o, state := DeleteOutcome(files, name), LoadFrom(files, statePath);
        && (o.error.None? <==> state.Success? && state.value.current != Some(name) && ContextPath(name) in files)
        && (state.Success? && state.value.current == Some(name) ==> o.error == Some(CannotDeleteActive(name)))
        && (o.error.Some? ==> o.files == files)
        && (o.error.None? ==>
              && ContextPath(name) !in o.files
              && LoadFrom(o.files, statePath) == Success(if state.value.previous == Some(name) then Slots(state.value.current, None) else state.value)
              && Names(o.files) == Names(files) - {name}
              && Frame(files, o.files, {ContextPath(name), statePath})
              && (state.value.previous != Some(name) ==> Frame(files, o.files, {ContextPath(name)})))
    {
      var o, state := DeleteOutcome(files, name), LoadFrom(files, statePath);
      if o.error.None? {
        var removed := files - {ContextPath(name)};
        NamesAfterRemove(files, name);
        if state.value.previous == Some(name) {
          SaveThenLoad(removed, statePath, Slots(state.value.current, None));
          NamesIgnore(removed, o.files, {statePath});
        } else {
          assert LoadFrom(removed, statePath) == state;
        }
      }
    }

    /** The files once `rename_context` has moved `oldName`'s file to `newName`'s. */
    lemma RenameMoves(files: Files, oldName: string, newName: string)
      requires Separate()
      requires ValidName(newName) && oldName in Names(files) && newName !in Names(files)
      requires ContextPath(oldName) in files
      ensures var moved := (files - {ContextPath(oldName)})[ContextPath(newName) := files[ContextPath(oldName)]];
        && ContextPath(oldName) != ContextPath(newName) && ContextPath(oldName) != statePath
        && Names(moved) == Names(files) - {oldName} + (if newName[0] != '.' then {newName} else {})
        && (ContextPath(newName) != statePath ==> LoadFrom(moved, statePath) == LoadFrom(files, statePath))
        && (ContextPath(newName) == statePath ==> moved[statePath] == files[ContextPath(oldName)])
    {
      NamesSpec(files, oldName);
      ListedPath(oldName);
      ContextPathInjective(oldName, newName);
      var removed := files - {ContextPath(oldName)};
      NamesAfterRemove(files, oldName);
      NamesAfterWrite(removed, newName, files[ContextPath(oldName)]);
    }

    /** `rename_context(old, new)`: the three checks change nothing; past them the file has moved even if
        the state then fails to load; on success each slot naming `old` names `new`. A new name whose
        file is the state file itself moves the context over the state, and only the listing and the
        frame are promised then. */
    lemma RenameSpec(files: Files, oldName: string, newName: string)
      requires Separate()
      ensures var o := RenameOutcome(files, oldName, newName);
        var checked := ValidName(newName) && oldName in Names(files) && newName !in Names(files);
        && (!ValidName(newName) ==> o.error == Some(InvalidName(newName)))
        && (ValidName(newName) && oldName !in Names(files) ==> o.error == Some(NotFound(oldName)))
        && (!checked ==> o.error.Some? && o.files == files)
        && (checked ==> RenamedFiles(files, o, oldName, newName))
    {
      if ValidName(newName) && oldName in Names(files) && newName !in Names(files) {
        RenameChecked(files, oldName, newName);
      }
    }

    /** What a rename that passed its checks leaves behind. */
    ghost predicate RenamedFiles(files: Files, o: Outcome, oldName: string, newName: string)
      requires ValidName(newName)
    {
      var state := LoadFrom(files, statePath);
      && ContextPath(oldName) in files && ContextPath(oldName) !in o.files
      && ContextPath(newName) in o.files
      && Names(o.files) == Names(files) - {oldName} + (if newName[0] != '.' then {newName} else {})
      && Frame(files, o.files, {ContextPath(oldName), ContextPath(newName), statePath})
      && (ContextPath(newName) != statePath ==>
            && o.files[ContextPath(newName)] == files[ContextPath(oldName)]
            && (o.error.None? <==> state.Success?)
            && (state.Success? ==> LoadFrom(o.files, statePath) == Success(Renamed(state.value, oldName, newName))))
    }

    lemma RenameChecked(files: Files, oldName: string, newName: string)
      requires Separate()
      requires ValidName(newName) && oldName in Names(files) && newName !in Names(files)
      ensures RenamedFiles(files, RenameOutcome(files, oldName, newName), oldName, newName)
    {
      NamesSpec(files, oldName);
      RenameMoves(files, oldName, newName);
      var moved := (files - {ContextPath(oldName)})[ContextPath(newName) := files[ContextPath(oldName)]];
      var o := RenameOutcome(files, oldName, newName);
      var state := LoadFrom(moved, statePath);
      if state.Success? && (state.value.current == Some(oldName) || state.value.previous == Some(oldName)) {
        if ContextPath(newName) != statePath {
          SaveThenLoad(moved, statePath, Renamed(state.value, oldName, newName));
        }
        NamesIgnore(moved, o.files, {statePath});
      }
    }

    /** `unset_context` always removes the active settings file; when the state loads it has no current
        context afterwards and the old one as previous, and it is only rewritten when there was one. */
    lemma UnsetSpec(files: Files)
      requires Separate()
      ensures var o, state := UnsetOutcome(files), LoadFrom(files, statePath);
        && claudeSettingsPath !in o.files
        && (o.error.None? <==> state.Success?)
        && (state.Failure? ==> o.error == Some(state.error))
        && (state.Success? ==> LoadFrom(o.files, statePath) == Success(AfterUnset(state.value).0))
        && (state.Success? && state.value.current.None? ==> Frame(files, o.files, {claudeSettingsPath}))
        && Names(o.files) == Names(files)
        && Frame(files, o.files, {claudeSettingsPath, statePath})
    {
      var o, state := UnsetOutcome(files), LoadFrom(files, statePath);
      var removed := files - {claudeSettingsPath};
      assert LoadFrom(removed, statePath) == state;
      if state.Success? && state.value.current.Some? {
        SaveThenLoad(removed, statePath, AfterUnset(state.value).0);
      }
      NamesIgnore(files, o.files, {claudeSettingsPath, statePath});
    }

    /** A merge source `user` is the user-level settings file whatever level the manager works at; a
        name ending in `.json` is taken as a path before any context of that name; any other name is a
        context. */
    lemma SourcePriority(other: ContextManager, files: Files, home: Option<string>, source: string)
      ensures source == "user" ==> SourcePath(files, home, source) == other.SourcePath(files, home, source)
      ensures source == "user" && SourcePath(files, home, source).Success? ==>
        home.Some? && SourcePath(files, home, source).value == UserSettingsPath(home.value)
      ensures source != "user" && IsJsonFile(source) ==>
        SourcePath(files, home, source) == if source in files then Success(source) else Failure(SourceFileNotFound(source))
      ensures source != "user" && !IsJsonFile(source) ==>
        SourcePath(files, home, source) == if ContextPath(source) in files then Success(ContextPath(source)) else Failure(NotFound(source))
    {
    }

    /** Every listed context other than one named `current` can be a merge target, and it resolves to
        its own file. */
    lemma TargetPathListed(files: Files, target: string)
      requires target != "current" && target in Names(files)
      ensures TargetPath(files, target) == Success(ContextPath(target))
    {
      NamesSpec(files, target);
    }

    /** A context's history file is not its context file. */
    lemma HistoryPathNotContext(n: string)
      ensures HistoryPath(contextsDir, n) != ContextPath(n)
    {
      JoinInjective(contextsDir, "." + n + "-merge-history.json", n + ".json");
    }

    /** `merge_from(n, source)` into a context `n` whose history has no record from `source`, then
        `unmerge_from(n, source)`: both succeed, `n` ends with the allow and deny rules it started with,
        and its history is back to what it was. */
    lemma MergeThenUnmergeContext(files: Files, home: Option<string>, n: string, source: string, timestamp: string, merged: Value, key: string)
      requires n != "current" && (key == "allow" || key == "deny")
      requires MergeInputs(files, home, n, source).Success?
      requires var inputs := MergeInputs(files, home, n, source).value;
        PermissionsMerged(inputs.target, inputs.source, merged)
      requires LoadHistory(files, contextsDir, n).Success?
      requires var h := LoadHistory(files, contextsDir, n).value;
        forall i :: 0 <= i < |h| ==> h[i].source != source
      ensures var inputs := MergeInputs(files, home, n, source).value;
        var record := MergeHistory(source, timestamp, PermissionItems(inputs.target, inputs.source), false);
        var after := AfterMerge(files, n, ContextPath(n), merged, record);
        var back := UnmergeOutcome(after.files, n, source, false);
        && after.error.None? && back.error.None?
        && ContextPath(n) in back.files && back.files[ContextPath(n)].Parsed?
        && RuleSet(back.files[ContextPath(n)].value, key) == RuleSet(inputs.target, key)
        && LoadHistory(back.files, contextsDir, n) == LoadHistory(files, contextsDir, n)
    {
      var inputs := MergeInputs(files, home, n, source).value;
      var record := MergeHistory(source, timestamp, PermissionItems(inputs.target, inputs.source), false);
      var h := LoadHistory(files, contextsDir, n).value;
      var hp := HistoryPath(contextsDir, n);
      HistoryPathNotContext(n);
      var written := files[ContextPath(n) := Parsed(merged)];
      assert LoadHistory(written, contextsDir, n) == Success(h);
      var after := AfterMerge(files, n, ContextPath(n), merged, record);
      assert after.files == written[hp := Parsed(EncodeHistory(h + [record]))];
      SaveThenLoadHistory(written, contextsDir, n, h + [record]);
      ItemsFromFreshRecord(h, record, false);
      WithoutFresh(h, record);
      var back := UnmergeOutcome(after.files, n, source, false);
      var items := set x | x in record.mergedItems;
      assert back.files == after.files[hp := Parsed(EncodeHistory(h))][ContextPath(n) := Parsed(RemoveRules(merged, "allow:", "deny:", items))];
      MergeThenUnmergeRestoresRules(inputs.target, inputs.source, merged, key);
      SaveThenLoadHistory(after.files, contextsDir, n, h);
      assert LoadHistory(back.files, contextsDir, n) == Success(h);
    }

    /** `list_contexts`: collects the stems while walking the directory, then sorts them. */
    method ListContexts(fs: FileSystem) returns (names: seq<string>)
      ensures StrictlySorted(names)
      ensures forall n :: n in names <==> n in Names(fs.files)
    {
      var contexts: seq<string> := [];
      var entries := Entries(fs.files, contextsDir);
      ghost var seen: set<string> := {};
      while entries != {}
        invariant seen + entries == Entries(fs.files, contextsDir) && seen !! entries
        invariant NoDup(contexts)
        invariant forall n :: n in contexts <==> n in Stems(seen)
        decreases entries
      {
        var filename :| filename in entries;
        entries := entries - {filename};
        if filename[0] != '.' && IsJsonFile(filename) {
          StemsAdd(seen, filename);
          StemsFresh(seen, filename);
          contexts := contexts + [Stem(filename)];
        } else {
          StemsSkip(seen, filename);
        }
        seen := seen + {filename};
      }
      SortDistinct(contexts);
      names := Sort(contexts);
      assert forall n :: n in names <==> n in multiset(names);
    }
  }
}
