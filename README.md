# cctx in Dafny

`cctx` switches the settings file of Claude Code between named "contexts". A context is a JSON
file `<name>.json` in a contexts directory `<root>/.claude/settings`. Switching copies a context
over the active settings file and records the switch in a small state file. The state file has
two slots, `current` and `previous`, and `-` toggles back through them. Contexts can be created,
deleted, renamed, imported, listed and unset. Two merge commands copy permission rules, or whole
settings, from another context, a file or the user-level settings into a target. Each merge
leaves a history record in a hidden file, so the merge can be undone later.

This project models that core and proves what it promises:

- the two-slot switch state (`src/state.rs`);
- the merge engine (`src/merge.rs`);
- the context store, with its three settings levels (`src/context.rs`);
- the command decision made in `main` (`src/main.rs`).

The file system is one object, `Fs.FileSystem`. It holds a map from path to document, and every
write replaces that map. A document either parses into a JSON value or is text that does not
parse.

Each state-changing context operation is written twice:

- an imperative method that runs the steps the code runs;
- a pure function giving the outcome: the error reported, if any, and the files left behind.

Each method is proved equal to its function, and the lemmas are proved about the function.

Files:

| file | module | contents |
|---|---|---|
| `wrappers.dfy` | `Wrappers`, `Errors`, `Seqs` | Option and Result, the error kinds, duplicate-free sequences |
| `json.dfy` | `Json` | the JSON tree, string-set helpers, turning a set into a duplicate-free list |
| `fs.dfy` | `Fs` | documents, path joining, directory entries, the file-system object |
| `state.dfy` | `SwitchState` | `State` with `set_current`, `unset_current`, `load` and `save` |
| `merge_rules.dfy` | `MergeRules` | merging and removing allow/deny rule lists |
| `merge_history.dfy` | `MergeHistoryFile` | merge records, their encoding, the history file |
| `merge.dfy` | `Merge` | `MergeManager`: permission merge, full merge, both unmerges, and their properties |
| `sort.dfy` | `NameOrder` | `sort()` on strings |
| `context.dfy` | `Contexts` | `ContextManager`: paths, names, listing, every context operation, the merge commands |
| `cli.dfy` | `Cli` | the flags record and the command decision |

Where the tool's documented behaviour and its code disagree, the model follows the code:

- A state file that does not parse is an error, not an empty state (`src/state.rs:16`).
- Merge history is kept in a separate hidden file `.{name}-merge-history.json`, not inside the
  context (`src/merge.rs:29-32`).
- Unmerge removes the items of every record from the source, not only the latest one. It
  succeeds when there is no such record (`src/merge.rs:158-162`).
- Merged rule lists are rebuilt from a hash set, so the order of existing rules is lost
  (`src/merge.rs:100-103`).
- Writes are plain writes, not temporary file plus rename. An operation that fails partway keeps
  the writes it already made. Rename moves the file before it loads the state, and a merge writes
  the target before it looks up the history name.
- `rename` and `create` check only the names shown in the listing. A hidden file with the new
  name is overwritten.
- A value that serde_json cannot index into panics in the code (`src/merge.rs:69,81,112`). The
  model reports this as the error `IndexPanic`.

## Model

| member | source | states |
|---|---|---|
| SwitchState.AfterSet | src/state.rs:28-35 | `current` becomes `Some(c)` in every case; `previous` takes the old current exactly when it named another context, otherwise it is unchanged |
| SwitchState.State.SetCurrent | src/state.rs:28-35 | the fields, updated in place, equal `AfterSet` of the old slots |
| SwitchState.SetCurrentIdempotent | src/state.rs:28-35 | setting the same name twice equals setting it once |
| SwitchState.SetCurrentSwaps | src/state.rs:28-35 | from `(a, b)` with `a != b`, setting `b` gives exactly `(b, a)` |
| SwitchState.AfterUnset | src/state.rs:37-43 | returns the old current and leaves no current; `previous` becomes the old current when there was one, otherwise it is untouched |
| SwitchState.State.UnsetCurrent | src/state.rs:37-43 | the fields and the returned name equal `AfterUnset` of the old slots |
| SwitchState.Decode | src/state.rs:6-10 | only an object or a two-entry array can hold a state; an object decodes iff each of `current` and `previous` is absent, `null` or a string, and it then gives the strings it holds (an object with neither field is the empty state); an array of another length is rejected, and a two-entry array decodes iff both entries are `null` or strings |
| SwitchState.LoadFrom | src/state.rs:13-20 | no file gives `(None, None)`; an existing file loads iff it parses and decodes, and then gives the decoded slots; a file that does not parse, or does not hold a state, is a `ParseError` and never a default |
| SwitchState.State.Load | src/state.rs:13-20 | returns a fresh state holding `LoadFrom`'s slots, or `LoadFrom`'s error |
| SwitchState.State.Save | src/state.rs:22-26 | writes the encoded slots to the state path and changes no other file |
| SwitchState.SaveThenLoad | src/state.rs:13-26 | `load` after `save` gives back the same `current` and `previous` |
| SwitchState.Encode | src/state.rs:22-26 | plain definition with no `ensures`: the serde object of the two slots; `SaveThenLoad` proves that loading what `save` wrote gives the same slots back |
| MergeHistoryFile.DecodeEncodeHistory | src/merge.rs:9-15 | decoding the serde encoding of a history gives back the same records |
| MergeHistoryFile.LoadHistory | src/merge.rs:35-46 | no history file is an empty history; an existing file loads iff it parses and decodes as a list of records, and then gives those records; every failure is a `ParseError` for that path |
| MergeHistoryFile.SaveThenLoadHistory | src/merge.rs:35-56 | `load_history` after `save_history` gives back the saved records |
| MergeHistoryFile.HistoryPath | src/merge.rs:29-32 | plain definition with no `ensures`: `.<name>-merge-history.json` in the settings directory; `HistoryFileIsHidden` and `Contexts.ContextManager.HistoryPathNotContext` carry its properties |
| MergeHistoryFile.HistoryFileIsHidden | src/merge.rs:29-32 | the history path starts with the contexts directory and its file name with a dot; it lies directly in that directory exactly when the context name has no `/` |
| MergeHistoryFile.ItemsFrom | src/merge.rs:158-162 | an item is collected exactly when some record from the source (a full-merge record, for the full unmerge) lists it |
| MergeHistoryFile.Without | src/merge.rs:195-198 | plain definition with no `ensures`: drops the records from one source; `WithoutCounts` and `WithoutFresh` carry its properties |
| MergeHistoryFile.WithoutCounts | src/merge.rs:195-198 | keeps every record from another source as often as it occurs, and no record from the source |
| MergeHistoryFile.WithoutFresh | src/merge.rs:195-198 | dropping the records of a source that only the last record is from gives back the earlier history in order |
| Merge.MergeManager.SaveHistory | src/merge.rs:49-56 | writes the encoded records to the context's history path and changes no other file |
| Merge.Prepare | src/merge.rs:67-73 | a target without `permissions` gets `{"allow":[],"deny":[]}`, and every other key is kept; a target that is neither object nor null panics |
| MergeRules.ListAt | src/merge.rs:81-83 | the list is found exactly when `permissions[key]` is an array; otherwise "not an array", or a panic when `permissions` is neither object nor null |
| MergeRules.NewRulesSpec | src/merge.rs:91-97 | the recorded values are exactly the source strings not already in the target, each once |
| MergeRules.NewRulesOfKnown | src/merge.rs:91-97 | when every source string is already present, nothing is recorded |
| MergeRules.MergeList | src/merge.rs:85-103 | the new list holds distinct strings only, and its set is the old strings plus the source strings; the items are the new strings with the prefix |
| Json.SetToList | src/merge.rs:100-103 | the list holds each string of the set exactly once and nothing else |
| MergeRules.MergeSlots | src/merge.rs:75-135 | fails exactly on the first list that is not an array (allow first); otherwise both lists are merged, other entries are untouched, and the allow items are followed by the deny items |
| Merge.MergeManager.MergePermissions | src/merge.rs:59-146 | fails exactly when `PermissionsError` says so; otherwise every key except `permissions` is as `Prepare` left it, both lists are merged, and the record holds the source, the timestamp, the items and `full_merge = false` |
| Merge.PermissionsMergedLists | src/merge.rs:85-135 | a list the source has becomes duplicate-free strings, with set = old target set ∪ source set (non-strings are dropped); a list the source lacks is untouched |
| Merge.PermissionItemsSpec | src/merge.rs:91-128 | the items have no duplicates; `allow:s` is an item iff `s` is a source allow string not in the target, and likewise `deny:s` |
| Merge.RemergePermissions | src/merge.rs:91-128 | merging the same source into the result again cannot fail, records no items, and changes no rule set |
| MergeRules.Retain | src/merge.rs:170-191 | plain definition with no `ensures`: the `retain` filter over one rule list; `RetainCount` carries its property |
| MergeRules.RetainCount | src/merge.rs:170-191 | `retain` drops exactly the strings whose prefixed item is recorded, and keeps every other entry, non-strings included, as often as it occurs |
| MergeRules.RemoveRules | src/merge.rs:164-192 | the target keeps its shape and every key other than `permissions` |
| MergeRules.RuleSetAfterRemove | src/merge.rs:164-192 | a rule remains after the removal iff it was there and its prefixed item is not recorded |
| Merge.MergeManager.UnmergePermissions | src/merge.rs:149-203 | a history that does not load is an error and changes no file; otherwise the result removes every rule recorded by any record from the source, and the history is saved without that source's records (no record is not an error) |
| Merge.MergeThenUnmergeRestoresRules | src/merge.rs:91-192 | removing exactly what a permission merge recorded gives back the target's original allow and deny sets |
| Merge.ItemsFromFreshRecord | src/merge.rs:158-162 | when no earlier record is from the source, the unmerge collects exactly the new record's items |
| Merge.MergeManager.MergeEnv | src/merge.rs:303-312 | the new `env` is the source variables under the target's, and the items are `env:k`, once each, for exactly the variables the target lacked |
| Merge.MergeManager.FullKey | src/merge.rs:218-323 | one loop step keeps the progress invariant `FullProgress`; only the `permissions` arm can fail |
| Merge.MergeManager.MergeFull | src/merge.rs:206-337 | fails exactly when `FullMergeError` says so; otherwise the target is `FullMerged`, the record has `full_merge = true`, and its items are, as a multiset, the copied keys, the `env:` items and the `permissions.*:` items |
| Merge.FullMergeKeepsTarget | src/merge.rs:291-322 | a full merge overwrites no target key other than `permissions`; `env` only gains variables; every source key ends up in the target (`env` only when the source's `env` is an object) |
| Merge.FullRemergeAddsNothing | src/merge.rs:206-337 | full-merging the same source again cannot fail and records nothing |
| Merge.MergeManager.StripFull | src/merge.rs:355-390 | the loop over the recorded items drops the recorded top-level keys, `env` variables and permission values, as `UnmergeFullTarget` describes |
| Merge.MergeManager.UnmergeFull | src/merge.rs:340-394 | a history that does not load is an error and changes no file; otherwise the full-merge items of the source are stripped, then the permission unmerge runs, and the history loses the source's records |
| Merge.FullUnmergeRestoresKey | src/merge.rs:349-357 | after a full merge and a full unmerge, every top-level key other than `env` and `permissions` has the value, or the absence, it had before, except a target key that is itself a recorded item; such a key is deleted, and it is always spelt `env:…`, `permissions.allow:…` or `permissions.deny:…` |
| Merge.FullUnmergeRestoresEnv | src/merge.rs:359-368 | a target `env` object gets back exactly its original variables |
| Merge.FullStripRestoresRules | src/merge.rs:369-388 | when no source key is spelt like a full-merge item, the allow and deny sets after the strip pass alone are what they were before the full merge |
| Merge.ItemLikeKeyCollides | src/merge.rs:316-321 | a top-level source key `permissions.allow:v` that the target lacks is recorded by the full merge, and the strip pass then removes the target's own allow rule `v` |
| Merge.FullUnmergeRestoresRules | src/merge.rs:340-394 | after the whole full unmerge (strip pass, then the `allow:`/`deny:` removal of `unmerge_permissions`), the allow and deny sets are what they were before the full merge, when no source key is spelt like an item |
| Merge.RuleLikeKeyCollides | src/merge.rs:316-322 | a top-level source key `allow:v` that the target lacks is recorded by the full merge, and the full unmerge then removes the target's own allow rule `v` |
| NameOrder.Sort | src/context.rs:132 | the result is a permutation of the input, ordered by string comparison |
| NameOrder.SortDistinct | src/context.rs:132 | sorting distinct names gives a strictly increasing list |
| Contexts.NewWithLevel | src/context.rs:29-55 | fails exactly when there is no home directory; otherwise the manager has the requested level |
| Contexts.LevelPaths | src/context.rs:33-55 | every level uses `<root>/.claude/settings` for contexts; the root is the home directory for User and the working directory (else `.`) otherwise; the settings and state file names depend only on whether the level is Local |
| Contexts.LocalMatchesProject | src/context.rs:41-54 | Local shares Project's contexts directory but has a different settings file and state file |
| Contexts.LayoutSeparate | src/context.rs:33-55 | the active settings file is outside the contexts directory, and the state file is a hidden entry in it |
| Contexts.ValidName | src/context.rs:236-240 | plain definition with no `ensures`: the name check of rename, which create (line 179) and import (line 329) repeat; `Contexts.ContextManager.CreateSpec`, `RenameSpec` and `ImportSpec` state what failing it does |
| Contexts.UserSettingsPath | src/context.rs:451-453 | plain definition with no `ensures`: `~/.claude/settings.json`; `Contexts.ContextManager.SourcePriority` states when a merge source resolves to it |
| Contexts.ContextManager.ContextPath | src/context.rs:97-99 | plain definition with no `ensures`: `<name>.json` in the contexts directory; `ContextPathInjective` carries its property |
| Contexts.ContextManager.ContextPathInjective | src/context.rs:97-99 | two names share a context file only if they are the same name |
| Contexts.ContextManager.Names | src/context.rs:109-134 | plain definition with no `ensures`: the stems of the `.json` entries of the contexts directory; `NamesSpec` and `ListContexts` carry its properties |
| Contexts.ContextManager.NamesSpec | src/context.rs:109-134 | a name is listed iff it is non-empty, does not start with a dot, has no `/`, and its context file exists (so state and history files never appear) |
| Contexts.ContextManager.ListContexts | src/context.rs:109-134 | the list is strictly sorted and holds exactly the listed names |
| Contexts.ContextManager.GetCurrentContext | src/context.rs:136-139 | the state's current name, or the state file's error |
| Contexts.ContextManager.SwitchContext | src/context.rs:141-164 | the steps of `switch_context` produce `SwitchOutcome` |
| Contexts.ContextManager.SwitchSpec | src/context.rs:141-164 | a name that is not listed fails with `NotFound`, and a failure changes nothing; on success the active settings hold the context's content, the state is `set_current(name)` of the old one, the listing is unchanged, and no other file changes |
| Contexts.ContextManager.SwitchToPrevious | src/context.rs:166-176 | the steps of `switch_to_previous` produce `SwitchToPreviousOutcome` |
| Contexts.ContextManager.SwitchToPreviousToggles | src/context.rs:166-176 | from `(a, b)`, both listed, activates `b` and leaves `(b, a)`; a second call activates `a` again and restores `(a, b)` |
| Contexts.ContextManager.NoPreviousFails | src/context.rs:166-176 | with no previous context it fails with `NoPreviousContext` and changes nothing |
| Contexts.ContextManager.CreateContext | src/context.rs:178-208 | the steps of `create_context` produce `CreateOutcome` |
| Contexts.ContextManager.CreateSpec | src/context.rs:178-208 | succeeds iff the name is valid and not listed; then it writes only the new context, as a copy of the active settings or `{}`, and the name is listed unless it starts with a dot |
| Contexts.ContextManager.DeleteContext | src/context.rs:210-233 | the steps of `delete_context` produce `DeleteOutcome` |
| Contexts.ContextManager.DeleteSpec | src/context.rs:210-233 | the current context fails with `CannotDeleteActive` even when its file is missing; a missing file fails; on success only that file goes, the name leaves the listing, and the state is rewritten only to clear a `previous` that named it |
| Contexts.ContextManager.RenameContext | src/context.rs:235-282 | the steps of `rename_context` produce `RenameOutcome` |
| Contexts.ContextManager.RenameMoves | src/context.rs:256-258 | moving the file takes the old name out of the listing and adds the new one unless it starts with a dot; the state file is left alone, or, when the new name's file is the state file, holds the moved context |
| Contexts.ContextManager.RenameSpec | src/context.rs:235-282 | an invalid new name, a missing old name or an existing new name fails and changes nothing; past the checks the file has moved, the listing is updated and only the old file, the new file and the state file change; when the new file is not the state file, the rename succeeds iff the state loads, and then each slot that named the old name names the new one |
| Contexts.ContextManager.ImportContext | src/context.rs:328-351 | the steps of `import_context` produce `ImportOutcome` |
| Contexts.ContextManager.ImportSpec | src/context.rs:328-351 | succeeds iff the name is valid, not listed, and the input parses, with the name checks first; it then stores exactly the input and nothing else |
| Contexts.ContextManager.UnsetContext | src/context.rs:353-365 | the steps of `unset_context` produce `UnsetOutcome` |
| Contexts.ContextManager.UnsetSpec | src/context.rs:353-365 | the active settings file is always gone, even when the state then fails to load; the loaded state becomes `unset_current` of the old one, and it is rewritten only when there was a current context |
| Contexts.ContextManager.ReadJson | src/context.rs:475-477 | a document is read exactly when it parses; otherwise a `ParseError` for its path |
| Contexts.ContextManager.TargetPath | src/context.rs:433-446 | `current` resolves to the active settings file, and fails with `NoCurrentSettings` exactly when it is absent; any other name resolves to its context file, and fails with `NotFound` exactly when that is absent |
| Contexts.ContextManager.TargetPathListed | src/context.rs:438-446 | every listed context other than one named `current` resolves to its own file |
| Contexts.ContextManager.SourcePath | src/context.rs:450-472 | a resolved source always exists |
| Contexts.ContextManager.SourcePriority | src/context.rs:450-472 | `user` is the user-level settings file at every level; a name ending in `.json` is a path before any context of that name; any other name is a context |
| Contexts.ContextManager.ResolveMerge | src/context.rs:433-477 | resolves and reads the target path, the source path, the target and the source, stopping at the first error |
| Contexts.ContextManager.GetHistoryName | src/context.rs:488-493 | the history name is the target itself, or for `current` the current context, or `current` when there is none |
| Contexts.ContextManager.AppendHistory | src/context.rs:488-497 | appends the record to the history of that name; a failure to load the state or the history changes no file |
| Contexts.ContextManager.MergeFrom | src/context.rs:431-519 | an error while resolving or merging changes no file; otherwise the target holds a result that `PermissionsMerged` accepts, and the history gains the merge's record |
| Contexts.ContextManager.MergeFromFull | src/context.rs:569-674 | the same, with a full merge and a record whose items are the full merge's items |
| Contexts.ContextManager.UnmergeFrom | src/context.rs:522-566 | the steps of `unmerge_from` (and of `unmerge_from_full`, with `full`) produce `UnmergeOutcome`: history saved before the target is written, no history is not an error |
| Contexts.ContextManager.HistoryPathNotContext | src/merge.rs:29-32 | a context's history file is never its own context file |
| Contexts.ContextManager.MergeThenUnmergeContext | src/context.rs:431-566 | `merge_from(n, s)` then `unmerge_from(n, s)`, with no earlier record from `s`, both succeed; `n` gets back its allow and deny sets, and its history is as before |
| Cli.NameOrCurrent | src/main.rs:75-83 | edit, show and export use the given name, else the current context; with neither they fail with no current context, and a state error is passed on |
| Cli.Level | src/main.rs:24-34 | plain definition with no `ensures`: the settings level from the flags; `DecideLevel` carries its property |
| Cli.Choose | src/main.rs:36-159 | plain definition with no `ensures`: the command the flags select; `ChooseFollowsPrecedence` and `PositionalCommand` carry its properties |
| Cli.Decide | src/main.rs:16-34 | plain definition with no `ensures`: completions first, then the level and the command; `CompletionsFirst` and `DecideLevel` carry its properties |
| Cli.ChooseFollowsPrecedence | src/main.rs:36-159 | exactly one command runs: the command for the first mode flag set, in the order current, unset, delete, rename, new, edit, show, export, import, merge, unmerge, merge-history; with none set, a positional command |
| Cli.CompletionsFirst | src/main.rs:19-22 | `--completions` is answered before a level or a manager is looked at |
| Cli.DecideLevel | src/main.rs:24-34 | `--local` wins over `--in-project`; with neither the level is User; only a missing home directory stops the manager |
| Cli.PositionalCommand | src/main.rs:139-159 | with no mode flag, `-` switches to the previous context and another name switches to it; with no name the command is the interactive selection iff `CCTX_INTERACTIVE` is `1`, otherwise the list |
| Cli.MergeDefaults | src/main.rs:116-133 | merge and unmerge target `current` when no name is given, and `--merge-full` selects the full variant of both |

## Left out

- Real I/O is not modelled: read and write failures, UTF-8, `create_dir_all`, a `read_dir` failure (the model lists an empty set), and `fs::copy`/`fs::rename` as system calls. A context or settings file is a document in the file map.
- Directories are not modelled. Paths are strings joined with `/`, without normalisation. A `.json` merge source is looked up by its text, with no resolution against the working directory.
- JSON text is not modelled: parsing, pretty-printing and number values. These are opaque, and a document is either a parsed tree or text that does not parse.
- The home directory, the working directory, standard input (`import`), the clock (merge timestamps) and `CCTX_INTERACTIVE` are parameters.
- Hash-set and serde map iteration order are left open. The model proves sets, multisets and the absence of duplicates, never a particular order.
- These parts of the tool are not modelled, because they only print or drive a terminal:
  - `edit_context` and its `$EDITOR` process;
  - `show_context`, `export_context`, `list_contexts_with_current`, `display_history` and `show_merge_history`, and the printed merge summaries;
  - the interactive selectors in `src/interactive.rs`, the new name that `--rename` prompts for, and the shell completions;
  - `has_project_contexts`/`has_local_contexts`.
  `Cli.Choose` names the command these would run.
- Merge.MergeManager.MergeFull: the items are stated as a multiset, because their order follows the source object's key order, which the model leaves open.
- Merge.FullUnmergeRestoresEnv: it requires that no source key looks like a recorded item (`env:…`, `permissions.allow:…`, `permissions.deny:…`). The code cannot tell a copied top-level key named `env:X` from an `env` variable item, and an unmerge would then also remove the target's own `X`.
- Merge.FullStripRestoresRules: it requires that no source key is spelt like a full-merge item. A copied top-level key `permissions.allow:git` is recorded as an item, and the strip loop then reads it as the permission value `git` and removes the target's own `git` rule. Merge.ItemLikeKeyCollides proves that this happens.
- Merge.FullUnmergeRestoresRules: it requires no source key spelt like a full-merge item, as above. It also requires no source key starting with `allow:` or `deny:`. The full unmerge ends with the permission unmerge, which reads a copied top-level key `allow:git` as the allow rule `git` and removes the target's own `git`. Merge.RuleLikeKeyCollides proves that this happens.
- Merge.FullUnmergeRestoresKey: it makes no promise to restore a target key that is itself a recorded item. The code deletes such a key, e.g. a top-level `env:X` when the merge added the variable `X`, and the lemma says so.
- Merge.FullUnmergeRestoresEnv: it also requires that the target already had an `env` object. An `env` or `permissions` object that the merge inserted stays behind, empty, after the unmerge.
- Contexts.ContextManager.DeleteSpec: it requires that the context file is not the state file. `delete_context(".cctx-state")` removes the state file itself, and the lemma does not describe that case.
- Contexts.ContextManager.RenameMoves, Contexts.ContextManager.RenameSpec: when the new name's file is the state file (`rename_context(x, ".cctx-state")`), they promise only the listing and the frame. The moved context then overwrites the state file, and the outcome depends on whether it reads as a state.
- Contexts.ContextManager.MergeThenUnmergeContext: it covers a named target context with no earlier record from the source. With the target `current`, the history name is read after the target is written, so it can change between the two commands.
- Contexts.ContextManager.MergeFrom: the merged target is fixed only up to `PermissionsMerged`, which leaves rule order open, so the contract says "there is a result such that".
