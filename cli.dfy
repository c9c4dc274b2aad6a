/** The command `main` runs for a set of parsed flags (src/main.rs), as a total function. */
module Cli {
  import opened Wrappers
  import opened Errors
  import opened Contexts

  /** The flags and arguments `main` reads. `context` is the positional argument. */
  datatype Flags = Flags(
    completions: Option<string>,
    local: bool, inProject: bool,
    current: bool, unset: bool, delete: bool, rename: bool, newContext: bool,
    edit: bool, show: bool, exportContext: bool, importContext: bool,
    mergeFrom: Option<string>, unmerge: Option<string>, mergeFull: bool, mergeHistory: bool,
    quiet: bool, context: Option<string>)

  /** One manager call, with the arguments `main` passes. A `Failure` argument is the error `main`
      returns instead of making the call. */
  datatype Command =
    | PrintCurrent(current: Result<Option<string>, Error>)
    | Unset
    | Delete(name: string) | InteractiveDelete
    | Rename(oldName: string) | InteractiveRename
    | Create(name: string) | InteractiveCreate
    | Edit(target: Result<string, Error>)
    | Show(target: Result<string, Error>)
    | Export(target: Result<string, Error>)
    | Import(target: Result<string, Error>)
    | Merge(mergeTarget: string, source: string, full: bool)
    | Unmerge(mergeTarget: string, source: string, full: bool)
    | ShowHistory(historyName: Option<string>)
    | SwitchPrevious | Switch(switchTo: string) | InteractiveSelect | List(quiet: bool)

  datatype Decision =
    | PrintCompletions(shell: string)
    | NoManager(error: Error)
    | Run(manager: ContextManager, command: Command)

  /** `--local` wins over `--in-project`; neither means the user level. */
  function Level(f: Flags): SettingsLevel {
    if f.local then Local else if f.inProject then Project else User
  }

  /** The positional name, else the current context (`get_current_context`'s result), else an error. */
  function NameOrCurrent(name: Option<string>, current: Result<Option<string>, Error>): (r: Result<string, Error>)
    ensures name.Some? ==> r == Success(name.value)
    ensures name.None? && current.Failure? ==> r == Failure(current.error)
    ensures name.None? && current.Success? ==> (r.Success? <==> current.value.Some?)
    ensures name.None? && current.Success? && current.value.Some? ==> r == Success(current.value.value)
    ensures name.None? && current.Success? && current.value.None? ==> r == Failure(NoCurrentContext)
  {
    if name.Some? then Success(name.value)
    else if current.Failure? then Failure(current.error)
    else if current.value.Some? then Success(current.value.value)
    else Failure(NoCurrentContext)
  }

  /** The if-chain of `main` after the manager exists. `interactive` is `CCTX_INTERACTIVE`, and
      `current` what `get_current_context` returns, read only by the branches that call it. */
  function Choose(f: Flags, interactive: Option<string>, current: Result<Option<string>, Error>): Command {
    if f.current then PrintCurrent(current)
    else if f.unset then Unset
    else if f.delete then (if f.context.Some? then Delete(f.context.value) else InteractiveDelete)
    else if f.rename then (if f.context.Some? then Rename(f.context.value) else InteractiveRename)
    else if f.newContext then (if f.context.Some? then Create(f.context.value) else InteractiveCreate)
    else if f.edit then Edit(NameOrCurrent(f.context, current))
    else if f.show then Show(NameOrCurrent(f.context, current))
    else if f.exportContext then Export(NameOrCurrent(f.context, current))
    else if f.importContext then Import(if f.context.Some? then Success(f.context.value) else Failure(NameRequired))
    else if f.mergeFrom.Some? then Merge(f.context.GetOr("current"), f.mergeFrom.value, f.mergeFull)
    else if f.unmerge.Some? then Unmerge(f.context.GetOr("current"), f.unmerge.value, f.mergeFull)
    else if f.mergeHistory then ShowHistory(f.context)
    else match f.context
      case Some(name) => if name == "-" then SwitchPrevious else Switch(name)
      case None => if interactive == Some("1") then InteractiveSelect else List(f.quiet)
  }

  /** `main`: completions first, then the manager for the chosen level, then one command. */
  function Decide(f: Flags, home: Option<string>, cwd: Option<string>, interactive: Option<string>,
                  current: Result<Option<string>, Error>): Decision
  {
    if f.completions.Some? then PrintCompletions(f.completions.value)
    else
      var m := NewWithLevel(Level(f), home, cwd);
      if m.Failure? then NoManager(m.error) else Run(m.value, Choose(f, interactive, current))
  }

  /** The mode flags in the order `main` looks at them; the positional argument decides when none is set. */
  function Modes(f: Flags): (r: seq<bool>)
    ensures |r| == 12
  {
    seq(12, i => Mode(f, i))
  }

  function Mode(f: Flags, i: int): bool {
    if i == 0 then f.current
    else if i == 1 then f.unset
    else if i == 2 then f.delete
    else if i == 3 then f.rename
    else if i == 4 then f.newContext
    else if i == 5 then f.edit
    else if i == 6 then f.show
    else if i == 7 then f.exportContext
    else if i == 8 then f.importContext
    else if i == 9 then f.mergeFrom.Some?
    else if i == 10 then f.unmerge.Some?
    else i == 11 && f.mergeHistory
  }

  /** The position in `Modes` of the flag a command answers; the positional commands come after all. */
  function Rank(c: Command): nat {
    match c
    case PrintCurrent(_) => 0
    case Unset => 1
    case Delete(_) => 2
    case InteractiveDelete => 2
    case Rename(_) => 3
    case InteractiveRename => 3
    case Create(_) => 4
    case InteractiveCreate => 4
    case Edit(_) => 5
    case Show(_) => 6
    case Export(_) => 7
    case Import(_) => 8
    case Merge(_, _, _) => 9
    case Unmerge(_, _, _) => 10
    case ShowHistory(_) => 11
    case SwitchPrevious => 12
    case Switch(_) => 12
    case InteractiveSelect => 12
    case List(_) => 12
  }

  /** The index of the first set flag, or the length when none is. */
  function FirstSet(bs: seq<bool>): (r: nat)
    ensures r <= |bs|
    ensures r < |bs| ==> bs[r]
    ensures forall i :: 0 <= i < r ==> !bs[i]
  {
    if bs == [] then 0 else if bs[0] then 0 else 1 + FirstSet(bs[1..])
  }

  lemma {:induction false} FirstSetUnique(bs: seq<bool>, k: nat)
    requires k <= |bs| && (k < |bs| ==> bs[k])
    requires forall i :: 0 <= i < k ==> !bs[i]
    ensures FirstSet(bs) == k
  {
    if bs != [] && k > 0 {
      assert !bs[0];
      forall i | 0 <= i < k - 1 ensures !bs[1..][i] {
        assert bs[1..][i] == bs[i + 1];
      }
      FirstSetUnique(bs[1..], k - 1);
    }
  }

  /** Exactly one command runs: the one for the first mode flag set, or a positional command when no
      mode flag is set. */
  lemma ChooseFollowsPrecedence(f: Flags, interactive: Option<string>, current: Result<Option<string>, Error>)
    ensures Rank(Choose(f, interactive, current)) == FirstSet(Modes(f))
  {
    var bs := Modes(f);
    if f.current {
      FirstSetUnique(bs, 0);
    } else if f.unset {
      FirstSetUnique(bs, 1);
    } else if f.delete {
      FirstSetUnique(bs, 2);
    } else if f.rename {
      FirstSetUnique(bs, 3);
    } else if f.newContext {
      FirstSetUnique(bs, 4);
    } else if f.edit {
      FirstSetUnique(bs, 5);
    } else if f.show {
      FirstSetUnique(bs, 6);
    } else if f.exportContext {
      FirstSetUnique(bs, 7);
    } else if f.importContext {
      FirstSetUnique(bs, 8);
    } else if f.mergeFrom.Some? {
      FirstSetUnique(bs, 9);
    } else if f.unmerge.Some? {
      FirstSetUnique(bs, 10);
    } else if f.mergeHistory {
      FirstSetUnique(bs, 11);
    } else {
      FirstSetUnique(bs, 12);
    }
  }

  /** `--completions` is answered before anything else is looked at, even without a home directory. */
  lemma CompletionsFirst(f: Flags, home: Option<string>, cwd: Option<string>, interactive: Option<string>,
                         current: Result<Option<string>, Error>)
    requires f.completions.Some?
    ensures Decide(f, home, cwd, interactive, current) == PrintCompletions(f.completions.value)
  {
  }

  /** Otherwise the manager is built for `Level(f)`; only a missing home directory stops it. */
  lemma DecideLevel(f: Flags, home: Option<string>, cwd: Option<string>, interactive: Option<string>,
                    current: Result<Option<string>, Error>)
    requires f.completions.None?
    ensures var d := Decide(f, home, cwd, interactive, current);
      && (home.None? <==> d == NoManager(HomeDirUnavailable))
      && (d.Run? ==> d.manager.settingsLevel == Level(f) && d.command == Choose(f, interactive, current))
      && (Level(f) == Local <==> f.local)
      && (Level(f) == Project <==> !f.local && f.inProject)
  {
  }

  /** With no mode flag, `-` switches to the previous context, another name switches to it, and no name
      selects interactively exactly when `CCTX_INTERACTIVE` is `1`, else lists. */
  lemma PositionalCommand(f: Flags, interactive: Option<string>, current: Result<Option<string>, Error>)
    requires FirstSet(Modes(f)) == |Modes(f)|
    ensures var c := Choose(f, interactive, current);
      && (f.context == Some("-") <==> c == SwitchPrevious)
      && (f.context.Some? && f.context.value != "-" ==> c == Switch(f.context.value))
      && (c.Switch? ==> f.context == Some(c.switchTo) && c.switchTo != "-")
      && (f.context.None? ==> (c == InteractiveSelect <==> interactive == Some("1")))
      && (f.context.None? && interactive != Some("1") ==> c == List(f.quiet))
  {
    ChooseFollowsPrecedence(f, interactive, current);
    assert Modes(f)[0] == f.current;
  }

  /** The merge commands default their target to `current`; `--merge-full` picks the full variant of
      both merge and unmerge. */
  lemma MergeDefaults(f: Flags, interactive: Option<string>, current: Result<Option<string>, Error>)
    requires FirstSet(Modes(f)) == 9 || FirstSet(Modes(f)) == 10
    ensures var c := Choose(f, interactive, current);
      && (c.Merge? || c.Unmerge?)
      && c.mergeTarget == (if f.context.Some? then f.context.value else "current")
      && c.full == f.mergeFull
      && (c.Merge? <==> f.mergeFrom.Some?)
  {
    ChooseFollowsPrecedence(f, interactive, current);
  }
}
