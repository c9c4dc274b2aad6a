/** Option and Result, the shapes of Rust's `Option<T>` and `anyhow::Result<T>`. */
module Wrappers {

  datatype Option<+T> = None | Some(value: T) {
    function GetOr(default: T): T {
      match this
      case Some(v) => v
      case None => default
    }
  }

  datatype Result<+T, +E> = Success(value: T) | Failure(error: E)
}

/** The failures the core reports; each constructor is one `bail!`/`anyhow!` site (or a panic). */
module Errors {

  datatype Error =
    | HomeDirUnavailable                // dirs::home_dir() returned None
    | InvalidName(name: string)         // "invalid context name"
    | NotFound(name: string)            // "no context exists with the name"
    | AlreadyExists(name: string)       // "context ... already exists"
    | CannotDeleteActive(name: string)  // "cannot delete the active context"
    | NoPreviousContext                 // "no previous context"
    | NoCurrentSettings                 // merge target "current" but no settings file ("no current context is set")
    | NoCurrentContext                  // command needs the current context and none is recorded ("no current context set")
    | NameRequired                      // import without a name
    | UserSettingsNotFound(path: string)
    | SourceFileNotFound(path: string)
    | ParseError(path: string)          // serde_json could not read the file at `path`
    | InvalidJsonInput                  // import: standard input is not JSON
    | NotAnArray(list: string)          // "Target permissions.<list> is not an array"
    | IndexPanic                        // serde_json `value[key]` on a value that is neither object nor null
}

/** Facts about plain sequences shared by the list-handling modules. */
module Seqs {
  /** No element occurs twice. */
  predicate NoDup<T(==)>(xs: seq<T>) {
    forall i, j :: 0 <= i < j < |xs| ==> xs[i] != xs[j]
  }

  /** Two duplicate-free sequences with no element in common concatenate to a duplicate-free one. */
  lemma NoDupAppend<T>(a: seq<T>, b: seq<T>)
    requires NoDup(a) && NoDup(b)
    requires forall i, j :: 0 <= i < |a| && 0 <= j < |b| ==> a[i] != b[j]
    ensures NoDup(a + b)
  {
    var c := a + b;
    forall i, j | 0 <= i < j < |c| ensures c[i] != c[j] {
      if j < |a| {
        assert c[i] == a[i] && c[j] == a[j];
      } else if i < |a| {
        assert c[i] == a[i] && c[j] == b[j - |a|];
      } else {
        assert c[i] == b[i - |a|] && c[j] == b[j - |a|];
      }
    }
  }
}
