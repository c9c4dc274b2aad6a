/** The file system the tool reads and writes, as a map from path to file content. */
module Fs {
  import opened Json

  /** What a file holds: text that serde_json parses into a value, or text it rejects. */
  datatype Doc = Parsed(value: Value) | Unparsable

  type Files = map<string, Doc>

  /** `PathBuf::join`, on paths written as strings with `/` between components. */
  function Join(dir: string, name: string): string {
    dir + "/" + name
  }

  /** The names `fs::read_dir(dir)` yields: the last component of every file directly inside `dir`. */
  function Entries(files: Files, dir: string): set<string> {
    set p | p in files && |p| > |dir| + 1 && p[..|dir| + 1] == dir + "/" && '/' !in p[|dir| + 1..] :: p[|dir| + 1..]
  }

  lemma JoinEntry(files: Files, dir: string, name: string)
    requires name != [] && '/' !in name
    ensures name in Entries(files, dir) <==> Join(dir, name) in files
  {
    var p := Join(dir, name);
    assert p[..|dir| + 1] == dir + "/";
    assert p[|dir| + 1..] == name;
    if name in Entries(files, dir) {
      var q :| q in files && |q| > |dir| + 1 && q[..|dir| + 1] == dir + "/" && '/' !in q[|dir| + 1..] && q[|dir| + 1..] == name;
      assert q == q[..|dir| + 1] + q[|dir| + 1..];
    }
  }

  lemma JoinInjective(dir: string, a: string, b: string)
    ensures Join(dir, a) == Join(dir, b) <==> a == b
  {
    if Join(dir, a) == Join(dir, b) {
      assert a == Join(dir, a)[|dir| + 1..];
    }
  }

  /** The real file system: one object whose file map every write replaces. */
  class FileSystem {
    var files: Files

    constructor (init: Files)
      ensures files == init
    {
      files := init;
    }
  }
}
