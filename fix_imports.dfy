/** The import rewrite script (fix_imports.py): every `from app.` and then
    every `import app.` in a file becomes `from backend.app.` and
    `import backend.app.`; a file is written back only when it changed, and
    `fix_all_imports` counts the `.py` files it rewrote.  The file system is
    a map from path to content, with the paths whose read or write fails
    given as sets. */
module FixImports {
  import opened Common
  import opened Text
  import Seqs

  const FromApp := "from app."
  const FromBackendApp := "from backend.app."
  const ImportApp := "import app."
  const ImportBackendApp := "import backend.app."

  /** The two substitutions, in the script's order. */
  function FixContent(content: string): string
  {
    Replace(Replace(content, FromApp, FromBackendApp), ImportApp, ImportBackendApp)
  }

  /** A replacement longer than its pattern never shortens the text. */
  lemma ReplaceGrows(s: string, pat: string, rep: string)
    requires 0 < |pat| < |rep|
    ensures |Replace(s, pat, rep)| >= |s|
  {
    ReplaceLength(s, pat, rep);
    if Occurrences(s, pat) > 0 {
      MulAtLeast(Occurrences(s, pat), |rep| - |pat|);
    }
  }

  /** The rewrite changes a file exactly when it holds one of the two
      import forms. */
  lemma FixChangesIff(content: string)
    ensures FixContent(content) != content <==> Contains(content, FromApp) || Contains(content, ImportApp)
  {
    var t := Replace(content, FromApp, FromBackendApp);
    ReplaceChanges(content, FromApp, FromBackendApp);
    ReplaceChanges(t, ImportApp, ImportBackendApp);
    if t != content {
      ReplaceLength(content, FromApp, FromBackendApp);
      OccurrencesPositive(content, FromApp);
      MulAtLeast(Occurrences(content, FromApp), |FromBackendApp| - |FromApp|);
      ReplaceGrows(t, ImportApp, ImportBackendApp);
    }
  }

  /** Content without either form is left alone. */
  lemma FixLeavesCleanContent(content: string)
    requires !Contains(content, FromApp) && !Contains(content, ImportApp)
    ensures FixContent(content) == content
  {
    FixChangesIff(content);
  }

  /** Whether `fix_imports_in_file` reports `path` as fixed: it reads, the
      content changes, and the write succeeds. */
  predicate WouldFix(files: map<string, string>, failsRead: set<string>, failsWrite: set<string>, path: string)
  {
    path in files && path !in failsRead && FixContent(files[path]) != files[path] && path !in failsWrite
  }

  /** The number of `.py` paths among `paths` that are fixed. */
  function CountFixed(files: map<string, string>, failsRead: set<string>, failsWrite: set<string>, paths: seq<string>): (n: nat)
    ensures n <= |paths|
    decreases |paths|
  {
    if |paths| == 0 then 0
    else CountFixed(files, failsRead, failsWrite, paths[..|paths| - 1])
         + if IsSuffix(".py", paths[|paths| - 1]) && WouldFix(files, failsRead, failsWrite, paths[|paths| - 1]) then 1 else 0
  }

  /** The content of `q` once every fixed `.py` path in `paths` is
      rewritten. */
  function FixedAt(files: map<string, string>, failsRead: set<string>, failsWrite: set<string>, paths: seq<string>, q: string): string
    requires q in files
  {
    if q in paths && IsSuffix(".py", q) && WouldFix(files, failsRead, failsWrite, q) then FixContent(files[q]) else files[q]
  }

  /** The files once every fixed `.py` path in `paths` is rewritten. */
  function FixedFiles(files: map<string, string>, failsRead: set<string>, failsWrite: set<string>, paths: seq<string>): (r: map<string, string>)
    ensures r.Keys == files.Keys
    ensures forall q :: q in files ==> r[q] == FixedAt(files, failsRead, failsWrite, paths, q)
  {
    map q | q in files :: FixedAt(files, failsRead, failsWrite, paths, q)
  }

  /** When no file holds either import form, no file is counted. */
  lemma {:induction false} CountFixedNeedsImports(files: map<string, string>, failsRead: set<string>, failsWrite: set<string>, paths: seq<string>)
    requires forall p :: p in files ==> !Contains(files[p], FromApp) && !Contains(files[p], ImportApp)
    ensures CountFixed(files, failsRead, failsWrite, paths) == 0
    decreases |paths|
  {
    if |paths| > 0 {
      var p := paths[|paths| - 1];
      if p in files {
        FixLeavesCleanContent(files[p]);
      }
      CountFixedNeedsImports(files, failsRead, failsWrite, paths[..|paths| - 1]);
    }
  }

  /** The next path of a duplicate-free walk is new, and the walk so far
      grows by it alone. */
  lemma NextPath(paths: seq<string>, i: nat)
    requires Seqs.NoDuplicates(paths) && i < |paths|
    ensures paths[i] !in paths[..i]
    ensures forall q :: q in paths[..i + 1] <==> q in paths[..i] || q == paths[i]
  {
    assert paths[..i + 1] == paths[..i] + [paths[i]];
  }

  /** One more path of a duplicate-free walk rewrites that path alone. */
  lemma FixedAtNext(files: map<string, string>, failsRead: set<string>, failsWrite: set<string>, paths: seq<string>, i: nat, q: string)
    requires Seqs.NoDuplicates(paths) && i < |paths| && q in files
    ensures FixedAt(files, failsRead, failsWrite, paths[..i + 1], q)
         == if q == paths[i] && IsSuffix(".py", q) && WouldFix(files, failsRead, failsWrite, q) then FixContent(files[q])
            else FixedAt(files, failsRead, failsWrite, paths[..i], q)
  {
    NextPath(paths, i);
  }

  /** Before the walk reaches a path, that path holds its original
      content, so whether it gets fixed is decided on the original files. */
  lemma FixedAtNextPath(files: map<string, string>, failsRead: set<string>, failsWrite: set<string>,
                        paths: seq<string>, i: nat, current: map<string, string>)
    requires Seqs.NoDuplicates(paths) && i < |paths|
    requires current.Keys == files.Keys
    requires forall q :: q in files ==> current[q] == FixedAt(files, failsRead, failsWrite, paths[..i], q)
    ensures WouldFix(current, failsRead, failsWrite, paths[i]) == WouldFix(files, failsRead, failsWrite, paths[i])
    ensures paths[i] in files ==> current[paths[i]] == files[paths[i]]
    ensures CountFixed(files, failsRead, failsWrite, paths[..i + 1])
         == CountFixed(files, failsRead, failsWrite, paths[..i])
            + if IsSuffix(".py", paths[i]) && WouldFix(files, failsRead, failsWrite, paths[i]) then 1 else 0
  {
    NextPath(paths, i);
    assert paths[..i + 1][..i] == paths[..i];
  }

  /** The files after one more step of the walk are the rewrite of one more
      path. */
  lemma FixedFilesNext(files: map<string, string>, failsRead: set<string>, failsWrite: set<string>,
                       paths: seq<string>, i: nat, before: map<string, string>, after: map<string, string>)
    requires Seqs.NoDuplicates(paths) && i < |paths|
    requires before.Keys == files.Keys
    requires forall q :: q in files ==> before[q] == FixedAt(files, failsRead, failsWrite, paths[..i], q)
    requires var p := paths[i];
      after == if IsSuffix(".py", p) && WouldFix(before, failsRead, failsWrite, p)
               then before[p := FixContent(before[p])] else before
    ensures after.Keys == files.Keys
    ensures forall q :: q in files ==> after[q] == FixedAt(files, failsRead, failsWrite, paths[..i + 1], q)
  {
    FixedAtNextPath(files, failsRead, failsWrite, paths, i, before);
    forall q | q in files
      ensures after[q] == FixedAt(files, failsRead, failsWrite, paths[..i + 1], q)
    {
      FixedAtNext(files, failsRead, failsWrite, paths, i, q);
    }
  }

  /** Files that agree with `FixedAt` on every path are `FixedFiles`. */
  lemma FixedFilesPointwise(files: map<string, string>, failsRead: set<string>, failsWrite: set<string>,
                            paths: seq<string>, current: map<string, string>)
    requires current.Keys == files.Keys
    requires forall q :: q in files ==> current[q] == FixedAt(files, failsRead, failsWrite, paths, q)
    ensures current == FixedFiles(files, failsRead, failsWrite, paths)
  {
  }

  class FileSystem {
    var files: map<string, string>
    const failsRead: set<string>
    const failsWrite: set<string>

    constructor (files: map<string, string>, failsRead: set<string>, failsWrite: set<string>)
      ensures this.files == files && this.failsRead == failsRead && this.failsWrite == failsWrite
    {
      this.files := files;
      this.failsRead := failsRead;
      this.failsWrite := failsWrite;
    }

    /** `open(path).read()`: nothing on a missing or unreadable file. */
    method Read(path: string) returns (r: Option<string>)
      ensures r == if path in files && path !in failsRead then Some(files[path]) else None
    {
      if path in files && path !in failsRead {
        return Some(files[path]);
      }
      return None;
    }

    /** `open(path, 'w').write(content)`: a failed write changes nothing. */
    method Write(path: string, content: string) returns (ok: bool)
      modifies this
      ensures ok == (path !in failsWrite)
      ensures files == if ok then old(files)[path := content] else old(files)
    {
      if path in failsWrite {
        return false;
      }
      files := files[path := content];
      return true;
    }
  }

  /** `fix_imports_in_file`: rewrite and report a change; any read or write
      error reports false. */
  method FixImportsInFile(fs: FileSystem, path: string) returns (fixed: bool)
    modifies fs
    ensures fixed == WouldFix(old(fs.files), fs.failsRead, fs.failsWrite, path)
    ensures fs.files == if fixed then old(fs.files)[path := FixContent(old(fs.files)[path])] else old(fs.files)
  {
    var content := fs.Read(path);
    if content.None? {
      return false;
    }
    var updated := FixContent(content.value);
    if content.value == updated {
      return false;
    }
    fixed := fs.Write(path, updated);
  }

  /** `fix_all_imports` over the paths the directory walk yields. */
  method FixAllImports(fs: FileSystem, paths: seq<string>) returns (count: nat)
    requires Seqs.NoDuplicates(paths)
    modifies fs
    ensures count == CountFixed(old(fs.files), fs.failsRead, fs.failsWrite, paths)
    ensures fs.files == FixedFiles(old(fs.files), fs.failsRead, fs.failsWrite, paths)
  {
    ghost var start := fs.files;
    count := 0;
    var i := 0;
    while i < |paths|
      invariant 0 <= i <= |paths|
      invariant count == CountFixed(start, fs.failsRead, fs.failsWrite, paths[..i])
      invariant fs.files.Keys == start.Keys
      invariant forall q :: q in start ==> fs.files[q] == FixedAt(start, fs.failsRead, fs.failsWrite, paths[..i], q)
    {
      var path := paths[i];
      ghost var before := fs.files;
      FixedAtNextPath(start, fs.failsRead, fs.failsWrite, paths, i, before);
      if IsSuffix(".py", path) {
        var fixed := FixImportsInFile(fs, path);
        if fixed {
          count := count + 1;
        }
      }
      FixedFilesNext(start, fs.failsRead, fs.failsWrite, paths, i, before, fs.files);
      i := i + 1;
    }
    assert paths[..|paths|] == paths;
    FixedFilesPointwise(start, fs.failsRead, fs.failsWrite, paths, fs.files);
  }
}
