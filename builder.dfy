/** The parts of Py++'s `module_builder_t` that decide what is exported and
    guard the code creator: the directories of the parsed files, the filter
    that excludes declarations coming from other headers, and the
    "no code creator yet / built" stage. */
module ModuleBuilder {
  import opened Strings
  import opened Declarations

  datatype Result<T> = Success(value: T) | Failure(error: string)

  /** The message of the `RuntimeError` raised by the `code_creator` property
      before `build_code_creator` has run. */
  const NoCodeCreatorError: string :=
    "self.module is equal to None. Did you forget to call build_code_creator function?"

  /** Index just past the last `/` of `p`, or 0 when `p` has none. */
  function LastSlashEnd(p: string): (i: nat)
    ensures i <= |p|
    ensures i > 0 ==> p[i - 1] == '/'
    ensures forall k :: i <= k < |p| ==> p[k] != '/'
    decreases |p|
  {
    if p == [] then 0
    else if p[|p| - 1] == '/' then |p|
    else LastSlashEnd(p[..|p| - 1])
  }

  predicate AllSlashes(s: string) {
    forall k :: 0 <= k < |s| ==> s[k] == '/'
  }

  /** `s.rstrip( '/' )` */
  function RStripSlashes(s: string): string
    decreases |s|
  {
    if s != [] && s[|s| - 1] == '/' then RStripSlashes(s[..|s| - 1]) else s
  }

  /** `os.path.split( p )[0]` with POSIX semantics: everything up to the last
      `/`, with trailing slashes removed unless it consists of slashes only. */
  function DirName(p: string): string {
    var head := p[..LastSlashEnd(p)];
    if head != "" && !AllSlashes(head) then RStripSlashes(head) else head
  }

  lemma {:induction false} RStripSlashesPrefix(s: string)
    ensures StartsWith(s, RStripSlashes(s))
    ensures (exists k :: 0 <= k < |s| && s[k] != '/') ==> RStripSlashes(s) != ""
    decreases |s|
  {
    if s != [] && s[|s| - 1] == '/' {
      var init := s[..|s| - 1];
      RStripSlashesPrefix(init);
      var r := RStripSlashes(init);
      assert s[..|r|] == init[..|r|];
      if exists k :: 0 <= k < |s| && s[k] != '/' {
        var k :| 0 <= k < |s| && s[k] != '/';
        assert init[k] != '/';
      }
    }
  }

  /** The directory part is a prefix of the path, and it is empty exactly
      when the path has no `/`. */
  lemma DirNameOf(p: string)
    ensures StartsWith(p, DirName(p))
    ensures DirName(p) == "" <==> '/' !in p
  {
    var i := LastSlashEnd(p);
    var head := p[..i];
    if head != "" && !AllSlashes(head) {
      RStripSlashesPrefix(head);
      assert p[..|RStripSlashes(head)|] == head[..|RStripSlashes(head)|];
    }
    if '/' in p {
      var k :| 0 <= k < |p| && p[k] == '/';
      assert i > 0;
    }
  }

  /** `parsed_dirs`: the directory part of each parsed file, in order, with
      the empty ones dropped. */
  function ParsedDirs(parsedFiles: seq<string>): (dirs: seq<string>)
    ensures "" !in dirs
    ensures |dirs| <= |parsedFiles|
    decreases |parsedFiles|
  {
    if parsedFiles == [] then []
    else
      var dir := DirName(parsedFiles[0]);
      (if dir == "" then [] else [dir]) + ParsedDirs(parsedFiles[1..])
  }

  /** A directory is listed exactly when it is the directory part of some
      parsed file that has one. */
  lemma {:induction false} ParsedDirsIff(parsedFiles: seq<string>, dir: string)
    ensures dir in ParsedDirs(parsedFiles) <==>
      exists f :: f in parsedFiles && '/' in f && DirName(f) == dir
    decreases |parsedFiles|
  {
    if parsedFiles != [] {
      var f0, rest := parsedFiles[0], parsedFiles[1..];
      ParsedDirsIff(rest, dir);
      DirNameOf(f0);
      assert parsedFiles == [f0] + rest;
      if exists f :: f in parsedFiles && '/' in f && DirName(f) == dir {
        var f :| f in parsedFiles && '/' in f && DirName(f) == dir;
        if f != f0 {
          assert f in rest;
        }
      }
    }
  }

  /** `code_creators.module_t`, the root of the code creator tree that
      `creator_t.create()` builds; its contents are not part of this model. */
  class CodeModule {
  }

  /** `module_builder_t`. `normalize` stands for `filtering.normalize_path`
      and `containsParentDir` for `filtering.contains_parent_dir`. */
  class Builder {
    const normalize: string -> string
    const containsParentDir: (string, seq<string>) -> bool
    const parsedFiles: seq<string>
    const parsedDirs: seq<string>
    var codeCreator: CodeModule?

    /** The parsing and defaulting steps of `__init__` are not modelled;
        `fileNames` are the OS file names of the files to parse. */
    constructor (fileNames: seq<string>, normalize: string -> string,
                 containsParentDir: (string, seq<string>) -> bool)
      ensures this.normalize == normalize && this.containsParentDir == containsParentDir
      ensures |parsedFiles| == |fileNames|
      ensures forall i :: 0 <= i < |fileNames| ==> parsedFiles[i] == normalize(fileNames[i])
      ensures parsedDirs == ParsedDirs(parsedFiles)
      ensures !HasCodeCreator()
    {
      this.normalize := normalize;
      this.containsParentDir := containsParentDir;
      var files := seq(|fileNames|, i requires 0 <= i < |fileNames| => normalize(fileNames[i]));
      parsedFiles := files;
      parsedDirs := ParsedDirs(files);
      codeCreator := null;
    }

    /** A declaration at `fpath` (already normalised) comes from the parsed
        headers: it lies under a parsed directory, is a parsed file, or ends
        with one. */
    predicate IsParsedLocation(fpath: string) {
      || containsParentDir(fpath, parsedDirs)
      || fpath in parsedFiles
      || exists pfile :: pfile in parsedFiles && EndsWith(fpath, pfile)
    }

    /** The location filter excludes a declaration exactly when it has a
        location outside the parsed headers. */
    predicate ExcludedByLocation(location: Option<string>) {
      location.Some? && !IsParsedLocation(normalize(location.value))
    }

    /** The test `fpath in parsed_files` never decides anything: a parsed
        file also ends with itself. */
    lemma ParsedLocationBySuffix(fpath: string)
      ensures IsParsedLocation(fpath) <==>
        containsParentDir(fpath, parsedDirs) || exists pfile :: pfile in parsedFiles && EndsWith(fpath, pfile)
    {
      if fpath in parsedFiles {
        assert EndsWith(fpath, fpath);
      }
    }

    /** `__filter_by_location`: excludes every located declaration from
        outside the parsed headers and leaves every other flag as it was. */
    method FilterByLocation(flattenDecls: seq<Declaration>)
      modifies set d | d in flattenDecls
      ensures forall d :: d in flattenDecls ==> d.ignore == (old(d.ignore) || ExcludedByLocation(d.location))
    {
      for i := 0 to |flattenDecls|
        invariant forall d :: d in flattenDecls ==>
          d.ignore == (old(d.ignore) || (ExcludedByLocation(d.location) && d in flattenDecls[..i]))
      {
        var decl := flattenDecls[i];
        assert flattenDecls[..i + 1] == flattenDecls[..i] + [decl];
        if decl.location.None? {
          continue;
        }
        var fpath := normalize(decl.location.value);
        if containsParentDir(fpath, parsedDirs) {
          continue;
        }
        if fpath in parsedFiles {
          continue;
        }
        var found := false;
        for j := 0 to |parsedFiles|
          invariant !found
          invariant forall k :: 0 <= k < j ==> !EndsWith(fpath, parsedFiles[k])
        {
          if EndsWith(fpath, parsedFiles[j]) {
            found := true;
            break;
          }
        }
        if !found {
          decl.Exclude();
        }
      }
      assert flattenDecls[..|flattenDecls|] == flattenDecls;
    }

    /** `has_code_creator` */
    predicate HasCodeCreator()
      reads this
    {
      codeCreator != null
    }

    /** `build_code_creator`: `created` is what `creator_t.create()` returned;
        the builder keeps it and hands it back. */
    method BuildCodeCreator(created: CodeModule) returns (creator: CodeModule)
      modifies this
      ensures codeCreator == created && creator == created
      ensures HasCodeCreator()
    {
      codeCreator := created;
      creator := codeCreator;
    }

    /** The `code_creator` property: fails with `RuntimeError` until
        `build_code_creator` has run, then returns what it built. */
    method GetCodeCreator() returns (r: Result<CodeModule>)
      ensures r.Success? <==> HasCodeCreator()
      ensures r.Success? ==> r.value == codeCreator
      ensures r.Failure? ==> r.error == NoCodeCreatorError
    {
      if codeCreator == null {
        return Failure(NoCodeCreatorError);
      }
      return Success(codeCreator);
    }
  }

  /** The builder's two stages as a caller sees them: the code creator is
      unavailable right after construction and, once built, is exactly the
      object `build_code_creator` returned. */
  method CodeCreatorStages(fileNames: seq<string>, normalize: string -> string,
                           containsParentDir: (string, seq<string>) -> bool, created: CodeModule)
    returns (before: Result<CodeModule>, built: CodeModule, after: Result<CodeModule>)
    ensures before == Failure(NoCodeCreatorError)
    ensures built == created && after == Success(created)
  {
    var builder := new Builder(fileNames, normalize, containsParentDir);
    before := builder.GetCodeCreator();
    built := builder.BuildCodeCreator(created);
    after := builder.GetCodeCreator();
  }
}
