/** The "used but not exported" diagnostic of Py++'s module creator
    (`manager_t`): it collects the declarations chosen for export and warns,
    once per dependency, about every exported declaration that depends on a
    declaration which is neither exported, nor a direct member of `::std`,
    nor an opaque class. */
module DependenciesManager {
  import opened Strings
  import opened Declarations

  /** `__is_std_decl`: the declaration sits directly in the namespace `std`
      of the global namespace `::`, which itself has no parent; `pair<...>`
      instantiations are carved out. The checks run in the source's order. */
  predicate IsStdDecl(decl: Declaration) {
    if decl.parent == null then false
    else if !decl.parent.kind.Namespace? then false
    else if decl.parent.name != "std" then false
    else if decl.parent.parent == null then false
    else if !decl.parent.parent.kind.Namespace? then false
    else if decl.parent.parent.name != "::" then false
    else if decl.parent.parent.parent != null then false
    else if StartsWith(decl.name, "pair<") then false
    else true
  }

  /** The same test stated as one conjunction over the parent chain. */
  lemma IsStdDeclIff(decl: Declaration)
    ensures IsStdDecl(decl) <==>
      && decl.parent != null && decl.parent.kind == Namespace && decl.parent.name == "std"
      && decl.parent.parent != null && decl.parent.parent.kind == Namespace
      && decl.parent.parent.name == "::" && decl.parent.parent.parent == null
      && !StartsWith(decl.name, "pair<")
  {
  }

  /** A declaration without a parent, or whose name starts with `pair<`, is
      never a `::std` declaration. */
  lemma NotStdDecl(decl: Declaration)
    requires decl.parent == null || StartsWith(decl.name, "pair<")
    ensures !IsStdDecl(decl)
  {
  }

  predicate IsOpaqueClass(decl: Declaration) {
    decl.kind.Class? && decl.kind.isOpaque
  }

  /** `__build_dependencies`: a `::std` declaration contributes nothing. */
  function BuildDependencies(decl: Declaration): seq<Dependency> {
    if IsStdDecl(decl) then [] else decl.dependsOnThem
  }

  /** The identities of the exported declarations. */
  function ExportedIds(decls: seq<Declaration>): set<Declaration> {
    set d | d in decls
  }

  /** The test a dependency fails to be skipped by the inner loop of
      `__find_out_used_but_not_exported`. */
  predicate IsReported(dep: Dependency, exportedIds: set<Declaration>) {
    && dep.target != null
    && !IsStdDecl(dep.target)
    && !IsOpaqueClass(dep.target)
    && dep.target !in exportedIds
  }

  /** The reported dependencies of one declaration, in dependency order. */
  function ReportedOf(deps: seq<Dependency>, exportedIds: set<Declaration>): seq<Dependency>
    decreases |deps|
  {
    if deps == [] then []
    else
      var last := deps[|deps| - 1];
      ReportedOf(deps[..|deps| - 1], exportedIds) + (if IsReported(last, exportedIds) then [last] else [])
  }

  /** The violations of a list of exported declarations against a fixed set
      of exported identities: in list order, then in dependency order,
      without deduplication. */
  function UsedButNotExported(decls: seq<Declaration>, exportedIds: set<Declaration>): seq<Dependency>
    decreases |decls|
  {
    if decls == [] then []
    else
      UsedButNotExported(decls[..|decls| - 1], exportedIds)
        + ReportedOf(BuildDependencies(decls[|decls| - 1]), exportedIds)
  }

  lemma {:induction false} ReportedOfIff(deps: seq<Dependency>, exportedIds: set<Declaration>, dep: Dependency)
    ensures dep in ReportedOf(deps, exportedIds) <==> dep in deps && IsReported(dep, exportedIds)
    decreases |deps|
  {
    if deps != [] {
      var init := deps[..|deps| - 1];
      ReportedOfIff(init, exportedIds, dep);
      assert deps == init + [deps[|deps| - 1]];
    }
  }

  /** A dependency is reported exactly when it belongs to a non-`::std`
      exported declaration and passes `IsReported`. */
  lemma {:induction false} UsedButNotExportedIff(decls: seq<Declaration>, exportedIds: set<Declaration>, dep: Dependency)
    ensures dep in UsedButNotExported(decls, exportedIds) <==>
      && IsReported(dep, exportedIds)
      && exists d :: d in decls && !IsStdDecl(d) && dep in d.dependsOnThem
    decreases |decls|
  {
    if decls != [] {
      var init, last := decls[..|decls| - 1], decls[|decls| - 1];
      UsedButNotExportedIff(init, exportedIds, dep);
      ReportedOfIff(BuildDependencies(last), exportedIds, dep);
      assert decls == init + [last];
      if dep in UsedButNotExported(decls, exportedIds) {
        if dep !in UsedButNotExported(init, exportedIds) {
          assert !IsStdDecl(last) && dep in last.dependsOnThem;
        }
      } else if IsReported(dep, exportedIds) {
        forall d | d in decls && !IsStdDecl(d)
          ensures dep !in d.dependsOnThem
        {
          if d != last {
            assert d in init;
          }
        }
      }
    }
  }

  /** The violations of a concatenation are those of each part, in order:
      no merging and no deduplication. */
  lemma {:induction false} UsedButNotExportedAppend(a: seq<Declaration>, b: seq<Declaration>, exportedIds: set<Declaration>)
    ensures UsedButNotExported(a + b, exportedIds)
         == UsedButNotExported(a, exportedIds) + UsedButNotExported(b, exportedIds)
    decreases |b|
  {
    if b == [] {
      assert a + b == a;
    } else {
      var init, last := b[..|b| - 1], b[|b| - 1];
      UsedButNotExportedAppend(a, init, exportedIds);
      assert (a + b)[..|a + b| - 1] == a + init;
      assert (a + b)[|a + b| - 1] == last;
    }
  }

  /** Every non-None, non-`::std`, non-opaque dependency target of every
      non-`::std` exported declaration is itself exported. */
  ghost predicate DependencyClosed(decls: seq<Declaration>) {
    forall d, dep | d in decls && !IsStdDecl(d) && dep in d.dependsOnThem ::
      dep.target == null || IsStdDecl(dep.target) || IsOpaqueClass(dep.target) || dep.target in decls
  }

  /** The check reports nothing exactly when the exported set is closed. */
  lemma ClosedIffNoViolations(decls: seq<Declaration>)
    ensures UsedButNotExported(decls, ExportedIds(decls)) == [] <==> DependencyClosed(decls)
  {
    var ids := ExportedIds(decls);
    if UsedButNotExported(decls, ids) == [] {
      forall d, dep | d in decls && !IsStdDecl(d) && dep in d.dependsOnThem
        ensures dep.target == null || IsStdDecl(dep.target) || IsOpaqueClass(dep.target) || dep.target in decls
      {
        UsedButNotExportedIff(decls, ids, dep);
      }
    } else {
      var dep := UsedButNotExported(decls, ids)[0];
      UsedButNotExportedIff(decls, ids, dep);
    }
  }

  /** Completeness: a non-exported, non-exempt target of a non-`::std`
      exported declaration is named by at least one violation. */
  lemma MissingTargetReported(decls: seq<Declaration>, d: Declaration, dep: Dependency)
    requires d in decls && !IsStdDecl(d) && dep in d.dependsOnThem
    requires dep.target != null && !IsStdDecl(dep.target) && !IsOpaqueClass(dep.target)
    requires dep.target !in decls
    ensures exists v :: v in UsedButNotExported(decls, ExportedIds(decls)) && v.target == dep.target
  {
    UsedButNotExportedIff(decls, ExportedIds(decls), dep);
  }

  /** An exported `::std` declaration is never the source of a violation,
      whatever it depends on. */
  lemma StdDeclContributesNothing(decls: seq<Declaration>, d: Declaration, exportedIds: set<Declaration>)
    requires IsStdDecl(d)
    ensures UsedButNotExported(decls + [d], exportedIds) == UsedButNotExported(decls, exportedIds)
  {
    assert (decls + [d])[..|decls|] == decls;
  }

  const ReasonPrefix: string := "The declaration depends on unexposed declaration \""

  /** `"%s" % target`, where a missing target prints as `None`. */
  function TargetText(target: Declaration?): string {
    if target == null then "None" else target.text
  }

  /** `__create_msg`: `<declaration>;The declaration depends on unexposed declaration "<target>".` */
  function CreateMsg(dep: Dependency): string {
    dep.declaration.text + ";" + ReasonPrefix + TargetText(dep.target) + "\"."
  }

  /** Reads a warning back into its two named declarations. */
  function DecodeMsg(msg: string): Option<(string, string)> {
    var k := FirstIndexOf(msg, ';');
    if k == |msg| then None
    else
      var rest := msg[k + 1..];
      if StartsWith(rest, ReasonPrefix) && |ReasonPrefix| + 2 <= |rest| && EndsWith(rest, "\".")
      then Some((msg[..k], rest[|ReasonPrefix|..|rest| - 2]))
      else None
  }

  /** Each warning names the dependent declaration and the missing target,
      and both can be read back from it. */
  lemma DecodeCreateMsg(dep: Dependency)
    requires ';' !in dep.declaration.text
    ensures DecodeMsg(CreateMsg(dep)) == Some((dep.declaration.text, TargetText(dep.target)))
  {
    var subject, target := dep.declaration.text, TargetText(dep.target);
    var msg := CreateMsg(dep);
    var tail := ReasonPrefix + target + "\".";
    assert msg == subject + [';'] + tail;
    FirstIndexOfAfter(subject, ';', tail);
    assert msg[|subject| + 1..] == tail;
    assert msg[..|subject|] == subject;
    assert tail[..|ReasonPrefix|] == ReasonPrefix;
    assert tail[|tail| - 2..] == "\".";
    assert tail[|ReasonPrefix|..|tail| - 2] == target;
  }

  /** One warning per violation, in order. */
  function Messages(deps: seq<Dependency>): (msgs: seq<string>)
    ensures |msgs| == |deps|
    ensures forall i :: 0 <= i < |deps| ==> msgs[i] == CreateMsg(deps[i])
  {
    seq(|deps|, i requires 0 <= i < |deps| => CreateMsg(deps[i]))
  }

  /** The logger the manager was given; only its warnings are modelled. */
  class Logger {
    var warnings: seq<string>

    constructor ()
      ensures warnings == []
    {
      warnings := [];
    }

    /** `logger.warn(msg)` */
    method Warn(msg: string)
      modifies this
      ensures warnings == old(warnings) + [msg]
    {
      warnings := warnings + [msg];
    }
  }

  /** `manager_t` */
  class Manager {
    var exportedDecls: seq<Declaration>
    const logger: Logger

    constructor (logger: Logger)
      ensures exportedDecls == [] && this.logger == logger
    {
      exportedDecls := [];
      this.logger := logger;
    }

    /** `add_exported`: appends the declaration and changes nothing else. */
    method AddExported(decl: Declaration)
      modifies this
      ensures exportedDecls == old(exportedDecls) + [decl]
    {
      exportedDecls := exportedDecls + [decl];
    }

    /** `__find_out_used_but_not_exported`: the identities of the exported
        declarations are taken once, before the scan. */
    method FindOutUsedButNotExported() returns (usedNotExported: seq<Dependency>)
      ensures usedNotExported == UsedButNotExported(exportedDecls, ExportedIds(exportedDecls))
    {
      usedNotExported := [];
      var exportedIds := set d | d in exportedDecls;
      for i := 0 to |exportedDecls|
        invariant usedNotExported == UsedButNotExported(exportedDecls[..i], exportedIds)
      {
        var decl := exportedDecls[i];
        var deps := BuildDependencies(decl);
        for j := 0 to |deps|
          invariant usedNotExported
                 == UsedButNotExported(exportedDecls[..i], exportedIds) + ReportedOf(deps[..j], exportedIds)
        {
          var dependency := deps[j];
          assert deps[..j + 1][..j] == deps[..j];
          var dependOnDecl := dependency.target;
          if dependOnDecl == null {
            continue;
          }
          if IsStdDecl(dependOnDecl) {
            continue;
          }
          if dependOnDecl.kind.Class? && dependOnDecl.kind.isOpaque {
            continue;
          }
          if dependOnDecl !in exportedIds {
            usedNotExported := usedNotExported + [dependency];
          }
        }
        assert deps[..|deps|] == deps;
        assert exportedDecls[..i + 1][..i] == exportedDecls[..i];
      }
      assert exportedDecls[..|exportedDecls|] == exportedDecls;
    }

    /** `inform_user`: exactly one warning per violation, in order. */
    method InformUser()
      modifies logger
      ensures logger.warnings
           == old(logger.warnings) + Messages(UsedButNotExported(exportedDecls, ExportedIds(exportedDecls)))
    {
      var usedNotExportedDecls := FindOutUsedButNotExported();
      for i := 0 to |usedNotExportedDecls|
        invariant logger.warnings == old(logger.warnings) + Messages(usedNotExportedDecls[..i])
      {
        logger.Warn(CreateMsg(usedNotExportedDecls[i]));
        assert Messages(usedNotExportedDecls[..i + 1]) == Messages(usedNotExportedDecls[..i]) + [CreateMsg(usedNotExportedDecls[i])];
      }
      assert usedNotExportedDecls[..|usedNotExportedDecls|] == usedNotExportedDecls;
    }
  }
}
