# Py++ export checks and unnamed-enum rendering, in Dafny

Py++ generates Boost.Python glue code from a parsed C++ declaration tree.
This project models three small pieces of that pipeline and proves what they
promise:

- **The "used but not exported" diagnostic** (`manager_t` in
  `module_creator/dependencies_manager.py`). The manager collects the
  declarations chosen for export. It warns, once per dependency, about
  every exported declaration that depends on a declaration that is not
  exported. Three kinds of target are exempt: a direct member of the global
  `::std` namespace (except `pair<...>` instantiations), an opaque class,
  and a missing (`None`) target. Declarations are Dafny objects, so Python's
  `id()` identity is object identity. The logger is a `Logger` object that
  records the warnings it receives.
- **The unnamed-enum code creator** (`unnamed_enum_t`). An anonymous C++ enum
  cannot be bound by name. The creator therefore emits one line per
  enumerator. Each line assigns `(int)<enum full name>::<enumerator>` to an
  attribute of the enclosing Boost.Python scope. The attribute is named by
  the enumerator's alias when it has one, and by the enumerator itself
  otherwise.
- **The module builder's location filter and code-creator stage**
  (`module_builder_t`). `parsed_dirs` is derived from the parsed files. The
  location filter excludes declarations that come from outside the parsed
  headers. The code creator is unavailable until `build_code_creator` runs.

Modules: `Strings` (string helpers), `Declarations` (the declaration objects),
`DependenciesManager`, `UnnamedEnum`, `ModuleBuilder`.

External helpers are given as data or as function-valued parameters:
- `str(decl)` is `Declaration.text`.
- `i_depend_on_them()` is `Declaration.dependsOnThem`.
- `find_out_depend_on_declaration()` is `Dependency.target`.
- `declarations.full_name` is `EnumDeclaration.fullName`.
- `algorithm.create_identifier` is `UnnamedEnumCreator.createIdentifier`.
- `filtering.normalize_path` is `Builder.normalize`.
- `filtering.contains_parent_dir` is `Builder.containsParentDir`.
- The object that `creator_t.create()` returns is a parameter of `BuildCodeCreator`.

Modelling notes:
- Only direct members of `::std` are exempt. Declarations nested deeper in
  `std` are not exempt, and neither is any other notion of a "standard
  container".
- The warning text names the dependent declaration and the target. It does
  not name a dependency reason.

## Model

| member | source | states |
|---|---|---|
| `DependenciesManager.Manager.constructor` | pyplusplus/module_creator/dependencies_manager.py:10-13 | A new manager has no exported declarations and keeps the logger it was given. |
| `DependenciesManager.Manager.AddExported` | pyplusplus/module_creator/dependencies_manager.py:15-16 | The exported list becomes the old list with the declaration appended at the end; nothing else changes. |
| `DependenciesManager.IsStdDeclIff` | pyplusplus/module_creator/dependencies_manager.py:18-45 | A declaration is a `::std` declaration iff its parent is a namespace named `std`, whose parent is a namespace named `::` that has no parent, and its name does not start with `pair<`. |
| `DependenciesManager.NotStdDecl` | pyplusplus/module_creator/dependencies_manager.py:19-44 | A declaration without a parent, or whose name starts with `pair<`, is never a `::std` declaration. |
| `DependenciesManager.StdDeclContributesNothing` | pyplusplus/module_creator/dependencies_manager.py:47-50 | Exporting a `::std` declaration adds no violation, whatever it depends on. |
| `DependenciesManager.ReportedOfIff` | pyplusplus/module_creator/dependencies_manager.py:56-65 | A dependency of one declaration is kept iff it is in the dependency list and its target is present, not `::std`, not an opaque class and not exported. |
| `DependenciesManager.UsedButNotExportedIff` | pyplusplus/module_creator/dependencies_manager.py:52-66 | A dependency is reported iff its target passes the four tests and it belongs to the dependency list of some non-`::std` exported declaration. |
| `DependenciesManager.UsedButNotExportedAppend` | pyplusplus/module_creator/dependencies_manager.py:55-65 | The violations of a concatenated exported list are the violations of each part, in order, with nothing merged or deduplicated. |
| `DependenciesManager.ClosedIffNoViolations` | pyplusplus/module_creator/dependencies_manager.py:52-66 | Nothing is reported iff every present, non-`::std`, non-opaque target of every non-`::std` exported declaration is itself exported. |
| `DependenciesManager.MissingTargetReported` | pyplusplus/module_creator/dependencies_manager.py:55-65 | A non-exported, non-exempt target of an exported declaration is named by at least one reported violation. |
| `DependenciesManager.Manager.FindOutUsedButNotExported` | pyplusplus/module_creator/dependencies_manager.py:52-66 | The nested loops return exactly the violations of the exported list against the identities taken before the scan, in exported-list order, then dependency order. |
| `DependenciesManager.DecodeCreateMsg` | pyplusplus/module_creator/dependencies_manager.py:68-71 | A warning has the form `<declaration>;The declaration depends on unexposed declaration "<target>".`, and, when the declaration's text contains no `;`, both names can be read back from it. |
| `DependenciesManager.Logger.Warn` | pyplusplus/module_creator/dependencies_manager.py:76 | A warning is appended to the logger's record. |
| `DependenciesManager.Manager.InformUser` | pyplusplus/module_creator/dependencies_manager.py:73-76 | The logger receives exactly one warning per violation, in violation order, and nothing else. |
| `UnnamedEnum.UnnamedEnumCreator.constructor` | pyplusplus/code_creators/unnamed_enum.py:12-15 | The creator wraps the given unnamed enum declaration. |
| `UnnamedEnum.UnnamedEnumCreator.SetValueAliases` | pyplusplus/code_creators/unnamed_enum.py:17-21 | Setting `value_aliases` writes through to the declaration, and reading the property back returns the same mapping. |
| `UnnamedEnum.UnnamedEnumCreator.CreateImpl` | pyplusplus/code_creators/unnamed_enum.py:23-30 | The loop returns the enumerator lines joined by the line separator. |
| `UnnamedEnum.EnumeratorLinesAt` | pyplusplus/code_creators/unnamed_enum.py:27-29 | There is one line per enumerator. Line `i` exports the enumerator's alias if it has one, else its name, and assigns the identifier of `full_name + '::' + name`, using the original name. |
| `UnnamedEnum.ParseEnumeratorLine` | pyplusplus/code_creators/unnamed_enum.py:24 | Every line has the shape `<scope>().attr("<exported>") = (int)<qualified>;`, and, when the exported name contains no `"`, the exported name and the identifier can be read back from it. |
| `UnnamedEnum.RenderedBinding` | pyplusplus/code_creators/unnamed_enum.py:24-29 | Reading line `i` back gives the enumerator's exported name and the identifier of its original qualified name, with or without an alias, provided the exported name contains no `"`. |
| `UnnamedEnum.SplitJoin` | pyplusplus/code_creators/unnamed_enum.py:30 | Joining lines with a one-character separator that no line contains can be undone by splitting at that separator. |
| `UnnamedEnum.RenderSplitsIntoLines` | pyplusplus/code_creators/unnamed_enum.py:26-30 | Splitting the rendered text of a non-empty enum at newlines gives back exactly the enumerator lines. |
| `UnnamedEnum.RenderEmpty` | pyplusplus/code_creators/unnamed_enum.py:26-30 | An enum without enumerators renders as the empty string. |
| `UnnamedEnum.RenderOkCancel` | unittests/unnamed_enums_tester.py:21-23 | The unnamed enum `{OK=1, CANCEL=0}` renders as two lines, binding `OK` and then `CANCEL`, and binds nothing for the enum type. |
| `ModuleBuilder.DirNameOf` | pyplusplus/module_builder/builder.py:70 | The directory part of a path is a prefix of it, and it is empty iff the path contains no `/`. |
| `ModuleBuilder.ParsedDirs` | pyplusplus/module_builder/builder.py:70-71 | `parsed_dirs` never contains `''` and has at most one entry per parsed file. |
| `ModuleBuilder.ParsedDirsIff` | pyplusplus/module_builder/builder.py:70-71 | A directory is in `parsed_dirs` iff it is the non-empty directory part of some parsed file. |
| `ModuleBuilder.Builder.constructor` | pyplusplus/module_builder/builder.py:68-77 | The parsed files are the normalised file names, in order. `parsed_dirs` is derived from them. The builder starts without a code creator. |
| `ModuleBuilder.Builder.ParsedLocationBySuffix` | pyplusplus/module_builder/builder.py:116-125 | A location counts as parsed iff it is under a parsed directory or ends with a parsed file. The equality test against the parsed files adds nothing. |
| `ModuleBuilder.Builder.FilterByLocation` | pyplusplus/module_builder/builder.py:112-127 | Each declaration ends up excluded iff it was already excluded, or it has a location that is not under a parsed directory, not a parsed file and not suffixed by one. A declaration with no location keeps its own flag, and no declaration is re-included. Only the visited declaration's own flag is modelled (see Left out). |
| `ModuleBuilder.Builder.BuildCodeCreator` | pyplusplus/module_builder/builder.py:171-184 | The builder keeps the created module and returns it; afterwards `has_code_creator()` is true. |
| `ModuleBuilder.Builder.GetCodeCreator` | pyplusplus/module_builder/builder.py:186-190 | Before a code creator exists, reading `code_creator` fails with the `RuntimeError` message. Afterwards it returns the stored creator. |
| `ModuleBuilder.CodeCreatorStages` | pyplusplus/module_builder/builder.py:178-197 | Right after construction, reading the code creator fails. After `build_code_creator`, it returns the object that call returned. |

## Left out

- Parsing: the C++ front end and the call-policy defaults that `__init__` runs (`__parse_declarations`, `__apply_decls_defaults`). These are foreign calls into pygccxml; `global_ns` is not modelled.
- Query forwarding methods (`decl`, `decls`, `class_`, … `free_operators`): thin wrappers over pygccxml's `scopedef_t`, whose code is not part of this model.
- `run_query_optimizer`, `print_declarations`, `write_module` and `split_module`: a foreign optimizer call and file or stdout I/O.
- `normalize_path`, `contains_parent_dir`, `create_identifier`, `full_name`, `i_depend_on_them`, `find_out_depend_on_declaration` and `str()` of a declaration: their code is not part of this model. They appear as given data or function-valued parameters.
- `get_os_file_names`: the builder takes the file names it would return.
- Platform: `os.path.split` is modelled with POSIX semantics and `os.linesep` as `"\n"`. Windows separators are not modelled.
- `if not decl.parent`, `if not decl.location` and `if not self.__code_creator` are modelled as "is `None`". The model assumes these objects are always truthy.
- The enumerator values dictionary is modelled as a sequence of (name, value) pairs in the order the dictionary yields them. That order is given, not computed.
- The logger's other levels and its formatting are not modelled, only the sequence of `warn` messages.
- `UnnamedEnum.RenderSplitsIntoLines`: the one-line-per-enumerator round trip is stated only when no rendered line contains a newline, because with a newline inside an alias or identifier the text cannot be split back unambiguously.
- `ModuleBuilder.Builder.FilterByLocation`: on a class or namespace, Py++'s `exclude()` also excludes the declarations nested in it. That code is in `decl_wrappers`, which is not part of this model. The model's `Declaration.Exclude` sets only the visited declaration's own `ignore` flag, so the "iff" in the contract is stated for that flag alone. A nested declaration with no location whose enclosing class is excluded would be excluded by Py++ but keeps its flag in the model.
