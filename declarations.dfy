/** The declaration objects the core works on: the pygccxml declaration tree
    as wrapped by Py++'s `decl_wrappers`. Object identity stands for Python's
    `id()`; what the core only reads from a declaration is given as data. */
module Declarations {

  datatype Option<T> = None | Some(value: T)

  /** The kinds the core tells apart: `namespace_t`, the class types
      (`class_t` and `class_declaration_t`, with the wrapper's `opaque` flag)
      and every other declaration. */
  datatype Kind = Namespace | Class(isOpaque: bool) | Other

  /** A declaration. `parent` is the enclosing scope (null for the global
      namespace `::`), `text` is what `str(decl)` prints, `location` is the
      file name of `decl.location` when there is one, and `dependsOnThem` is
      what `decl.i_depend_on_them()` returns. Only the `ignore` flag, set by
      `exclude()`, changes. */
  class Declaration {
    const name: string
    const kind: Kind
    const parent: Declaration?
    const text: string
    const location: Option<string>
    const dependsOnThem: seq<Dependency>
    var ignore: bool

    constructor (name: string, kind: Kind, parent: Declaration?, text: string,
                 location: Option<string>, dependsOnThem: seq<Dependency>)
      ensures this.name == name && this.kind == kind && this.parent == parent
      ensures this.text == text && this.location == location
      ensures this.dependsOnThem == dependsOnThem
      ensures !ignore
    {
      this.name := name;
      this.kind := kind;
      this.parent := parent;
      this.text := text;
      this.location := location;
      this.dependsOnThem := dependsOnThem;
      ignore := false;
    }

    /** `decl.exclude()`: the declaration will not be exported. */
    method Exclude()
      modifies this
      ensures ignore
    {
      ignore := true;
    }
  }

  /** A `dependency_info_t`: `declaration` is the declaration that has the
      dependency and `target` is what `find_out_depend_on_declaration()`
      returns (null for `None`, e.g. a fundamental type). */
  datatype Dependency = Dependency(declaration: Declaration, target: Declaration?)
}
