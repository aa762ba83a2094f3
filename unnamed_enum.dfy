/** Py++'s code creator for an unnamed C++ enum (`unnamed_enum_t`). An
    anonymous enum type cannot be bound by name, so the creator assigns each
    enumerator, as an `int`, to an attribute of the enclosing Boost.Python
    scope, under the enumerator's alias when it has one. */
module UnnamedEnum {
  import opened Strings
  import opened Declarations

  /** `os.linesep` on a POSIX host. */
  const LineSep: string := "\n"

  /** The name `create_identifier` is asked to spell for the current scope. */
  const ScopeName: string := "::boost::python::scope"

  /** The attribute name of an enumerator: its alias when it has one, else
      its own name. */
  function ExportedName(aliases: map<string, string>, name: string): string {
    if name in aliases then aliases[name] else name
  }

  /** The fixed parts of the template `<scope>().attr("%s") = (int)%s;`. */
  const AttrOpen: string := "().attr(\""
  const AttrClose: string := "\") = (int)"

  /** One line of the template. */
  function EnumeratorLine(scope: string, exported: string, qualified: string): string {
    (scope + AttrOpen) + (exported + (AttrClose + (qualified + ";")))
  }

  /** The lines of `_create_impl`, one per enumerator in `values` order. */
  function EnumeratorLines(scope: string, createIdentifier: string -> string, fullName: string,
                           values: seq<(string, int)>, aliases: map<string, string>): (lines: seq<string>)
    ensures |lines| == |values|
    decreases |values|
  {
    if values == [] then []
    else
      var name := values[|values| - 1].0;
      EnumeratorLines(scope, createIdentifier, fullName, values[..|values| - 1], aliases)
        + [EnumeratorLine(scope, ExportedName(aliases, name), createIdentifier(fullName + "::" + name))]
  }

  /** The lines with `sep` between each two of them. */
  function Join(lines: seq<string>, sep: string): string
    decreases |lines|
  {
    if |lines| == 0 then ""
    else if |lines| == 1 then lines[0]
    else lines[0] + sep + Join(lines[1..], sep)
  }

  /** The text `_create_impl` returns. */
  function Render(scope: string, createIdentifier: string -> string, fullName: string,
                  values: seq<(string, int)>, aliases: map<string, string>): string
  {
    Join(EnumeratorLines(scope, createIdentifier, fullName, values, aliases), LineSep)
  }

  /** The pieces of `s` between occurrences of `c`. */
  function Split(s: string, c: char): (pieces: seq<string>)
    ensures |pieces| >= 1
    decreases |s|
  {
    if |s| == 0 then [""]
    else
      var rest := Split(s[1..], c);
      if s[0] == c then [""] + rest else [[s[0]] + rest[0]] + rest[1..]
  }

  /** Reads `mid + second + ";"` back into `second`. */
  function Unterminate(after: string, mid: string): Option<string> {
    if StartsWith(after, mid) && |mid| < |after| && after[|after| - 1] == ';'
    then Some(after[|mid|..|after| - 1])
    else None
  }

  /** Reads `head + first + mid + second + ";"` back into `(first, second)`,
      taking `first` to end at the first occurrence of `mid[0]`. */
  function Unwrap(line: string, head: string, mid: string): Option<(string, string)>
    requires |mid| > 0
  {
    if !StartsWith(line, head) then None
    else
      var rest := line[|head|..];
      var k := FirstIndexOf(rest, mid[0]);
      match Unterminate(rest[k..], mid)
      case None => None
      case Some(second) => Some((rest[..k], second))
  }

  /** Reads a rendered line back into its exported name and the identifier
      it assigns, or `None` when the line does not have the template's shape. */
  function ParseLine(scope: string, line: string): Option<(string, string)> {
    Unwrap(line, scope + AttrOpen, AttrClose)
  }

  /** Line `i` binds the exported name of enumerator `i` (its alias, or its
      own name) to the identifier of its ORIGINAL qualified name. */
  lemma {:induction false} EnumeratorLinesAt(scope: string, createIdentifier: string -> string, fullName: string,
                                             values: seq<(string, int)>, aliases: map<string, string>, i: nat)
    requires i < |values|
    ensures |EnumeratorLines(scope, createIdentifier, fullName, values, aliases)| == |values|
    ensures EnumeratorLines(scope, createIdentifier, fullName, values, aliases)[i]
         == EnumeratorLine(scope, ExportedName(aliases, values[i].0), createIdentifier(fullName + "::" + values[i].0))
    decreases |values|
  {
    var init := values[..|values| - 1];
    if i < |init| {
      EnumeratorLinesAt(scope, createIdentifier, fullName, init, aliases, i);
    } else if init != [] {
      EnumeratorLinesAt(scope, createIdentifier, fullName, init, aliases, 0);
    }
  }

  lemma UnterminateRoundTrip(mid: string, second: string)
    ensures Unterminate(mid + (second + ";"), mid) == Some(second)
  {
    var after := mid + (second + ";");
    SliceAtJoin(mid, second + ";");
    assert |after| - 1 == |mid| + |second|;
    assert after[|after| - 1] == (second + ";")[|second|] == ';';
    var middle := after[|mid|..|after| - 1];
    assert |middle| == |second|;
    forall i | 0 <= i < |second|
      ensures middle[i] == second[i]
    {
      assert middle[i] == after[|mid| + i] == (second + ";")[i];
    }
    assert middle == second;
  }

  lemma UnwrapRoundTrip(head: string, first: string, mid: string, second: string)
    requires |mid| > 0 && mid[0] !in first
    ensures Unwrap(head + (first + (mid + (second + ";"))), head, mid) == Some((first, second))
  {
    var line := head + (first + (mid + (second + ";")));
    var after := mid + (second + ";");
    var rest := first + after;
    assert StartsWith(line, head) && line[|head|..] == rest by {
      SliceAtJoin(head, rest);
    }
    assert FirstIndexOf(rest, mid[0]) == |first| by {
      var tail := mid[1..] + (second + ";");
      assert mid == [mid[0]] + mid[1..];
      assert rest == first + [mid[0]] + tail;
      FirstIndexOfAfter(first, mid[0], tail);
    }
    assert rest[..|first|] == first && rest[|first|..] == after by {
      SliceAtJoin(first, after);
    }
    UnterminateRoundTrip(mid, second);
  }

  /** Parsing inverts the template, provided the exported name holds no `"`. */
  lemma ParseEnumeratorLine(scope: string, exported: string, qualified: string)
    requires '"' !in exported
    ensures ParseLine(scope, EnumeratorLine(scope, exported, qualified)) == Some((exported, qualified))
  {
    assert AttrClose[0] == '"';
    UnwrapRoundTrip(scope + AttrOpen, exported, AttrClose, qualified);
  }

  /** What each rendered line says, read back from the line itself. */
  lemma RenderedBinding(scope: string, createIdentifier: string -> string, fullName: string,
                        values: seq<(string, int)>, aliases: map<string, string>, i: nat)
    requires i < |values|
    requires '"' !in ExportedName(aliases, values[i].0)
    ensures ParseLine(scope, EnumeratorLines(scope, createIdentifier, fullName, values, aliases)[i])
         == Some((ExportedName(aliases, values[i].0), createIdentifier(fullName + "::" + values[i].0)))
  {
    EnumeratorLinesAt(scope, createIdentifier, fullName, values, aliases, i);
    ParseEnumeratorLine(scope, ExportedName(aliases, values[i].0), createIdentifier(fullName + "::" + values[i].0));
  }

  lemma {:induction false} SplitNoSeparator(s: string, c: char)
    requires c !in s
    ensures Split(s, c) == [s]
    decreases |s|
  {
    if |s| > 0 {
      SplitNoSeparator(s[1..], c);
      assert [s[0]] + s[1..] == s;
    }
  }

  lemma {:induction false} SplitPrefix(a: string, t: string, c: char)
    requires c !in a
    ensures Split(a + t, c) == [a + Split(t, c)[0]] + Split(t, c)[1..]
    decreases |a|
  {
    var r := Split(t, c);
    if |a| == 0 {
      assert a + t == t;
      assert a + r[0] == r[0];
      assert [r[0]] + r[1..] == r;
    } else {
      SplitPrefix(a[1..], t, c);
      var rest := Split((a + t)[1..], c);
      assert (a + t)[0] == a[0] && a[0] != c;
      assert (a + t)[1..] == a[1..] + t;
      assert rest == [a[1..] + r[0]] + r[1..];
      assert rest[0] == a[1..] + r[0] && rest[1..] == r[1..];
      assert [a[0]] + (a[1..] + r[0]) == a + r[0];
    }
  }

  /** Splitting at a one-character separator found in no line recovers the
      lines that were joined. */
  lemma {:induction false} SplitJoin(lines: seq<string>, c: char)
    requires |lines| >= 1
    requires forall i :: 0 <= i < |lines| ==> c !in lines[i]
    ensures Split(Join(lines, [c]), c) == lines
    decreases |lines|
  {
    if |lines| == 1 {
      SplitNoSeparator(lines[0], c);
    } else {
      var rest := Join(lines[1..], [c]);
      SplitJoin(lines[1..], c);
      assert Join(lines, [c]) == lines[0] + ([c] + rest);
      SplitPrefix(lines[0], [c] + rest, c);
      assert ([c] + rest)[0] == c && ([c] + rest)[1..] == rest;
      assert Split([c] + rest, c) == [""] + lines[1..];
      assert lines[0] + "" == lines[0];
      assert [lines[0]] + lines[1..] == lines;
    }
  }

  /** The rendered text has exactly one line per enumerator: splitting it at
      the line separator gives back the enumerator lines. */
  lemma RenderSplitsIntoLines(scope: string, createIdentifier: string -> string, fullName: string,
                              values: seq<(string, int)>, aliases: map<string, string>)
    requires values != []
    requires forall l :: l in EnumeratorLines(scope, createIdentifier, fullName, values, aliases) ==> '\n' !in l
    ensures Split(Render(scope, createIdentifier, fullName, values, aliases), '\n')
         == EnumeratorLines(scope, createIdentifier, fullName, values, aliases)
  {
    var lines := EnumeratorLines(scope, createIdentifier, fullName, values, aliases);
    EnumeratorLinesAt(scope, createIdentifier, fullName, values, aliases, 0);
    SplitJoin(lines, '\n');
  }

  /** An enum without enumerators renders as the empty string. */
  lemma RenderEmpty(scope: string, createIdentifier: string -> string, fullName: string, aliases: map<string, string>)
    ensures Render(scope, createIdentifier, fullName, [], aliases) == ""
  {
  }

  /** The unnamed enum `{ OK = 1, CANCEL = 0 }` without aliases binds `OK`
      and `CANCEL` in the enclosing scope and nothing else. */
  lemma RenderOkCancel(scope: string, createIdentifier: string -> string, fullName: string)
    ensures Render(scope, createIdentifier, fullName, [("OK", 1), ("CANCEL", 0)], map[])
         == EnumeratorLine(scope, "OK", createIdentifier(fullName + "::OK")) + LineSep
          + EnumeratorLine(scope, "CANCEL", createIdentifier(fullName + "::CANCEL"))
  {
    var values := [("OK", 1), ("CANCEL", 0)];
    var noAliases: map<string, string> := map[];
    assert ExportedName(noAliases, "OK") == "OK" && ExportedName(noAliases, "CANCEL") == "CANCEL";
    var ok := EnumeratorLine(scope, "OK", createIdentifier(fullName + "::OK"));
    var cancel := EnumeratorLine(scope, "CANCEL", createIdentifier(fullName + "::CANCEL"));
    assert fullName + "::" + "OK" == fullName + "::OK";
    assert fullName + "::" + "CANCEL" == fullName + "::CANCEL";
    assert values[..1] == [("OK", 1)];
    assert values[..1][..0] == values[..0];
    assert EnumeratorLines(scope, createIdentifier, fullName, values[..1], noAliases) == [ok];
    assert EnumeratorLines(scope, createIdentifier, fullName, values, noAliases) == [ok, cancel];
    assert Join([ok, cancel], LineSep) == ok + LineSep + Join([cancel], LineSep);
  }

  /** The enum declaration as wrapped by `decl_wrappers`: its fully qualified
      name (`declarations.full_name`), its enumerators in the order the
      values dictionary yields them, and the user's per-value aliases. */
  class EnumDeclaration {
    const fullName: string
    const values: seq<(string, int)>
    var valueAliases: map<string, string>

    constructor (fullName: string, values: seq<(string, int)>, valueAliases: map<string, string>)
      ensures this.fullName == fullName && this.values == values && this.valueAliases == valueAliases
    {
      this.fullName := fullName;
      this.values := values;
      this.valueAliases := valueAliases;
    }
  }

  /** `unnamed_enum_t`. `createIdentifier` stands for
      `algorithm.create_identifier( self, name )`, which spells a C++ name as
      the generated code must refer to it from this creator. */
  class UnnamedEnumCreator {
    const declaration: EnumDeclaration
    const createIdentifier: string -> string

    constructor (unnamedEnum: EnumDeclaration, createIdentifier: string -> string)
      ensures declaration == unnamedEnum && this.createIdentifier == createIdentifier
    {
      declaration := unnamedEnum;
      this.createIdentifier := createIdentifier;
    }

    /** The `value_aliases` property reads the declaration's field. */
    function ValueAliases(): map<string, string>
      reads declaration
    {
      declaration.valueAliases
    }

    /** Setting `value_aliases` writes through to the declaration; reading
        the property back returns the mapping just set. */
    method SetValueAliases(valueAliases: map<string, string>)
      modifies declaration
      ensures declaration.valueAliases == valueAliases
      ensures ValueAliases() == valueAliases
    {
      declaration.valueAliases := valueAliases;
    }

    /** `_create_impl` */
    method CreateImpl() returns (code: string)
      ensures code == Render(createIdentifier(ScopeName), createIdentifier, declaration.fullName,
                             declaration.values, declaration.valueAliases)
    {
      var scope := createIdentifier(ScopeName);
      var fullName := declaration.fullName;
      var values := declaration.values;
      var result: seq<string> := [];
      for i := 0 to |values|
        invariant result == EnumeratorLines(scope, createIdentifier, fullName, values[..i], ValueAliases())
      {
        var name := values[i].0;
        result := result + [EnumeratorLine(scope, ExportedName(ValueAliases(), name),
                                           createIdentifier(fullName + "::" + name))];
        assert values[..i + 1][..i] == values[..i];
      }
      assert values[..|values|] == values;
      code := Join(result, LineSep);
    }
  }
}
