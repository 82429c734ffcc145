/**
 * A Go source file as the scaffolder handles it: its comments, an ordered
 * import list, and the declarations, which are carried along untouched.
 */
module GoSource {
  /** One import: an optional local name ("" for none, "_" for a blank import) and the package path. */
  datatype ImportSpec = ImportSpec(name: string, path: string)

  /** The declarations of a file (everything but its comments and imports), opaque. */
  datatype Decls =
    | DefaultMainDecls     // the body of the default main.go: a main that calls cli.Run
    | ModuleDecls(group: string, subcommand: string)  // package clause and body of the command-module template
    | UserDecls(id: nat)   // whatever a project's own entry point holds

  datatype Document = Document(comments: seq<string>, imports: seq<ImportSpec>, decls: Decls)

  /** The header line both templates open with. */
  const GeneratedHeader: string := "// Code generated by go generate;"

  /** Import path of package cli itself. */
  const CliPackage: string := "github.com/3d0c/cli/pkg"

  /** The default main.go: the generated-code header, imports of "os" and package cli, and a main that runs the dispatcher. */
  function DefaultMain(): Document
  {
    Document([GeneratedHeader], [ImportSpec("", "os"), ImportSpec("", CliPackage)], DefaultMainDecls)
  }

  /** The syntax tree of the rendered command-module template: no comments, imports of "flag" and package cli. */
  function ModuleSyntax(group: string, subcommand: string): Document
  {
    Document([], [ImportSpec("", "flag"), ImportSpec("", CliPackage)], ModuleDecls(group, subcommand))
  }

  /** Go's keywords, which cannot name a package or a type. */
  const Keywords: set<string> := {
    "break", "case", "chan", "const", "continue", "default", "defer", "else",
    "fallthrough", "for", "func", "go", "goto", "if", "import", "interface",
    "map", "package", "range", "return", "select", "struct", "switch", "type", "var"}

  predicate IsLetter(c: char)
  {
    'a' <= c <= 'z' || 'A' <= c <= 'Z' || c == '_'
  }

  predicate IsDigit(c: char)
  {
    '0' <= c <= '9'
  }

  /** A Go identifier over ASCII: a letter or '_', then letters and digits, and not a keyword. */
  predicate IsIdentifier(s: string)
  {
    && s != "" && IsLetter(s[0])
    && (forall i :: 1 <= i < |s| ==> IsLetter(s[i]) || IsDigit(s[i]))
    && s !in Keywords
  }

  /** How often an import occurs in a list. */
  function Occurrences(imports: seq<ImportSpec>, spec: ImportSpec): nat
  {
    multiset(imports)[spec]
  }

  /** after is before with spec put in at some position, the order of the rest kept. */
  ghost predicate InsertedSomewhere(before: seq<ImportSpec>, spec: ImportSpec, after: seq<ImportSpec>)
  {
    exists k :: 0 <= k <= |before| && after == before[..k] + [spec] + before[k..]
  }

  /**
   * astutil.AddNamedImport: adds `import name "path"` unless the file already
   * has an import with that name and path; reports whether it added one. The
   * rest of the document is kept, and so is the order of the other imports.
   */
  function AddNamedImport(d: Document, name: string, path: string): (r: (bool, Document))
    ensures r.0 <==> ImportSpec(name, path) !in d.imports
    ensures r.1.decls == d.decls && r.1.comments == d.comments
    ensures !r.0 ==> r.1 == d
    ensures r.0 ==> InsertedSomewhere(d.imports, ImportSpec(name, path), r.1.imports)
  {
    var spec := ImportSpec(name, path);
    if spec in d.imports then
      (false, d)
    else
      assert d.imports == d.imports[..|d.imports|] + d.imports[|d.imports|..];
      (true, d.(imports := d.imports + [spec]))
  }

  /** After the add the import is there exactly once, if it was there at most once before. */
  lemma {:induction false} AddNamedImportLeavesOne(d: Document, name: string, path: string)
    requires Occurrences(d.imports, ImportSpec(name, path)) <= 1
    ensures Occurrences(AddNamedImport(d, name, path).1.imports, ImportSpec(name, path)) == 1
    ensures forall s :: s != ImportSpec(name, path) ==>
      Occurrences(AddNamedImport(d, name, path).1.imports, s) == Occurrences(d.imports, s)
  {
    var spec := ImportSpec(name, path);
    var r := AddNamedImport(d, name, path);
    if r.0 {
      var k :| 0 <= k <= |d.imports| && r.1.imports == d.imports[..k] + [spec] + d.imports[k..];
      assert d.imports == d.imports[..k] + d.imports[k..];
      assert multiset(r.1.imports) == multiset(d.imports) + multiset{spec};
    } else {
      assert spec in multiset(d.imports);
    }
  }

  /** Adding the same import twice changes the document once: the second add reports false and changes nothing. */
  lemma AddNamedImportIdempotent(d: Document, name: string, path: string)
    ensures var once := AddNamedImport(d, name, path).1;
      AddNamedImport(once, name, path) == (false, once)
  {
    var once := AddNamedImport(d, name, path);
    if once.0 {
      var k :| 0 <= k <= |d.imports| && once.1.imports == d.imports[..k] + [ImportSpec(name, path)] + d.imports[k..];
      assert once.1.imports[k] == ImportSpec(name, path);
    }
  }
}
