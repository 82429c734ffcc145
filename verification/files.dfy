/**
 * The filesystem the scaffolder works on, as a value: what each path holds,
 * which directories exist, and which operations the operating system refuses
 * on which paths. The calls of package os the scaffolder makes are functions
 * from one such value to the next.
 */
module Files {
  import opened Outcomes
  import opened GoSource

  /** The distinctions the code makes between OS errors: os.IsExist, os.IsNotExist, or neither. */
  datatype ErrKind = Exist | NotExist | OtherKind

  /** An OS error: its kind and the text err.Error() gives. */
  datatype OsError = OsError(kind: ErrKind, text: string)

  datatype Op = StatOp | MkdirOp | OpenOp | WriteOp | ReadOp

  /** What a file holds. */
  datatype Content =
    | Empty                                      // just created or truncated
    | Source(doc: Document)                      // a Go file as go/printer writes it
    | Module(group: string, subcommand: string)  // the rendered command-module template

  datatype Fs = Fs(
    files: map<string, Content>,
    dirs: set<string>,
    faults: map<(Op, string), OsError>)  // the error the OS gives for an operation on a path

  datatype StatResult = Found | Missing | StatFailed(err: OsError)

  /**
   * os.Stat: found when p is a file or a directory, missing when it is
   * neither, and "not a directory" (ENOTDIR, which os.IsNotExist does not
   * accept) when a directory above p is a regular file.
   */
  function Stat(fs: Fs, p: string): (r: StatResult)
    ensures (StatOp, p) in fs.faults ==> r == StatFailed(fs.faults[(StatOp, p)])
    ensures (StatOp, p) !in fs.faults && !NoFileAbove(fs, p) ==>
      r == StatFailed(OsError(OtherKind, "stat " + p + ": not a directory"))
    ensures r == Found <==>
      (StatOp, p) !in fs.faults && NoFileAbove(fs, p) && (p in fs.files || p in fs.dirs)
    ensures r == Missing <==>
      (StatOp, p) !in fs.faults && NoFileAbove(fs, p) && p !in fs.files && p !in fs.dirs
  {
    if (StatOp, p) in fs.faults then StatFailed(fs.faults[(StatOp, p)])
    else if FileOnPath(fs, Dir(p)).Some? then StatFailed(OsError(OtherKind, "stat " + p + ": not a directory"))
    else if p in fs.files || p in fs.dirs then Found
    else Missing
  }

  /** os.IsNotExist on the error os.Stat returned. */
  predicate IsNotExist(r: StatResult)
  {
    r.Missing? || (r.StatFailed? && r.err.kind == NotExist)
  }

  /** A filesystem after an operation, and the error the operation returned. */
  datatype Outcome = Outcome(fs: Fs, err: Option<OsError>)

  function Fail(fs: Fs, op: Op, p: string): Outcome
    requires (op, p) in fs.faults
  {
    Outcome(fs, Some(fs.faults[(op, p)]))
  }

  /**
   * The directory a path is in: everything before its last '/', or "" (the
   * root or the working directory, which always exist) when there is none.
   * This is filepath.Dir without its path cleaning.
   */
  function Dir(p: string): (d: string)
    ensures p != "" ==> |d| < |p|
  {
    if p == "" then ""
    else if p[|p| - 1] == '/' then p[..|p| - 1]
    else Dir(p[..|p| - 1])
  }

  /** The directory of a + "/" + b, for a last element b without '/', is a. */
  lemma {:induction false} DirOfChild(a: string, b: string)
    requires '/' !in b
    ensures Dir(a + "/" + b) == a
    decreases |b|
  {
    var p := a + "/" + b;
    if b == [] {
      assert p[..|p| - 1] == a;
    } else {
      assert p[|p| - 1] == b[|b| - 1];
      assert p[..|p| - 1] == a + "/" + b[..|b| - 1];
      DirOfChild(a, b[..|b| - 1]);
    }
  }

  /** p and every directory above it: what os.MkdirAll makes sure exists. */
  function Lineage(p: string): (l: set<string>)
    ensures p != "" ==> p in l
    decreases |p|
  {
    if p == "" then {} else {p} + Lineage(Dir(p))
  }

  /** p and the directories above it are no longer than p. */
  lemma {:induction false} LineageBelow(p: string, q: string)
    requires q in Lineage(p)
    ensures |q| <= |p|
    decreases |p|
  {
    if q != p {
      LineageBelow(Dir(p), q);
    }
  }

  /**
   * The highest regular file among p and the directories above it: where the
   * OS stops a path with "not a directory".
   */
  function FileOnPath(fs: Fs, p: string): (f: Option<string>)
    ensures f.None? <==> Lineage(p) !! fs.files.Keys
    ensures f.Some? ==> f.value in Lineage(p) && f.value in fs.files
    decreases |p|
  {
    if p == "" then None
    else
      var above := FileOnPath(fs, Dir(p));
      if above.Some? then above
      else if p in fs.files then Some(p)
      else None
  }

  /**
   * os.MkdirAll: creates p and every missing directory above it; an empty path
   * does not exist, and a regular file at p or above it gives "not a
   * directory" for the highest such file.
   */
  function MkdirAll(fs: Fs, p: string): (o: Outcome)
    ensures o.err.Some? ==> o.fs == fs
    ensures o.err.None? <==> (MkdirOp, p) !in fs.faults && p != "" && Lineage(p) !! fs.files.Keys
    ensures (MkdirOp, p) in fs.faults ==> o.err == Some(fs.faults[(MkdirOp, p)])
    ensures (MkdirOp, p) !in fs.faults && p != "" && !(Lineage(p) !! fs.files.Keys) ==>
      o.err == Some(OsError(OtherKind, "mkdir " + FileOnPath(fs, p).value + ": not a directory"))
    ensures o.err.None? ==>
      && o.fs.files == fs.files && o.fs.faults == fs.faults
      && o.fs.dirs == fs.dirs + Lineage(p) && p in o.fs.dirs
  {
    if (MkdirOp, p) in fs.faults then Fail(fs, MkdirOp, p)
    else if p == "" then Outcome(fs, Some(OsError(NotExist, "mkdir : no such file or directory")))
    else if FileOnPath(fs, p).Some? then
      Outcome(fs, Some(OsError(OtherKind, "mkdir " + FileOnPath(fs, p).value + ": not a directory")))
    else Outcome(fs.(dirs := fs.dirs + Lineage(p)), None)
  }

  /** Whether the directory p is to be created in exists. */
  predicate ParentExists(fs: Fs, p: string)
  {
    Dir(p) == "" || Dir(p) in fs.dirs
  }

  /** No directory above p is a regular file, so the OS can walk down to p. */
  predicate NoFileAbove(fs: Fs, p: string)
  {
    Lineage(Dir(p)) !! fs.files.Keys
  }

  /** What opening p for writing needs: no regular file above it, its directory present, and p not a directory. */
  predicate Creatable(fs: Fs, p: string)
  {
    NoFileAbove(fs, p) && ParentExists(fs, p) && p !in fs.dirs
  }

  /**
   * os.OpenFile(p, O_CREATE|O_TRUNC|O_WRONLY, 0644): creates p or cuts it to
   * nothing. It does not create directories, so it fails with "no such file or
   * directory" when p's directory is missing; with "not a directory" when a
   * directory above p is a regular file; with "is a directory" when p is one.
   */
  function OpenTrunc(fs: Fs, p: string): (o: Outcome)
    ensures o.err.Some? ==> o.fs == fs
    ensures o.err.None? <==> (OpenOp, p) !in fs.faults && Creatable(fs, p)
    ensures (OpenOp, p) in fs.faults ==> o.err == Some(fs.faults[(OpenOp, p)])
    ensures (OpenOp, p) !in fs.faults && !NoFileAbove(fs, p) ==>
      o.err == Some(OsError(OtherKind, "open " + p + ": not a directory"))
    ensures (OpenOp, p) !in fs.faults && NoFileAbove(fs, p) && !ParentExists(fs, p) ==>
      o.err == Some(OsError(NotExist, "open " + p + ": no such file or directory"))
    ensures (OpenOp, p) !in fs.faults && NoFileAbove(fs, p) && ParentExists(fs, p) && p in fs.dirs ==>
      o.err == Some(OsError(OtherKind, "open " + p + ": is a directory"))
    ensures o.err.None? ==> o.fs.files == fs.files[p := Empty] && o.fs.dirs == fs.dirs && o.fs.faults == fs.faults
  {
    if (OpenOp, p) in fs.faults then Fail(fs, OpenOp, p)
    else if FileOnPath(fs, Dir(p)).Some? then Outcome(fs, Some(OsError(OtherKind, "open " + p + ": not a directory")))
    else if !ParentExists(fs, p) then Outcome(fs, Some(OsError(NotExist, "open " + p + ": no such file or directory")))
    else if p in fs.dirs then Outcome(fs, Some(OsError(OtherKind, "open " + p + ": is a directory")))
    else Outcome(fs.(files := fs.files[p := Empty]), None)
  }

  /** Writing c through a handle opened on p. A failed write leaves what was there. */
  function Write(fs: Fs, p: string, c: Content): (o: Outcome)
    ensures o.err.Some? ==> o.fs == fs
    ensures o.err.None? <==> (WriteOp, p) !in fs.faults
    ensures (WriteOp, p) in fs.faults ==> o.err == Some(fs.faults[(WriteOp, p)])
    ensures o.err.None? ==> o.fs.files == fs.files[p := c] && o.fs.dirs == fs.dirs && o.fs.faults == fs.faults
  {
    if (WriteOp, p) in fs.faults then Fail(fs, WriteOp, p)
    else Outcome(fs.(files := fs.files[p := c]), None)
  }

  /**
   * Whether go/parser accepts what a file holds. The rendered module template
   * is Go source exactly when its group (the package name) and its
   * subcommand (the type name) are identifiers.
   */
  predicate ParsesAsGo(c: Content)
  {
    c.Source? || (c.Module? && IsIdentifier(c.group) && IsIdentifier(c.subcommand))
  }

  /** The tree go/parser builds from an accepted file; mode 0 keeps no comments. */
  function SyntaxTree(c: Content): (d: Document)
    requires ParsesAsGo(c)
    ensures d.comments == []
    ensures c.Source? ==> d.imports == c.doc.imports && d.decls == c.doc.decls
  {
    if c.Source? then c.doc.(comments := []) else ModuleSyntax(c.group, c.subcommand)
  }

  /**
   * parser.ParseFile with mode 0: the syntax tree of a Go source file, or the
   * parser's error text. Without parser.ParseComments the tree has no comments.
   */
  function ParseFile(fs: Fs, p: string): (r: Result<Document, string>)
    ensures r.Ok? <==>
      && (ReadOp, p) !in fs.faults && NoFileAbove(fs, p) && p !in fs.dirs
      && p in fs.files && ParsesAsGo(fs.files[p])
    ensures (ReadOp, p) !in fs.faults && NoFileAbove(fs, p) && p in fs.dirs ==>
      r == Err("read " + p + ": is a directory")
    ensures r.Ok? ==> r.value == SyntaxTree(fs.files[p])
    ensures (ReadOp, p) !in fs.faults && NoFileAbove(fs, p) && p !in fs.dirs && p in fs.files && fs.files[p] == Empty ==>
      r == Err(p + ":1:1: expected 'package', found 'EOF'")
    ensures (ReadOp, p) !in fs.faults && NoFileAbove(fs, p) && p !in fs.dirs && p in fs.files &&
            fs.files[p].Module? && fs.files[p].group == "" ==>
      r == Err(p + ":4:1: expected 'IDENT', found 'import'")
  {
    if (ReadOp, p) in fs.faults then Err(fs.faults[(ReadOp, p)].text)
    else if FileOnPath(fs, Dir(p)).Some? then Err("open " + p + ": not a directory")
    else if p in fs.dirs then Err("read " + p + ": is a directory")
    else if p !in fs.files then Err("open " + p + ": no such file or directory")
    else if ParsesAsGo(fs.files[p]) then Ok(SyntaxTree(fs.files[p]))
    else match fs.files[p]
      case Empty => Err(p + ":1:1: expected 'package', found 'EOF'")
      case Module(group, _) =>
        // An empty package name leaves the clause "package " followed by a
        // blank line, and the parser meets `import` on line 4.
        if group == "" then Err(p + ":4:1: expected 'IDENT', found 'import'")
        else Err(p + ": rendered module is not Go source")
  }

  /** The operations never fail on this filesystem. */
  predicate Faultless(fs: Fs)
  {
    fs.faults == map[]
  }
}
