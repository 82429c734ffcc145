/** What the `command.add` command guarantees, proved about the specifications of Process and Run. */
module ScaffoldFacts {
  import opened Outcomes
  import opened Errors
  import opened Strings
  import opened GoSource
  import opened Files
  import opened Scaffold
  import Cli

  /** Path p holds the same thing (or nothing) in both maps. */
  predicate Unchanged(before: map<string, Content>, after: map<string, Content>, p: string)
  {
    (p in before <==> p in after) && (p in before ==> before[p] == after[p])
  }

  // ---------------------------------------------------------------- Process

  /**
   * The validation errors, each exactly when the code raises it and in its
   * order: -name missing, then -package missing, then a -name that does not
   * hold exactly one '/'. Each leaves the fields and the filesystem as they were.
   */
  lemma ValidationErrors(s: CommandState, env: Env, fs: Fs)
    ensures var r := ProcessSpec(s, env, fs);
      && (r.err == Some(Coded(ErrFlagRequired("name"))) <==> s.name == "")
      && (r.err == Some(Coded(ErrFlagRequired("package"))) <==> s.name != "" && s.pkgname == "")
      && (r.err == Some(Coded(ErrWrongFormat("name"))) <==>
            s.name != "" && s.pkgname != "" && Count(s.name, '/') != 1)
      && (r.err.Some? && r.err.value.Coded? ==> r.state == s && r.fs == fs)
  {
    ConstructorsDiffer("name", "name");
    ConstructorsDiffer("package", "name");
    var a, b := ErrFlagRequired("name"), ErrFlagRequired("package");
    assert a.msg[1] == 'n' && b.msg[1] == 'p';
    if Validate(s.name, s.pkgname).Ok? {
      AcceptedFailsPlainly(s, env, fs);
    }
  }

  /** Once the flags are accepted, every failure of Process is a plain error of the module check or of the OS. */
  lemma AcceptedFailsPlainly(s: CommandState, env: Env, fs: Fs)
    requires Validate(s.name, s.pkgname).Ok?
    ensures var r := ProcessSpec(s, env, fs);
      r.err.Some? ==> r.err.value.Generic?
  {
    var (group, subcommand) := Validate(s.name, s.pkgname).value;
    EntryPointFrame(fs, Derive(s, group, subcommand, ResolveGopath(env)).maingo);
  }

  /**
   * An accepted -name is split at its one '/': the field name becomes the
   * group, subcommand the rest, and the two rebuild the original value.
   */
  lemma AcceptedNameIsSplit(s: CommandState, env: Env, fs: Fs)
    requires Validate(s.name, s.pkgname).Ok?
    ensures var r := ProcessSpec(s, env, fs);
      && s.name == r.state.name + "/" + r.state.subcommand
      && '/' !in r.state.name && '/' !in r.state.subcommand
      && r.state.pkgname == s.pkgname && r.state.force == s.force
  {
    SplitInTwo(s.name, '/');
  }

  /** Empty pieces are accepted ("g/" passes); more than one '/' is not ("a//b" fails). */
  lemma NameExamples()
    ensures Validate("g/", "p") == Ok(("g", ""))
    ensures Validate("a//b", "p") == Err(Coded(ErrWrongFormat("name")))
  {
    SplitPair("g", "", '/');
    assert "g" + ['/'] + "" == "g/";
    assert Count("a//b", '/') == 2;
  }

  /**
   * Process rewrites -name, so a second Process on the same object always
   * fails before touching the filesystem: with a wrong format, or, when the
   * group was empty, with -name missing.
   */
  lemma SecondProcessFails(s: CommandState, env: Env, fs: Fs, env2: Env, fs2: Fs)
    requires Validate(s.name, s.pkgname).Ok?
    ensures var first := ProcessSpec(s, env, fs);
      var second := ProcessSpec(first.state, env2, fs2);
      && second.err == Some(Coded(if first.state.name == "" then ErrFlagRequired("name") else ErrWrongFormat("name")))
      && second.state == first.state && second.fs == fs2
  {
    var first := ProcessSpec(s, env, fs);
    AcceptedNameIsSplit(s, env, fs);
    if first.state.name != "" {
      SplitWithoutSeparator(first.state.name, '/');
    }
  }

  /**
   * Where the files go: the module directory is GOPATH/src/package/group, the
   * module file the subcommand's .go file in it, the entry point
   * GOPATH/src/package/main.go; GOPATH comes from the environment, else the
   * build default. Both computed paths are non-empty.
   */
  lemma PathLayout(s: CommandState, env: Env, fs: Fs)
    requires Validate(s.name, s.pkgname).Ok?
    ensures var r := ProcessSpec(s, env, fs).state;
      var root := Join([r.gopath, "src", s.pkgname]);
      && r.gopath == (if env.gopathVar != "" then env.gopathVar else env.buildDefault)
      && root != ""
      && r.fullpath == (if r.name == "" then root else root + "/" + r.name)
      && r.fullname == r.fullpath + "/" + r.subcommand + ".go"
      && r.maingo == root + "/main.go"
  {
    var (group, subcommand) := Validate(s.name, s.pkgname).value;
    DeriveLayout(s, group, subcommand, ResolveGopath(env));
  }

  /** The paths Derive computes, written out. */
  lemma DeriveLayout(s: CommandState, group: string, subcommand: string, gopath: string)
    ensures var r := Derive(s, group, subcommand, gopath);
      var root := Join([gopath, "src", s.pkgname]);
      && root != ""
      && r.fullpath == (if group == "" then root else root + "/" + group)
      && r.fullname == r.fullpath + "/" + subcommand + ".go"
      && r.maingo == root + "/main.go"
  {
    var r := Derive(s, group, subcommand, gopath);
    JoinUnderSrc(gopath, s.pkgname, group);
    JoinUnderSrc(gopath, s.pkgname, "main.go");
    JoinTwo(r.fullpath, subcommand + ".go");
  }

  /** Cancelling a common prefix. */
  lemma PrefixCancel(p: string, x: string, y: string)
    requires p + x == p + y
    ensures x == y
  {
    assert x == (p + x)[|p|..];
    assert y == (p + y)[|p|..];
  }

  /** The module file path and the entry point path coincide only for an empty group and subcommand "main". */
  lemma {:induction false} PathsCoincide(root: string, group: string, subcommand: string)
    requires root != ""
    ensures var fullpath := if group == "" then root else root + "/" + group;
      fullpath + "/" + subcommand + ".go" == root + "/main.go" <==> group == "" && subcommand == "main"
  {
    var file := subcommand + ".go";
    if group == "" {
      if root + "/" + file == root + "/main.go" {
        assert (root + "/") + file == (root + "/") + "main.go";
        PrefixCancel(root + "/", file, "main.go");
        assert subcommand == file[..|file| - 3];
      }
    } else {
      var tail := group + "/" + file;
      assert tail[|group|] == '/';
      if root + "/" + group + "/" + file == root + "/main.go" {
        assert root + "/" + group + "/" + file == (root + "/") + tail;
        assert (root + "/") + tail == (root + "/") + "main.go";
        PrefixCancel(root + "/", tail, "main.go");
        assert false;
      }
    }
  }

  /**
   * The module file and the entry point are one and the same file exactly
   * when the group is empty and the subcommand is "main" (-name "/main").
   */
  lemma ModuleFileIsEntryPointOnlyForMain(s: CommandState, env: Env, fs: Fs)
    requires Validate(s.name, s.pkgname).Ok?
    ensures var r := ProcessSpec(s, env, fs).state;
      r.fullname == r.maingo <==> r.name == "" && r.subcommand == "main"
  {
    PathLayout(s, env, fs);
    var r := ProcessSpec(s, env, fs).state;
    PathsCoincide(Join([r.gopath, "src", s.pkgname]), r.name, r.subcommand);
  }

  /** An existing module file without -force: the "already exists" error, and nothing written. */
  lemma ExistingModuleRefused(s: CommandState, env: Env, fs: Fs)
    requires Validate(s.name, s.pkgname).Ok?
    requires Stat(fs, ProcessSpec(s, env, fs).state.fullname) == Found
    requires !s.force
    ensures var r := ProcessSpec(s, env, fs);
      && r.err == Some(Generic("subcommand '" + r.state.subcommand + "' already exists at '" + r.state.fullpath + "'"))
      && r.fs == fs
  {
  }

  /** An existing module file with -force: Process carries on to the entry point as if it were absent. */
  lemma ExistingModuleForced(s: CommandState, env: Env, fs: Fs)
    requires Validate(s.name, s.pkgname).Ok?
    requires Stat(fs, ProcessSpec(s, env, fs).state.fullname) == Found
    requires s.force
    ensures var r := ProcessSpec(s, env, fs);
      var e := EnsureEntryPoint(fs, r.state.maingo);
      r.fs == e.fs && r.err == e.err
  {
  }

  /** A stat failure other than "does not exist" on the module file stops Process, with nothing written. */
  lemma StatFailureRefused(s: CommandState, env: Env, fs: Fs)
    requires Validate(s.name, s.pkgname).Ok?
    requires var st := Stat(fs, ProcessSpec(s, env, fs).state.fullname); st.StatFailed? && st.err.kind != NotExist
    ensures var r := ProcessSpec(s, env, fs);
      var e := Stat(fs, r.state.fullname).err;
      && r.err == Some(Generic("error checking " + r.state.name + "/" + r.state.subcommand + " - " + e.text))
      && r.fs == fs
  {
  }

  /**
   * Process writes at most one file, the entry point, and only when os.Stat
   * said it did not exist; then it holds the default main.go or what a failed
   * write left. Every failure up to that point leaves the filesystem as it was.
   */
  lemma ProcessWritesOnlyMissingEntryPoint(s: CommandState, env: Env, fs: Fs)
    ensures var r := ProcessSpec(s, env, fs);
      && r.fs.dirs == fs.dirs && r.fs.faults == fs.faults
      && (forall p :: p != r.state.maingo ==> Unchanged(fs.files, r.fs.files, p))
      && (r.fs != fs ==>
            && IsNotExist(Stat(fs, r.state.maingo))
            && r.state.maingo in r.fs.files
            && r.fs.files[r.state.maingo] in {Empty, Source(DefaultMain())})
      && (r.err.Some? && r.err.value.Coded? ==> r.fs == fs)
  {
    match Validate(s.name, s.pkgname)
    case Err(_) =>
    case Ok((group, subcommand)) =>
      var s' := Derive(s, group, subcommand, ResolveGopath(env));
      if ModuleCheck(s', fs).None? {
        EntryPointFrame(fs, s'.maingo);
      }
  }

  /**
   * Creating the default entry point writes that one file, only when os.Stat
   * said it did not exist, and fails only with an error of the OS.
   */
  lemma EntryPointFrame(fs: Fs, maingo: string)
    ensures var e := EnsureEntryPoint(fs, maingo);
      && e.fs.dirs == fs.dirs && e.fs.faults == fs.faults
      && (forall p :: p != maingo ==> Unchanged(fs.files, e.fs.files, p))
      && (e.fs != fs ==>
            && IsNotExist(Stat(fs, maingo))
            && maingo in e.fs.files
            && e.fs.files[maingo] in {Empty, Source(DefaultMain())})
      && (e.err.Some? ==> e.err.value.Generic?)
  {
    if IsNotExist(Stat(fs, maingo)) {
      var o := OpenTrunc(fs, maingo);
      if o.err.None? {
        var w := Write(o.fs, maingo, Source(DefaultMain()));
      }
    }
  }

  /** A missing entry point is created from the default template when the OS lets it be written. */
  lemma MissingEntryPointCreated(s: CommandState, env: Env, fs: Fs)
    requires Validate(s.name, s.pkgname).Ok?
    requires ModuleCheck(ProcessSpec(s, env, fs).state, fs).None?
    requires IsNotExist(Stat(fs, ProcessSpec(s, env, fs).state.maingo))
    requires var m := ProcessSpec(s, env, fs).state.maingo; (OpenOp, m) !in fs.faults && (WriteOp, m) !in fs.faults
    requires Creatable(fs, ProcessSpec(s, env, fs).state.maingo)
    ensures var r := ProcessSpec(s, env, fs);
      r.err == None && r.fs.files == fs.files[r.state.maingo := Source(DefaultMain())]
  {
  }

  // ---------------------------------------------------------------- Run

  /** Run on an object Process has not filled in: "uninitialized", and nothing written. */
  lemma RunNeedsProcess(s: CommandState, fs: Fs)
    requires s.fullpath == "" || s.fullname == ""
    ensures RunSpec(s, fs) == Effect(fs, Some(Generic("uninitialized")))
  {
  }

  /** Writing the module touches the module file and directory only. */
  lemma WriteModuleFrame(s: CommandState, fs: Fs)
    ensures var m := WriteModule(s, fs);
      && m.fs.faults == fs.faults
      && fs.dirs <= m.fs.dirs <= fs.dirs + Lineage(s.fullpath)
      && (m.fs.dirs != fs.dirs ==> Lineage(s.fullpath) !! fs.files.Keys)
      && (forall p :: p != s.fullname ==> Unchanged(fs.files, m.fs.files, p))
      && (m.err.None? ==> s.fullname in m.fs.files && m.fs.files[s.fullname] == Module(s.name, s.subcommand))
  {
    var d := MkdirAll(fs, s.fullpath);
    if d.err.None? || d.err.value.kind == Exist {
      var o := OpenTrunc(d.fs, s.fullname);
      if o.err.None? {
        var w := Write(o.fs, s.fullname, Module(s.name, s.subcommand));
      }
    }
  }

  /**
   * The module file is written before the entry point is touched: whenever
   * Run changes the entry point the module file holds the rendered template,
   * and a failure while writing the module leaves the entry point alone. No
   * other file changes.
   */
  lemma ModuleWrittenFirst(s: CommandState, fs: Fs)
    requires s.fullname != s.maingo
    ensures var r := RunSpec(s, fs);
      && (!Unchanged(fs.files, r.fs.files, s.maingo) ==>
            s.fullname in r.fs.files && r.fs.files[s.fullname] == Module(s.name, s.subcommand))
      && (WriteModule(s, fs).err.Some? ==> Unchanged(fs.files, r.fs.files, s.maingo))
      && (forall p :: p != s.fullname && p != s.maingo ==> Unchanged(fs.files, r.fs.files, p))
  {
    var r := RunSpec(s, fs);
    if s.fullpath != "" && s.fullname != "" {
      WriteModuleFrame(s, fs);
      var m := WriteModule(s, fs);
      if m.err.None? {
        PatchFrame(s, m.fs);
        assert r == PatchEntryPoint(s, m.fs);
        assert Unchanged(m.fs.files, r.fs.files, s.fullname);
        forall p | p != s.fullname && p != s.maingo
          ensures Unchanged(fs.files, r.fs.files, p)
        {
          assert Unchanged(fs.files, m.fs.files, p);
          assert Unchanged(m.fs.files, r.fs.files, p);
        }
      } else {
        assert r == m;
      }
    }
  }

  /** Patching the entry point touches that file only. */
  lemma PatchFrame(s: CommandState, fs: Fs)
    ensures var r := PatchEntryPoint(s, fs);
      && r.fs.dirs == fs.dirs && r.fs.faults == fs.faults
      && (forall p :: p != s.maingo ==> Unchanged(fs.files, r.fs.files, p))
  {
    var parsed := ParseFile(fs, s.maingo);
    if parsed.Ok? {
      var (added, doc') := AddNamedImport(parsed.value, "_", ImportPath(s));
      if added {
        var o := OpenTrunc(fs, s.maingo);
        if o.err.None? {
          var w := Write(o.fs, s.maingo, Source(doc'));
        }
      }
    }
  }

  /**
   * When the entry point already imports package/group blank, the add reports
   * false: Run fails naming the import and the file, the entry point is not
   * rewritten, and the module file it wrote stays.
   */
  lemma ImportAlreadyPresent(s: CommandState, fs: Fs)
    requires s.fullpath != "" && s.fullname != "" && s.fullname != s.maingo
    requires WriteModule(s, fs).err.None?
    requires (ReadOp, s.maingo) !in fs.faults
    requires s.maingo in fs.files && ParsesAsGo(fs.files[s.maingo])
    requires ImportSpec("_", ImportPath(s)) in SyntaxTree(fs.files[s.maingo]).imports
    requires NoFileAbove(fs, s.maingo) && s.maingo !in fs.dirs && s.fullname !in Lineage(Dir(s.maingo))
    ensures var r := RunSpec(s, fs);
      && r.err == Some(Generic("error adding import '" + s.pkgname + "/" + s.name + "' to '" + s.maingo + "'"))
      && Unchanged(fs.files, r.fs.files, s.maingo)
      && s.fullname in r.fs.files && r.fs.files[s.fullname] == Module(s.name, s.subcommand)
  {
    WriteModuleFrame(s, fs);
    var m := WriteModule(s, fs);
    assert Unchanged(fs.files, m.fs.files, s.maingo);
    assert NoFileAbove(m.fs, s.maingo);
    assert s.maingo !in m.fs.dirs;
    PatchAlreadyPresent(s, m.fs);
    assert RunSpec(s, fs) == PatchEntryPoint(s, m.fs);
  }

  /** An entry point that already imports package/group is refused by the add and left as it is. */
  lemma PatchAlreadyPresent(s: CommandState, fs: Fs)
    requires (ReadOp, s.maingo) !in fs.faults && NoFileAbove(fs, s.maingo) && s.maingo !in fs.dirs
    requires s.maingo in fs.files && ParsesAsGo(fs.files[s.maingo])
    requires ImportSpec("_", ImportPath(s)) in SyntaxTree(fs.files[s.maingo]).imports
    ensures PatchEntryPoint(s, fs)
         == Effect(fs, Some(Generic("error adding import '" + s.pkgname + "/" + s.name + "' to '" + s.maingo + "'")))
  {
    assert ParseFile(fs, s.maingo) == Ok(SyntaxTree(fs.files[s.maingo]));
    assert "error adding import '" + ImportPath(s) + "' to '" + s.maingo + "'"
        == "error adding import '" + s.pkgname + "/" + s.name + "' to '" + s.maingo + "'";
  }

  /**
   * A successful Run: the module file holds the rendered template; the entry
   * point was a Go file (written by hand, or an earlier rendered module) without
   * the blank import of package/group and now has
   * it, with its other imports in order and its declarations unchanged, but it
   * has lost every comment, since it was parsed without them and printed back;
   * the directories added are the module directory and those above it; no
   * other file changed.
   */
  lemma RunSucceeded(s: CommandState, fs: Fs)
    requires s.fullname != s.maingo
    requires RunSpec(s, fs).err.None?
    ensures var r := RunSpec(s, fs);
      var spec := ImportSpec("_", s.pkgname + "/" + s.name);
      && s.maingo in fs.files && ParsesAsGo(fs.files[s.maingo])
      && s.maingo in r.fs.files && r.fs.files[s.maingo].Source?
      && spec !in SyntaxTree(fs.files[s.maingo]).imports
      && InsertedSomewhere(SyntaxTree(fs.files[s.maingo]).imports, spec, r.fs.files[s.maingo].doc.imports)
      && r.fs.files[s.maingo].doc.decls == SyntaxTree(fs.files[s.maingo]).decls
      && r.fs.files[s.maingo].doc.comments == []
      && s.fullname in r.fs.files && r.fs.files[s.fullname] == Module(s.name, s.subcommand)
      && fs.dirs <= r.fs.dirs <= fs.dirs + Lineage(s.fullpath)
      && (forall p :: p != s.fullname && p != s.maingo ==> Unchanged(fs.files, r.fs.files, p))
  {
    WriteModuleFrame(s, fs);
    var m := WriteModule(s, fs);
    var r := RunSpec(s, fs);
    assert r == PatchEntryPoint(s, m.fs);
    PatchSucceeded(s, m.fs);
    assert Unchanged(fs.files, m.fs.files, s.maingo);
    assert Unchanged(m.fs.files, r.fs.files, s.fullname);
    forall p | p != s.fullname && p != s.maingo
      ensures Unchanged(fs.files, r.fs.files, p)
    {
      assert Unchanged(fs.files, m.fs.files, p);
      assert Unchanged(m.fs.files, r.fs.files, p);
    }
  }

  /**
   * A successful patch of the entry point: it parsed as Go without the import,
   * and now holds its syntax tree with the import added; nothing else changes.
   */
  lemma PatchSucceeded(s: CommandState, fs: Fs)
    requires PatchEntryPoint(s, fs).err.None?
    ensures var r := PatchEntryPoint(s, fs);
      var spec := ImportSpec("_", ImportPath(s));
      && s.maingo in fs.files && ParsesAsGo(fs.files[s.maingo])
      && spec !in SyntaxTree(fs.files[s.maingo]).imports
      && s.maingo in r.fs.files && r.fs.files[s.maingo].Source?
      && InsertedSomewhere(SyntaxTree(fs.files[s.maingo]).imports, spec, r.fs.files[s.maingo].doc.imports)
      && r.fs.files[s.maingo].doc.decls == SyntaxTree(fs.files[s.maingo]).decls
      && r.fs.files[s.maingo].doc.comments == []
      && r.fs.dirs == fs.dirs
      && (forall p :: p != s.maingo ==> Unchanged(fs.files, r.fs.files, p))
  {
    var doc := SyntaxTree(fs.files[s.maingo]);
    assert ParseFile(fs, s.maingo) == Ok(doc);
    var o := OpenTrunc(fs, s.maingo);
    assert PatchEntryPoint(s, fs).fs.files == o.fs.files[s.maingo := Source(AddNamedImport(doc, "_", ImportPath(s)).1)];
  }

  // ---------------------------------------------------------------- Whole invocations

  /** The fields Process computes for -name group/subcommand. */
  function Scaffolded(group: string, subcommand: string, pkgname: string, force: bool, env: Env): CommandState
  {
    Derive(Fresh(group + "/" + subcommand, pkgname, force), group, subcommand, ResolveGopath(env))
  }

  /** A well-formed -name passes validation with its two halves. */
  lemma WellFormedName(group: string, subcommand: string, pkgname: string)
    requires '/' !in group && '/' !in subcommand && pkgname != ""
    ensures Validate(group + "/" + subcommand, pkgname) == Ok((group, subcommand))
  {
    SplitPair(group, subcommand, '/');
    assert group + ['/'] + subcommand == group + "/" + subcommand;
  }

  /** GOPATH/src/package: the directory of the entry point. */
  function ProjectRoot(s: CommandState): string
  {
    Join([s.gopath, "src", s.pkgname])
  }

  /**
   * What a first scaffold needs of the filesystem: no faults, no path both a
   * file and a directory, the project directory and those above it present,
   * no regular file on the way to the module directory, no module file yet,
   * and an entry point that is absent or parses as Go without the import.
   */
  predicate FreshProject(s: CommandState, fs: Fs)
  {
    && Faultless(fs)
    && fs.files.Keys !! fs.dirs
    && Lineage(ProjectRoot(s)) <= fs.dirs
    && Lineage(s.fullpath) !! fs.files.Keys
    && s.fullname !in fs.files && s.fullname !in fs.dirs
    && s.maingo !in fs.dirs
    && (s.maingo in fs.files ==>
          ParsesAsGo(fs.files[s.maingo]) &&
          ImportSpec("_", ImportPath(s)) !in SyntaxTree(fs.files[s.maingo]).imports)
  }

  /**
   * What a scaffolded project holds: the module directory and those above it,
   * the module file, and an entry point importing package/group; no path is
   * both a file and a directory.
   */
  predicate AlreadyScaffolded(s: CommandState, fs: Fs)
  {
    && Faultless(fs)
    && fs.files.Keys !! fs.dirs
    && Lineage(s.fullpath) <= fs.dirs
    && s.fullname in fs.files && fs.files[s.fullname] == Module(s.name, s.subcommand)
    && s.maingo in fs.files && fs.files[s.maingo].Source?
    && ImportSpec("_", ImportPath(s)) in fs.files[s.maingo].doc.imports
  }

  /**
   * The directories of the derived paths: the module file lies in the module
   * directory and the entry point in the project directory, neither empty; the
   * two files are one only for an empty group and subcommand "main".
   */
  lemma ScaffoldedParents(group: string, subcommand: string, pkgname: string, force: bool, env: Env)
    requires '/' !in group && '/' !in subcommand && pkgname != ""
    ensures var s := Scaffolded(group, subcommand, pkgname, force, env);
      && ProjectRoot(s) != "" && s.fullpath != "" && s.fullname != ""
      && Dir(s.fullname) == s.fullpath && Dir(s.maingo) == ProjectRoot(s)
      && (s.fullname == s.maingo <==> group == "" && subcommand == "main")
  {
    var f := Fresh(group + "/" + subcommand, pkgname, force);
    WellFormedName(group, subcommand, pkgname);
    ModuleFileIsEntryPointOnlyForMain(f, env, Fs(map[], {}, map[]));
    DeriveParents(f, group, subcommand, ResolveGopath(env));
  }

  /** The directories of the paths Derive computes. */
  lemma DeriveParents(s: CommandState, group: string, subcommand: string, gopath: string)
    requires '/' !in subcommand
    ensures var r := Derive(s, group, subcommand, gopath);
      var root := Join([gopath, "src", s.pkgname]);
      && root != "" && r.fullpath != "" && r.fullname != ""
      && Dir(r.fullname) == r.fullpath && Dir(r.maingo) == root
  {
    var r := Derive(s, group, subcommand, gopath);
    var root := Join([gopath, "src", s.pkgname]);
    DeriveLayout(s, group, subcommand, gopath);
    DirOfChild(r.fullpath, subcommand + ".go");
    assert r.fullpath + "/" + (subcommand + ".go") == r.fullpath + "/" + subcommand + ".go";
    DirOfChild(root, "main.go");
    assert root + "/" + "main.go" == root + "/main.go";
  }

  /**
   * The directories from the module directory up: they include those above the
   * project directory, never the module file, and the entry point only for the
   * group "main.go".
   */
  lemma ScaffoldedLineage(group: string, subcommand: string, pkgname: string, force: bool, env: Env)
    requires '/' !in group && '/' !in subcommand && pkgname != ""
    ensures var s := Scaffolded(group, subcommand, pkgname, force, env);
      && Lineage(ProjectRoot(s)) <= Lineage(s.fullpath)
      && s.fullname !in Lineage(s.fullpath)
      && (s.maingo in Lineage(s.fullpath) <==> group == "main.go")
  {
    var s := Scaffolded(group, subcommand, pkgname, force, env);
    var root := ProjectRoot(s);
    DeriveLayout(Fresh(group + "/" + subcommand, pkgname, force), group, subcommand, ResolveGopath(env));
    ModuleDirLineage(root, group);
    ScaffoldedParents(group, subcommand, pkgname, force, env);
    ChildOutsideLineage(s.fullpath, s.fullname);
  }

  /**
   * The directories from root/group up (root itself for an empty group)
   * include those from root up, and root/main.go only when the group is
   * "main.go".
   */
  lemma ModuleDirLineage(root: string, group: string)
    requires root != "" && '/' !in group
    ensures var fullpath := if group == "" then root else root + "/" + group;
      && Lineage(root) <= Lineage(fullpath)
      && (root + "/main.go" in Lineage(fullpath) <==> group == "main.go")
  {
    var maingo := root + "/main.go";
    if maingo in Lineage(root) {
      LineageBelow(root, maingo);
    }
    if group != "" {
      var fullpath := root + "/" + group;
      DirOfChild(root, group);
      assert Lineage(fullpath) == {fullpath} + Lineage(root);
      if group == "main.go" {
        assert fullpath == maingo;
      }
      if maingo == fullpath {
        assert (root + "/") + "main.go" == (root + "/") + group;
        PrefixCancel(root + "/", "main.go", group);
      }
    }
  }

  /** A path strictly inside dir is not dir or a directory above it. */
  lemma ChildOutsideLineage(dir: string, child: string)
    requires dir != "" && child != "" && Dir(child) == dir
    ensures child !in Lineage(dir)
  {
    if child in Lineage(dir) {
      LineageBelow(dir, child);
      assert false;
    }
  }

  /**
   * A regular file on the way to the module directory: os.Stat of the module
   * file says "not a directory", which is not "does not exist", so Process
   * stops at its first check and writes nothing.
   */
  lemma FileInTheWayRefused(group: string, subcommand: string, pkgname: string, force: bool, env: Env, fs: Fs)
    requires '/' !in group && '/' !in subcommand && pkgname != ""
    requires Faultless(fs)
    requires !(Lineage(Scaffolded(group, subcommand, pkgname, force, env).fullpath) !! fs.files.Keys)
    ensures var p := ProcessSpec(Fresh(group + "/" + subcommand, pkgname, force), env, fs);
      && p.err == Some(Generic("error checking " + group + "/" + subcommand + " - stat " + p.state.fullname + ": not a directory"))
      && p.fs == fs
  {
    var s := Scaffolded(group, subcommand, pkgname, force, env);
    ProcessStages(group, subcommand, pkgname, force, env, fs);
    ScaffoldedParents(group, subcommand, pkgname, force, env);
    BlockedModuleCheck(s, fs);
  }

  /** With a regular file above the module file, the module check fails with ENOTDIR. */
  lemma BlockedModuleCheck(s: CommandState, fs: Fs)
    requires Faultless(fs) && !NoFileAbove(fs, s.fullname)
    ensures ModuleCheck(s, fs)
         == Some(Generic("error checking " + s.name + "/" + s.subcommand + " - stat " + s.fullname + ": not a directory"))
  {
    assert Stat(fs, s.fullname) == StatFailed(OsError(OtherKind, "stat " + s.fullname + ": not a directory"));
    assert "error checking " + s.name + "/" + s.subcommand + " - " + ("stat " + s.fullname + ": not a directory")
        == "error checking " + s.name + "/" + s.subcommand + " - stat " + s.fullname + ": not a directory";
  }

  /**
   * Process on a project whose directory does not exist: it does not create
   * GOPATH/src/package, so creating the entry point fails and nothing is written.
   */
  lemma MissingProjectRootRefused(group: string, subcommand: string, pkgname: string, force: bool, env: Env, fs: Fs)
    requires '/' !in group && '/' !in subcommand && pkgname != ""
    requires var s := Scaffolded(group, subcommand, pkgname, force, env);
      && Faultless(fs)
      && ProjectRoot(s) !in fs.dirs
      && Lineage(s.fullpath) !! fs.files.Keys
      && s.fullname !in fs.files && s.fullname !in fs.dirs
      && s.maingo !in fs.files && s.maingo !in fs.dirs
    ensures var p := ProcessSpec(Fresh(group + "/" + subcommand, pkgname, force), env, fs);
      && p.err == Some(Generic("error creating output file - open " + p.state.maingo + ": no such file or directory"))
      && p.fs == fs
  {
    var s := Scaffolded(group, subcommand, pkgname, force, env);
    ProcessStages(group, subcommand, pkgname, force, env, fs);
    ScaffoldedParents(group, subcommand, pkgname, force, env);
    ScaffoldedLineage(group, subcommand, pkgname, force, env);
    assert ModuleCheck(s, fs) == None by {
      assert NoFileAbove(fs, s.fullname);
    }
    MissingRootEntryPoint(fs, s.maingo);
  }

  /** Creating the entry point in a directory that does not exist fails with ENOENT, and nothing is written. */
  lemma MissingRootEntryPoint(fs: Fs, maingo: string)
    requires Faultless(fs) && NoFileAbove(fs, maingo)
    requires Dir(maingo) != "" && Dir(maingo) !in fs.dirs
    requires maingo !in fs.files && maingo !in fs.dirs
    ensures EnsureEntryPoint(fs, maingo)
         == Effect(fs, Some(Generic("error creating output file - open " + maingo + ": no such file or directory")))
  {
    var o := OpenTrunc(fs, maingo);
    assert o.err == Some(OsError(NotExist, "open " + maingo + ": no such file or directory"));
    assert "error creating output file - " + o.err.value.text
        == "error creating output file - open " + maingo + ": no such file or directory";
  }

  /**
   * What a first Run needs: both paths set and distinct, the module file's
   * directory its own, no regular file on the way to the module directory and
   * no directory at the module file, the entry point's directory and those
   * above it present, the entry point parsing as Go without the import, and no
   * path both a file and a directory.
   */
  predicate ReadyToRun(s: CommandState, fs: Fs)
  {
    && Faultless(fs)
    && fs.files.Keys !! fs.dirs
    && s.fullpath != "" && s.fullname != "" && s.fullname != s.maingo
    && Dir(s.fullname) == s.fullpath
    && Lineage(s.fullpath) !! fs.files.Keys && s.fullname !in fs.dirs
    && Lineage(Dir(s.maingo)) <= fs.dirs
    && s.maingo in fs.files && ParsesAsGo(fs.files[s.maingo])
    && ImportSpec("_", ImportPath(s)) !in SyntaxTree(fs.files[s.maingo]).imports
  }

  /** A first Run succeeds, leaves the project scaffolded and the import in the entry point once. */
  lemma FirstRun(s: CommandState, fs: Fs)
    requires ReadyToRun(s, fs)
    ensures var r := RunSpec(s, fs);
      && r.err == None && AlreadyScaffolded(s, r.fs)
      && Occurrences(r.fs.files[s.maingo].doc.imports, ImportSpec("_", ImportPath(s))) == 1
  {
    var spec := ImportSpec("_", ImportPath(s));
    var doc := SyntaxTree(fs.files[s.maingo]);
    if s.fullname in Lineage(s.fullpath) {
      LineageBelow(s.fullpath, s.fullname);
    }
    WriteModuleFrame(s, fs);
    var m := WriteModule(s, fs);
    assert m.err.None?;
    assert ParseFile(m.fs, s.maingo) == Ok(doc);
    assert Occurrences(doc.imports, spec) == 0;
    AddNamedImportLeavesOne(doc, "_", ImportPath(s));
    assert spec in AddNamedImport(doc, "_", ImportPath(s)).1.imports by {
      assert spec in multiset(AddNamedImport(doc, "_", ImportPath(s)).1.imports);
    }
  }

  /**
   * A module rendered by an earlier scaffold can serve as the entry point of a
   * later one (-package p -name x/main, then -package p/x): when its group
   * and subcommand are identifiers it parses, and Run adds the import to it,
   * keeping the module's declarations.
   */
  lemma ModuleAsEntryPoint(s: CommandState, fs: Fs)
    requires ReadyToRun(s, fs)
    requires fs.files[s.maingo].Module?
    ensures var r := RunSpec(s, fs);
      var c := fs.files[s.maingo];
      && r.err == None && r.fs.files[s.maingo].Source?
      && r.fs.files[s.maingo].doc.decls == ModuleDecls(c.group, c.subcommand)
      && Occurrences(r.fs.files[s.maingo].doc.imports, ImportSpec("_", ImportPath(s))) == 1
  {
    FirstRun(s, fs);
    RunSucceeded(s, fs);
  }

  /**
   * Process on a fresh project succeeds without touching the directories: it
   * writes the default entry point, which lacks the blank import.
   */
  lemma FreshProcess(group: string, subcommand: string, pkgname: string, force: bool, env: Env, fs: Fs)
    requires '/' !in group && '/' !in subcommand && pkgname != ""
    requires FreshProject(Scaffolded(group, subcommand, pkgname, force, env), fs)
    ensures var p := ProcessSpec(Fresh(group + "/" + subcommand, pkgname, force), env, fs);
      && p.state == Scaffolded(group, subcommand, pkgname, force, env)
      && p.err == None && Faultless(p.fs) && p.fs.dirs == fs.dirs
      && p.fs.files.Keys == fs.files.Keys + {p.state.maingo}
      && p.state.maingo in p.fs.files && ParsesAsGo(p.fs.files[p.state.maingo])
      && ImportSpec("_", ImportPath(p.state)) !in SyntaxTree(p.fs.files[p.state.maingo]).imports
  {
    var s := Scaffolded(group, subcommand, pkgname, force, env);
    ProcessStages(group, subcommand, pkgname, force, env, fs);
    ScaffoldedParents(group, subcommand, pkgname, force, env);
    ScaffoldedLineage(group, subcommand, pkgname, force, env);
    assert ModuleCheck(s, fs) == None by {
      assert NoFileAbove(fs, s.fullname);
    }
    FreshEntryPoint(fs, s.maingo);
  }

  /** The default entry point is written where none exists and its directory does; one that exists is left alone. */
  lemma FreshEntryPoint(fs: Fs, maingo: string)
    requires Faultless(fs) && Creatable(fs, maingo)
    ensures var e := EnsureEntryPoint(fs, maingo);
      && e.err == None && e.fs.dirs == fs.dirs && e.fs.faults == fs.faults
      && e.fs.files == (if maingo in fs.files then fs.files else fs.files[maingo := Source(DefaultMain())])
  {
  }

  /**
   * A first Process and Run on a fresh project succeed whenever the module
   * file is not the entry point itself and the module directory is not the
   * entry point either (the group "main.go"): the module file at the derived path
   * holds the template for group and subcommand, and the entry point imports
   * package/group exactly once. With an empty group that import is
   * "package/".
   */
  lemma FirstScaffold(group: string, subcommand: string, pkgname: string, force: bool, env: Env, fs: Fs)
    requires '/' !in group && '/' !in subcommand && pkgname != ""
    requires !(group == "" && subcommand == "main") && group != "main.go"
    requires FreshProject(Scaffolded(group, subcommand, pkgname, force, env), fs)
    ensures var p := ProcessSpec(Fresh(group + "/" + subcommand, pkgname, force), env, fs);
      var r := RunSpec(p.state, p.fs);
      && p.state == Scaffolded(group, subcommand, pkgname, force, env)
      && p.err == None && r.err == None
      && AlreadyScaffolded(p.state, r.fs)
      && Occurrences(r.fs.files[p.state.maingo].doc.imports, ImportSpec("_", pkgname + "/" + group)) == 1
  {
    var s := Scaffolded(group, subcommand, pkgname, force, env);
    FreshProcess(group, subcommand, pkgname, force, env, fs);
    ScaffoldedParents(group, subcommand, pkgname, force, env);
    ScaffoldedLineage(group, subcommand, pkgname, force, env);
    var p := ProcessSpec(Fresh(group + "/" + subcommand, pkgname, force), env, fs);
    assert ReadyToRun(s, p.fs);
    FirstRun(s, p.fs);
  }

  /**
   * Run on an object with an empty group whose module file is the entry point:
   * the module template, with an empty package name, overwrites the entry
   * point, which then does not parse, so Run fails and the entry point is lost.
   */
  lemma ModuleOverwritesEntryPoint(s: CommandState, fs: Fs)
    requires Faultless(fs) && s.name == ""
    requires s.fullpath != "" && s.fullname == s.maingo && Dir(s.fullname) == s.fullpath
    requires Lineage(s.fullpath) !! fs.files.Keys && s.fullname !in fs.dirs
    ensures var r := RunSpec(s, fs);
      && r.err == Some(Generic(s.maingo + ":4:1: expected 'IDENT', found 'import'"))
      && s.maingo in r.fs.files && r.fs.files[s.maingo] == Module(s.name, s.subcommand)
  {
    if s.fullname in Lineage(s.fullpath) {
      LineageBelow(s.fullpath, s.fullname);
    }
    var m := WriteModule(s, fs);
    assert m.err.None?;
  }

  /**
   * -name "/main" makes the module file the entry point: Process creates the
   * default main.go, Run overwrites it with the module template, and then
   * cannot parse it, so the entry point is lost.
   */
  lemma SlashMainOverwritesEntryPoint(pkgname: string, force: bool, env: Env, fs: Fs)
    requires pkgname != ""
    requires FreshProject(Scaffolded("", "main", pkgname, force, env), fs)
    ensures var p := ProcessSpec(Fresh("/main", pkgname, force), env, fs);
      var r := RunSpec(p.state, p.fs);
      && p.err == None
      && r.err == Some(Generic(p.state.maingo + ":4:1: expected 'IDENT', found 'import'"))
      && p.state.maingo in r.fs.files && r.fs.files[p.state.maingo] == Module("", "main")
  {
    var p := ProcessSpec(Fresh("/main", pkgname, force), env, fs);
    SlashMainProcess(pkgname, force, env, fs);
    ModuleOverwritesEntryPoint(p.state, p.fs);
  }

  /** Process for -name "/main" on a fresh project: it succeeds, and the module file is the entry point it wrote. */
  lemma SlashMainProcess(pkgname: string, force: bool, env: Env, fs: Fs)
    requires pkgname != ""
    requires FreshProject(Scaffolded("", "main", pkgname, force, env), fs)
    ensures var p := ProcessSpec(Fresh("/main", pkgname, force), env, fs);
      && p.err == None && Faultless(p.fs) && p.state.name == "" && p.state.subcommand == "main"
      && p.state.fullpath != "" && p.state.fullname == p.state.maingo && Dir(p.state.fullname) == p.state.fullpath
      && Lineage(p.state.fullpath) !! p.fs.files.Keys && p.state.fullname !in p.fs.dirs
  {
    assert "" + "/" + "main" == "/main";
    FreshProcess("", "main", pkgname, force, env, fs);
    ScaffoldedParents("", "main", pkgname, force, env);
    ScaffoldedLineage("", "main", pkgname, force, env);
  }

  /**
   * -name "main.go/<subcommand>" names the module directory after the entry
   * point: Process creates main.go as a file, and Run cannot then create a
   * directory there.
   */
  lemma MainGoGroupBlocked(subcommand: string, pkgname: string, force: bool, env: Env, fs: Fs)
    requires '/' !in subcommand && pkgname != ""
    requires FreshProject(Scaffolded("main.go", subcommand, pkgname, force, env), fs)
    ensures var p := ProcessSpec(Fresh("main.go/" + subcommand, pkgname, force), env, fs);
      var r := RunSpec(p.state, p.fs);
      && p.err == None
      && r.err == Some(Generic("error creating destination directory - mkdir " + p.state.maingo + ": not a directory"))
      && r.fs == p.fs
  {
    var s := Scaffolded("main.go", subcommand, pkgname, force, env);
    assert "main.go" + "/" + subcommand == "main.go/" + subcommand;
    FreshProcess("main.go", subcommand, pkgname, force, env, fs);
    ScaffoldedParents("main.go", subcommand, pkgname, force, env);
    ScaffoldedLineage("main.go", subcommand, pkgname, force, env);
    MainGoGroupPath(subcommand, pkgname, force, env);
    var p := ProcessSpec(Fresh("main.go/" + subcommand, pkgname, force), env, fs);
    assert Lineage(Dir(s.maingo)) !! p.fs.files.Keys;
    MainGoBlocksMkdir(s, p.fs);
  }

  /** For the group "main.go" the module directory is the entry point's path. */
  lemma MainGoGroupPath(subcommand: string, pkgname: string, force: bool, env: Env)
    requires '/' !in subcommand && pkgname != ""
    ensures var s := Scaffolded("main.go", subcommand, pkgname, force, env);
      s.fullpath == s.maingo
  {
    var f := Fresh("main.go/" + subcommand, pkgname, force);
    var root := Join([ResolveGopath(env), "src", pkgname]);
    DeriveLayout(f, "main.go", subcommand, ResolveGopath(env));
    assert root + "/" + "main.go" == root + "/main.go";
  }

  /** MkdirAll on a module directory that is the entry point file fails, naming that file. */
  lemma MainGoBlocksMkdir(s: CommandState, fs: Fs)
    requires Faultless(fs) && s.fullpath == s.maingo && s.fullpath != "" && s.fullname != ""
    requires s.maingo in fs.files && Lineage(Dir(s.maingo)) !! fs.files.Keys
    ensures RunSpec(s, fs) ==
      Effect(fs, Some(Generic("error creating destination directory - mkdir " + s.maingo + ": not a directory")))
  {
    var d := MkdirAll(fs, s.fullpath);
    assert FileOnPath(fs, s.fullpath) == Some(s.maingo);
    assert d.err == Some(OsError(OtherKind, "mkdir " + s.maingo + ": not a directory"));
    assert "error creating destination directory - " + d.err.value.text
        == "error creating destination directory - mkdir " + s.maingo + ": not a directory";
  }

  /** Without -force, repeating a scaffold is refused by Process with "already exists", and nothing is written. */
  lemma RepeatWithoutForce(group: string, subcommand: string, pkgname: string, env: Env, fs: Fs)
    requires '/' !in group && '/' !in subcommand && pkgname != ""
    requires AlreadyScaffolded(Scaffolded(group, subcommand, pkgname, false, env), fs)
    ensures var p := ProcessSpec(Fresh(group + "/" + subcommand, pkgname, false), env, fs);
      && p.err == Some(Generic("subcommand '" + subcommand + "' already exists at '" +
                               Scaffolded(group, subcommand, pkgname, false, env).fullpath + "'"))
      && p.fs == fs
  {
    WellFormedName(group, subcommand, pkgname);
    ScaffoldedParents(group, subcommand, pkgname, false, env);
  }

  /**
   * With -force, repeating a scaffold passes Process, but Run fails at the
   * import, which is already there; the files are as they were, so the entry
   * point never holds the import twice.
   */
  lemma RepeatWithForce(group: string, subcommand: string, pkgname: string, env: Env, fs: Fs)
    requires '/' !in group && '/' !in subcommand && pkgname != ""
    requires AlreadyScaffolded(Scaffolded(group, subcommand, pkgname, true, env), fs)
    ensures var p := ProcessSpec(Fresh(group + "/" + subcommand, pkgname, true), env, fs);
      var r := RunSpec(p.state, p.fs);
      && p.err == None && p.fs == fs
      && r.err == Some(Generic("error adding import '" + pkgname + "/" + group + "' to '" + p.state.maingo + "'"))
      && r.fs.files == fs.files
  {
    var s := Scaffolded(group, subcommand, pkgname, true, env);
    ScaffoldedParents(group, subcommand, pkgname, true, env);
    if group == "" && subcommand == "main" {
      // The module file and the entry point are one path, which cannot hold both.
      assert false;
    }
    ProcessStages(group, subcommand, pkgname, true, env, fs);
    assert Stat(fs, s.fullname) == Found by {
      assert NoFileAbove(fs, s.fullname);
    }
    ScaffoldedLineage(group, subcommand, pkgname, true, env);
    RepeatRun(s, fs);
  }

  /** Run over a scaffolded project fails at the import, which is already there, and leaves every file as it was. */
  lemma RepeatRun(s: CommandState, fs: Fs)
    requires AlreadyScaffolded(s, fs)
    requires s.fullpath != "" && s.fullname != "" && s.fullname != s.maingo && Dir(s.fullname) == s.fullpath
    requires Lineage(Dir(s.maingo)) <= Lineage(s.fullpath) && s.fullname !in Lineage(s.fullpath)
    ensures var r := RunSpec(s, fs);
      && r.err == Some(Generic("error adding import '" + s.pkgname + "/" + s.name + "' to '" + s.maingo + "'"))
      && r.fs.files == fs.files
  {
    RewriteSameModule(s, fs);
    ImportAlreadyPresent(s, fs);
  }

  /** Writing the module again over a scaffolded project leaves every file as it was. */
  lemma RewriteSameModule(s: CommandState, fs: Fs)
    requires AlreadyScaffolded(s, fs)
    requires s.fullpath != "" && Dir(s.fullname) == s.fullpath
    ensures WriteModule(s, fs).err.None?
    ensures WriteModule(s, fs).fs.files == fs.files
  {
    var d := MkdirAll(fs, s.fullpath);
    var o := OpenTrunc(d.fs, s.fullname);
    assert o.fs.files[s.fullname := Module(s.name, s.subcommand)] == fs.files;
  }

  /** The project root for -package github.com/acme/tool under GOPATH /tmp/gopath. */
  lemma ExampleRoot()
    ensures Join(["/tmp/gopath", "src", "github.com/acme/tool"]) == "/tmp/gopath/src/github.com/acme/tool"
  {
    JoinSrc("/tmp/gopath", "github.com/acme/tool");
  }

  /** The module directory and the entry point of the worked example. */
  lemma ExampleDirs()
    ensures Join(["/tmp/gopath", "src", "github.com/acme/tool", "origin"]) == "/tmp/gopath/src/github.com/acme/tool/origin"
    ensures Join(["/tmp/gopath", "src", "github.com/acme/tool", "main.go"]) == "/tmp/gopath/src/github.com/acme/tool/main.go"
  {
    ExampleRoot();
    JoinUnderSrc("/tmp/gopath", "github.com/acme/tool", "origin");
    JoinUnderSrc("/tmp/gopath", "github.com/acme/tool", "main.go");
  }

  /** The module file of the worked example. */
  lemma ExampleFile()
    ensures Join(["/tmp/gopath/src/github.com/acme/tool/origin", "push" + ".go"]) == "/tmp/gopath/src/github.com/acme/tool/origin/push.go"
  {
    JoinTwo("/tmp/gopath/src/github.com/acme/tool/origin", "push" + ".go");
  }

  /** Process fills in the fields of a well-formed -name whatever it then finds on disk. */
  lemma ProcessDerives(group: string, subcommand: string, pkgname: string, force: bool, env: Env, fs: Fs)
    requires '/' !in group && '/' !in subcommand && pkgname != ""
    ensures ProcessSpec(Fresh(group + "/" + subcommand, pkgname, force), env, fs).state
         == Scaffolded(group, subcommand, pkgname, force, env)
  {
    WellFormedName(group, subcommand, pkgname);
  }

  /** Process on a well-formed -name: the derived fields, then the module check, then the entry point. */
  lemma ProcessStages(group: string, subcommand: string, pkgname: string, force: bool, env: Env, fs: Fs)
    requires '/' !in group && '/' !in subcommand && pkgname != ""
    ensures var s := Scaffolded(group, subcommand, pkgname, force, env);
      var e := EnsureEntryPoint(fs, s.maingo);
      ProcessSpec(Fresh(group + "/" + subcommand, pkgname, force), env, fs)
        == if ModuleCheck(s, fs).Some? then ProcessResult(s, fs, ModuleCheck(s, fs)) else ProcessResult(s, e.fs, e.err)
  {
    WellFormedName(group, subcommand, pkgname);
  }

  /** The worked example: -name origin/push, -package github.com/acme/tool, GOPATH /tmp/gopath. */
  lemma OriginPushExample(buildDefault: string)
    ensures var s := Scaffolded("origin", "push", "github.com/acme/tool", false, Env("/tmp/gopath", buildDefault));
      && s.name == "origin" && s.subcommand == "push"
      && s.fullpath == "/tmp/gopath/src/github.com/acme/tool/origin"
      && s.fullname == "/tmp/gopath/src/github.com/acme/tool/origin/push.go"
      && s.maingo == "/tmp/gopath/src/github.com/acme/tool/main.go"
      && ImportPath(s) == "github.com/acme/tool/origin"
  {
    ExampleDirs();
    ExampleFile();
  }

  /** The command declares the General -silent flag, so the dispatcher shows its output unless -silent is given. */
  lemma AddOutputShownByDefault()
    ensures !Cli.Silent(DeclaredFlags, map[])
  {
  }
}
