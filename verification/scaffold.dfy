/**
 * The `command.add` command (cmd/cligen/command/add.go): it validates -name
 * and -package, derives where the new command module and the project's entry
 * point live, makes sure the entry point exists, writes the module from its
 * template and patches the entry point to import the module's package.
 */
module Scaffold {
  import opened Outcomes
  import opened Errors
  import opened Strings
  import opened GoSource
  import opened Files
  import Cli

  /** The flags the command declares: the General ones, then -name, -package and -force. */
  const DeclaredFlags: map<string, string> :=
    Cli.GeneralFlags + map["name" := "", "package" := "", "force" := "false"]

  /** The environment the command reads: $GOPATH, and the GOPATH the Go build tool defaults to. */
  datatype Env = Env(gopathVar: string, buildDefault: string)

  /** The fields of the command object. */
  datatype CommandState = CommandState(
    name: string,        // -name; the group once Process has split it
    subcommand: string,
    force: bool,         // -force
    pkgname: string,     // -package
    gopath: string,
    fullpath: string,    // the module directory
    fullname: string,    // the module file
    maingo: string)      // the entry point

  /** The command object as flag parsing leaves it: -name, -package and -force set, every other field empty. */
  function Fresh(name: string, pkgname: string, force: bool): CommandState
  {
    CommandState(name, "", force, pkgname, "", "", "", "")
  }

  /** GOPATH from the environment, else the build tool's default. */
  function ResolveGopath(env: Env): string
  {
    if env.gopathVar == "" then env.buildDefault else env.gopathVar
  }

  /** The checks on -name and -package, in the order the code makes them; on success the group and subcommand. */
  function Validate(name: string, pkgname: string): Result<(string, string), Failure>
  {
    if name == "" then Err(Coded(ErrFlagRequired("name")))
    else if pkgname == "" then Err(Coded(ErrFlagRequired("package")))
    else
      var parts := Split(name, '/');
      if |parts| != 2 then Err(Coded(ErrWrongFormat("name"))) else Ok((parts[0], parts[1]))
  }

  /** The fields Process sets once validation has passed. */
  function Derive(s: CommandState, group: string, subcommand: string, gopath: string): CommandState
  {
    var fullpath := Join([gopath, "src", s.pkgname, group]);
    s.(name := group, subcommand := subcommand, gopath := gopath,
       fullpath := fullpath,
       fullname := Join([fullpath, subcommand + ".go"]),
       maingo := Join([gopath, "src", s.pkgname, "main.go"]))
  }

  /** The check on the module file: it may exist only with -force, and any other stat failure stops Process. */
  function ModuleCheck(s: CommandState, fs: Fs): Option<Failure>
  {
    match Stat(fs, s.fullname)
    case Found =>
      if s.force then None
      else Some(Generic("subcommand '" + s.subcommand + "' already exists at '" + s.fullpath + "'"))
    case Missing => None
    case StatFailed(e) =>
      if e.kind == NotExist then None
      else Some(Generic("error checking " + s.name + "/" + s.subcommand + " - " + e.text))
  }

  /** A filesystem after a stage of the command, and the error the stage returned. */
  datatype Effect = Effect(fs: Fs, err: Option<Failure>)

  /**
   * Writes the default main.go when os.Stat says the entry point does not
   * exist; an entry point that exists, or that cannot be examined, is left alone.
   */
  function EnsureEntryPoint(fs: Fs, maingo: string): Effect
  {
    if !IsNotExist(Stat(fs, maingo)) then Effect(fs, None)
    else
      var o := OpenTrunc(fs, maingo);
      if o.err.Some? then Effect(fs, Some(Generic("error creating output file - " + o.err.value.text)))
      else
        var w := Write(o.fs, maingo, Source(DefaultMain()));
        Effect(w.fs, if w.err.Some? then Some(Generic(w.err.value.text)) else None)
  }

  /** Fields, filesystem and error after Process. */
  datatype ProcessResult = ProcessResult(state: CommandState, fs: Fs, err: Option<Failure>)

  /** Specification of Process. */
  function ProcessSpec(s: CommandState, env: Env, fs: Fs): ProcessResult
  {
    match Validate(s.name, s.pkgname)
    case Err(e) => ProcessResult(s, fs, Some(e))
    case Ok((group, subcommand)) =>
      var s' := Derive(s, group, subcommand, ResolveGopath(env));
      var check := ModuleCheck(s', fs);
      if check.Some? then ProcessResult(s', fs, check)
      else
        var e := EnsureEntryPoint(fs, s'.maingo);
        ProcessResult(s', e.fs, e.err)
  }

  /** The import Run adds to the entry point: the package path and the group. */
  function ImportPath(s: CommandState): string
  {
    s.pkgname + "/" + s.name
  }

  /** The first half of Run: the module directory, then the module file. */
  function WriteModule(s: CommandState, fs: Fs): Effect
  {
    var d := MkdirAll(fs, s.fullpath);
    if d.err.Some? && d.err.value.kind != Exist then
      Effect(d.fs, Some(Generic("error creating destination directory - " + d.err.value.text)))
    else
      var o := OpenTrunc(d.fs, s.fullname);
      if o.err.Some? then Effect(o.fs, Some(Generic("error creating output file - " + o.err.value.text)))
      else
        var w := Write(o.fs, s.fullname, Module(s.name, s.subcommand));
        Effect(w.fs, if w.err.Some? then Some(Generic(w.err.value.text)) else None)
  }

  /** The second half of Run: parse the entry point, add the blank import, write it back. */
  function PatchEntryPoint(s: CommandState, fs: Fs): Effect
  {
    match ParseFile(fs, s.maingo)
    case Err(m) => Effect(fs, Some(Generic(m)))
    case Ok(doc) =>
      var (added, doc') := AddNamedImport(doc, "_", ImportPath(s));
      if !added then
        Effect(fs, Some(Generic("error adding import '" + ImportPath(s) + "' to '" + s.maingo + "'")))
      else
        var o := OpenTrunc(fs, s.maingo);
        if o.err.Some? then Effect(o.fs, Some(Generic("error creating output file - " + o.err.value.text)))
        else
          var w := Write(o.fs, s.maingo, Source(doc'));
          Effect(w.fs, if w.err.Some? then Some(Generic("error saving file - " + w.err.value.text)) else None)
  }

  /** Specification of Run. */
  function RunSpec(s: CommandState, fs: Fs): Effect
  {
    if s.fullpath == "" || s.fullname == "" then Effect(fs, Some(Generic("uninitialized")))
    else
      var m := WriteModule(s, fs);
      if m.err.Some? then m else PatchEntryPoint(s, m.fs)
  }

  /** The `command` object: its fields are bound to the flags, then filled in by Process. */
  class AddCommand {
    var name: string
    var subcommand: string
    var force: bool
    var pkgname: string
    var gopath: string
    var fullpath: string
    var fullname: string
    var maingo: string

    /** The object as flag parsing leaves it. */
    constructor (name: string, pkgname: string, force: bool)
      ensures State() == Fresh(name, pkgname, force)
    {
      this.name, this.pkgname, this.force := name, pkgname, force;
      subcommand, gopath, fullpath, fullname, maingo := "", "", "", "", "";
    }

    function State(): CommandState
      reads this
    {
      CommandState(name, subcommand, force, pkgname, gopath, fullpath, fullname, maingo)
    }

    /** Validates the flags, derives the paths, checks the module file and makes sure the entry point exists. */
    method Process(env: Env, fs: Fs) returns (fs': Fs, err: Option<Failure>)
      modifies this
      ensures ProcessResult(State(), fs', err) == ProcessSpec(old(State()), env, fs)
    {
      fs' := fs;
      if name == "" {
        return fs, Some(Coded(ErrFlagRequired("name")));
      }
      if pkgname == "" {
        return fs, Some(Coded(ErrFlagRequired("package")));
      }

      var tmp := Split(name, '/');
      if |tmp| != 2 {
        return fs, Some(Coded(ErrWrongFormat("name")));
      }

      assert Validate(name, pkgname) == Ok((tmp[0], tmp[1]));
      name := tmp[0];
      subcommand := tmp[1];

      gopath := env.gopathVar;
      if gopath == "" {
        gopath := env.buildDefault;
      }

      fullpath := Join([gopath, "src", pkgname, name]);
      fullname := Join([fullpath, subcommand + ".go"]);
      maingo := Join([gopath, "src", pkgname, "main.go"]);
      assert State() == Derive(old(State()), tmp[0], tmp[1], ResolveGopath(env));
      ghost var check := ModuleCheck(State(), fs);
      ghost var entry := EnsureEntryPoint(fs, maingo);
      assert ProcessSpec(old(State()), env, fs)
          == if check.Some? then ProcessResult(State(), fs, check) else ProcessResult(State(), entry.fs, entry.err);

      var st := Stat(fs, fullname);
      if st.Found? {
        if !force {
          return fs, Some(Generic("subcommand '" + subcommand + "' already exists at '" + fullpath + "'"));
        }
      } else if st.StatFailed? && st.err.kind != NotExist {
        return fs, Some(Generic("error checking " + name + "/" + subcommand + " - " + st.err.text));
      }

      assert ModuleCheck(State(), fs).None?;
      st := Stat(fs, maingo);
      if IsNotExist(st) {
        var o := OpenTrunc(fs, maingo);
        if o.err.Some? {
          return fs, Some(Generic("error creating output file - " + o.err.value.text));
        }
        var w := Write(o.fs, maingo, Source(DefaultMain()));
        if w.err.Some? {
          return w.fs, Some(Generic(w.err.value.text));
        }
        fs' := w.fs;
      }
      err := None;
    }

    /** Writes the module file, then patches the entry point; its output is always empty. */
    method Run(fs: Fs) returns (fs': Fs, output: string, err: Option<Failure>)
      ensures output == ""
      ensures Effect(fs', err) == RunSpec(State(), fs)
    {
      output := "";
      if fullpath == "" || fullname == "" {
        return fs, output, Some(Generic("uninitialized"));
      }

      var d := MkdirAll(fs, fullpath);
      if d.err.Some? && d.err.value.kind != Exist {
        return d.fs, output, Some(Generic("error creating destination directory - " + d.err.value.text));
      }

      var o := OpenTrunc(d.fs, fullname);
      if o.err.Some? {
        return o.fs, output, Some(Generic("error creating output file - " + o.err.value.text));
      }
      var w := Write(o.fs, fullname, Module(name, subcommand));
      if w.err.Some? {
        return w.fs, output, Some(Generic(w.err.value.text));
      }
      fs' := w.fs;

      var file := ParseFile(fs', maingo);
      if file.Err? {
        return fs', output, Some(Generic(file.error));
      }

      var ipath := pkgname + "/" + name;
      var (added, doc) := AddNamedImport(file.value, "_", ipath);
      if !added {
        return fs', output, Some(Generic("error adding import '" + ipath + "' to '" + maingo + "'"));
      }

      o := OpenTrunc(fs', maingo);
      if o.err.Some? {
        return o.fs, output, Some(Generic("error creating output file - " + o.err.value.text));
      }
      w := Write(o.fs, maingo, Source(doc));
      if w.err.Some? {
        return w.fs, output, Some(Generic("error saving file - " + w.err.value.text));
      }
      return w.fs, output, None;
    }
  }
}
