/**
 * The dispatcher of package cli (pkg/cli.go): it resolves the first argument
 * against the registry, drives a command through Register, flag parsing,
 * Process and Run, and turns the outcome into an exit code. What it prints is
 * recorded as a sequence of events.
 */
module Cli {
  import opened Outcomes
  import opened Errors
  import opened StringOrder
  import opened Registry

  /** The flags every command embedding cli.General declares, with their defaults as the flag package prints them. */
  const GeneralFlags: map<string, string> := map["n" := "true", "silent" := "false"]

  /**
   * A registered command, by what the dispatcher can observe of it: the flags
   * its Register declares (name to default value), the error its Process
   * returns, and the output and error its Run returns.
   */
  datatype Command = Command(
    flags: map<string, string>,
    process: Option<Failure>,
    output: string,
    runError: Option<Failure>)

  /**
   * What parsing the arguments after the command name gave: for each flag set
   * on the command line, its Value.String() after flag.Parse (a bool flag reads
   * "true" or "false" whatever spelling was given), or an error.
   */
  datatype ParseOutcome = Parsed(given: map<string, string>) | ParseFailed(err: Failure)

  /** What the dispatcher does that can be observed, in order. */
  datatype Event =
    | Listing(names: seq<string>)  // generalHelp: the registered names
    | Registered(name: string)     // cmd.Register(fs) was called
    | Processed(name: string)      // cmd.Process() was called
    | Ran(name: string)            // cmd.Run(fs) was called
    | Println(line: string)        // a line printed with fmt.Println
    | Print(text: string)          // the command's output, printed as is
    | Usage(name: string)          // commandHelp: per-command usage

  /** The two arguments that ask for the general listing. */
  const HelpArgs: set<string> := {"-h", "--help"}

  /** fs.Lookup(flag).Value.String() after parsing: nothing if the command did not declare the flag. */
  function FlagValue(declared: map<string, string>, given: map<string, string>, flag: string): (v: Option<string>)
    ensures v.Some? <==> flag in declared
    ensures flag in declared && flag !in given ==> v == Some(declared[flag])
    ensures flag in declared && flag in given ==> v == Some(given[flag])
  {
    if flag !in declared then None
    else if flag in given then Some(given[flag])
    else Some(declared[flag])
  }

  /** Output is shown only when a `silent` flag exists and reads "false"; without one it is suppressed. */
  predicate Silent(declared: map<string, string>, given: map<string, string>)
  {
    FlagValue(declared, given, "silent") != Some("false")
  }

  /** A command that embeds the General options shows its output unless -silent is set. */
  lemma GeneralFlagsShowOutput(declared: map<string, string>, given: map<string, string>)
    requires "silent" in declared && declared["silent"] == GeneralFlags["silent"]
    requires "silent" !in given
    ensures !Silent(declared, given)
  {
  }

  /** What generalHelp lists: every registered name once, in increasing order. */
  predicate IsListing(names: seq<string>, keys: set<string>)
  {
    StrictlySorted(names) && multiset(names) == multiset(keys)
  }

  /** The listing does not depend on the order in which the map hands out its names. */
  lemma ListingIsDetermined(a: seq<string>, b: seq<string>, keys: set<string>)
    requires IsListing(a, keys) && IsListing(b, keys)
    ensures a == b
  {
    StrictListingUnique(a, b);
  }

  /** Once a name is registered the listing shows it, and it grows by one exactly when the name is new. */
  lemma RegisteredNameListed(names: seq<string>, keys: set<string>, name: string)
    requires IsListing(names, keys + {name})
    ensures name in names
    ensures |names| == |keys| + (if name in keys then 0 else 1)
  {
    assert name in multiset(names);
    SetMultisetSize(keys + {name});
    if name !in keys {
      assert |keys + {name}| == |keys| + |{name}|;
    } else {
      assert keys + {name} == keys;
    }
  }

  /** A set seen as a multiset has as many elements as the set. */
  lemma {:induction false} SetMultisetSize(s: set<string>)
    ensures |multiset(s)| == |s|
  {
    if s != {} {
      var x :| x in s;
      SetMultisetSize(s - {x});
      assert multiset(s) == multiset(s - {x}) + multiset{x};
    }
  }

  /**
   * generalHelp: collects the registered names (in the map's unspecified
   * iteration order) and sorts them.
   */
  method GeneralHelp(commands: CommandMap<Command>) returns (sorted: seq<string>)
    ensures IsListing(sorted, commands.entries.Keys)
    ensures |sorted| == |commands.entries.Keys|
  {
    var names: seq<string> := [];
    var remaining := commands.entries.Keys;
    while remaining != {}
      invariant remaining <= commands.entries.Keys
      invariant multiset(names) == multiset(commands.entries.Keys - remaining)
      invariant |names| + |remaining| == |commands.entries.Keys|
      decreases |remaining|
    {
      var name :| name in remaining;
      names := names + [name];
      remaining := remaining - {name};
    }
    assert commands.entries.Keys - remaining == commands.entries.Keys;
    sorted := Sort(names);
    SortedDistinctIsStrict(sorted, commands.entries.Keys);
  }

  /** commandHelp is deferred: it runs on the way out whenever the last error is flag.ErrHelp. */
  function DeferredUsage(err: Option<Failure>, name: string): seq<Event>
  {
    if err == Some(FlagHelp) then [Usage(name)] else []
  }

  /** The first argument names a registered command (and is not a request for the listing). */
  predicate Resolves(entries: map<string, Command>, args: seq<string>)
  {
    args != [] && args[0] !in HelpArgs && args[0] in entries
  }

  /** Run: the dispatch of one invocation, its exit code and what it printed. */
  method Run(commands: CommandMap<Command>, args: seq<string>, parse: ParseOutcome) returns (code: int, out: seq<Event>)
    ensures code == 0 || code == 1
    // No arguments: the listing, and failure.
    ensures args == [] ==>
      code == 1 && |out| == 1 && out[0].Listing? && IsListing(out[0].names, commands.entries.Keys)
    // -h or --help: the listing, and success, even if a command has that name.
    ensures args != [] && args[0] in HelpArgs ==>
      code == 0 && |out| == 1 && out[0].Listing? && IsListing(out[0].names, commands.entries.Keys)
    // An unknown command: the listing, and failure; no command is touched.
    ensures args != [] && args[0] !in HelpArgs && args[0] !in commands.entries ==>
      code == 1 && |out| == 1 && out[0].Listing? && IsListing(out[0].names, commands.entries.Keys)
    // A parse error: failure before Process; usage only for flag.ErrHelp, the bare message otherwise.
    ensures Resolves(commands.entries, args) && parse.ParseFailed? ==>
      code == 1 &&
      out == [Registered(args[0])] +
        (if parse.err == FlagHelp then [Usage(args[0])] else [Println(Message(parse.err))])
    // Process fails: failure, Run never called, the error printed as a bare message whatever its code.
    ensures Resolves(commands.entries, args) && parse.Parsed? && commands.entries[args[0]].process.Some? ==>
      var e := commands.entries[args[0]].process.value;
      code == 1 &&
      out == [Registered(args[0]), Processed(args[0]), Println(Message(e))] + DeferredUsage(Some(e), args[0])
    // Process succeeds: Run decides the exit code; its output shows unless silent; its error is marked with "!".
    ensures Resolves(commands.entries, args) && parse.Parsed? && commands.entries[args[0]].process.None? ==>
      var cmd := commands.entries[args[0]];
      (code == 1 <==> cmd.runError.Some?) &&
      out == [Registered(args[0]), Processed(args[0]), Ran(args[0])] +
        (if Silent(cmd.flags, parse.given) then [] else [Print(cmd.output)]) +
        (if cmd.runError.Some? then [Println("! " + Message(cmd.runError.value))] else []) +
        DeferredUsage(cmd.runError, args[0])
  {
    if |args| == 0 {
      var names := GeneralHelp(commands);
      return 1, [Listing(names)];
    }
    if args[0] == "-h" || args[0] == "--help" {
      var names := GeneralHelp(commands);
      return 0, [Listing(names)];
    }
    if args[0] !in commands.entries {
      var names := GeneralHelp(commands);
      return 1, [Listing(names)];
    }
    var name := args[0];
    var cmd := commands.entries[name];
    out := [Registered(name)];

    var err: Option<Failure> := None;
    var output: string := "";
    var silent := true;
    var retval := 0;

    match parse {
      case ParseFailed(e) =>
        err := Some(e);
        if e != FlagHelp {
          out := out + [Println(Message(e))];
        }
        return 1, out + DeferredUsage(err, name);
      case Parsed(given) =>
        var silentFlag := FlagValue(cmd.flags, given, "silent");
        if silentFlag.Some? && silentFlag.value == "false" {
          silent := false;
        }
    }

    out := out + [Processed(name)];
    err := cmd.process;
    if err.Some? {
      out := out + [Println(Message(err.value))];
      return 1, out + DeferredUsage(err, name);
    }

    out := out + [Ran(name)];
    output, err := cmd.output, cmd.runError;
    if err.Some? {
      retval := 1;
    }
    if !silent {
      out := out + [Print(output)];
    }
    if err.Some? {
      out := out + [Println("! " + Message(err.value))];
    }
    return retval, out + DeferredUsage(err, name);
  }
}
