/**
 * The command registry of package cli (pkg/register.go). A Go map is a
 * reference: every holder of it sees every update, so it is modelled as an
 * object whose `entries` the operations reassign.
 */
module Registry {
  /** The package-level `commands` map, from a command's dotted name to the command. */
  class CommandMap<C> {
    var entries: map<string, C>

    /** `map[string]Command{}`: the registry starts empty. */
    constructor ()
      ensures entries == map[]
    {
      entries := map[];
    }
  }

  /**
   * Stores c under name, replacing whatever was there: the last registration
   * of a name wins, and no other name is affected.
   */
  method Register<C>(commands: CommandMap<C>, name: string, c: C)
    modifies commands
    ensures name in commands.entries && commands.entries[name] == c
    ensures commands.entries.Keys == old(commands.entries.Keys) + {name}
    ensures forall n :: n in old(commands.entries) && n != name ==> commands.entries[n] == old(commands.entries)[n]
  {
    commands.entries := commands.entries[name := c];
  }

  /** Hands out the registry itself, not a copy: later registrations show through it. */
  method List<C>(commands: CommandMap<C>) returns (m: CommandMap<C>)
    ensures m == commands
  {
    m := commands;
  }
}
