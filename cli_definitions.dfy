/**
 * The definition classes of the `CommandLine` revision of ply-cli
 * (Definitions.h / Definitions.cpp): flags and options with an optional
 * short name, arguments with a `required` mark, and command definitions
 * that own their flags, options and arguments in declaration order and
 * their sub-commands keyed by name.
 */
module CliDefinitions {

  /**
   * `FlagDefinition` and `OptionDefinition` (both `DefinitionWithShortName`):
   * name and description are fixed when the definition is made, the short
   * name starts empty and is set afterwards.
   */
  class ShortNamedDefinition {
    const name: string
    const description: string
    var shortName: string

    constructor (name: string, description: string)
      ensures this.name == name && this.description == description
      ensures shortName == ""
    {
      this.name := name;
      this.description := description;
      shortName := "";
    }

    /** `setShortName`: only the short name changes; the definition itself is returned for chaining. */
    method SetShortName(shortName: string) returns (self: ShortNamedDefinition)
      modifies this`shortName
      ensures this.shortName == shortName
      ensures self == this
    {
      this.shortName := shortName;
      self := this;
    }
  }

  /** `ArgumentDefinition`: a named positional, not required until `setRequired(true)`. */
  class ArgumentDefinition {
    const name: string
    const description: string
    var required: bool

    constructor (name: string, description: string)
      ensures this.name == name && this.description == description
      ensures !required
    {
      this.name := name;
      this.description := description;
      required := false;
    }

    /** `setRequired(b)`: afterwards `isRequired()` answers `b`. */
    method SetRequired(required: bool) returns (self: ArgumentDefinition)
      modifies this`required
      ensures this.required == required
      ensures self == this
    {
      this.required := required;
      self := this;
    }
  }

  /**
   * `CommandDefinition`. The sub-command table is keyed by each
   * sub-command's own name (its traits compare by `name()`), which `Valid`
   * records.
   */
  class CommandDefinition {
    const name: string
    const description: string
    var flags: seq<ShortNamedDefinition>
    var options: seq<ShortNamedDefinition>
    var arguments: seq<ArgumentDefinition>
    var subCommands: map<string, CommandDefinition>

    ghost predicate Valid()
      reads this`subCommands
    {
      forall n :: n in subCommands ==> subCommands[n].name == n
    }

    /** A definition with nothing declared yet. */
    ghost predicate Empty()
      reads this
    {
      flags == [] && options == [] && arguments == [] && subCommands == map[]
    }

    /** The default constructor the hash map needs: empty name and description. */
    constructor Default()
      ensures Valid() && Empty()
      ensures name == "" && description == ""
    {
      name := "";
      description := "";
      flags := [];
      options := [];
      arguments := [];
      subCommands := map[];
    }

    constructor (name: string, description: string)
      ensures Valid() && Empty()
      ensures this.name == name && this.description == description
    {
      this.name := name;
      this.description := description;
      flags := [];
      options := [];
      arguments := [];
      subCommands := map[];
    }

    /** `addFlag`: appends a new flag (no check for duplicates) and returns it. */
    method AddFlag(name: string, description: string) returns (flag: ShortNamedDefinition)
      modifies this`flags
      ensures fresh(flag)
      ensures flag.name == name && flag.description == description && flag.shortName == ""
      ensures flags == old(flags) + [flag]
    {
      flag := new ShortNamedDefinition(name, description);
      flags := flags + [flag];
    }

    /** `addOption`: appends a new option (no check for duplicates) and returns it. */
    method AddOption(name: string, description: string) returns (option: ShortNamedDefinition)
      modifies this`options
      ensures fresh(option)
      ensures option.name == name && option.description == description && option.shortName == ""
      ensures options == old(options) + [option]
    {
      option := new ShortNamedDefinition(name, description);
      options := options + [option];
    }

    /** `addArgument`: appends a new, not required argument (no check for duplicates) and returns it. */
    method AddArgument(name: string, description: string) returns (argument: ArgumentDefinition)
      modifies this`arguments
      ensures fresh(argument)
      ensures argument.name == name && argument.description == description && !argument.required
      ensures arguments == old(arguments) + [argument]
    {
      argument := new ArgumentDefinition(name, description);
      arguments := arguments + [argument];
    }

    /**
     * `addSubCommand`: the name must be new (asserted); a fresh, empty
     * definition with exactly that name and description is stored under it.
     */
    method AddSubCommand(name: string, description: string) returns (command: CommandDefinition)
      requires Valid()
      requires name !in subCommands
      modifies this`subCommands
      ensures Valid()
      ensures fresh(command) && command.Valid() && command.Empty()
      ensures command.name == name && command.description == description
      ensures subCommands == old(subCommands)[name := command]
    {
      command := new CommandDefinition(name, description);
      subCommands := subCommands[name := command];
    }

    /** `findCommand`: the sub-command stored under `name`, or null when there is none. */
    function FindCommand(name: string): (r: CommandDefinition?)
      reads this`subCommands
      ensures r == null <==> name !in subCommands
      ensures r != null ==> r == subCommands[name]
      ensures r != null && Valid() ==> r.name == name
    {
      if name in subCommands then subCommands[name] else null
    }
  }

  /**
   * The sequence exercised by the definition tests: a chained
   * `setShortName`/`setRequired` on freshly added declarations changes
   * only that field, and an added sub-command is found under its name
   * while any other name is not.
   */
  method DeclareAndFind(command: CommandDefinition, sub: string, other: string)
      returns (flag: ShortNamedDefinition, argument: ArgumentDefinition, found: CommandDefinition?, missing: CommandDefinition?)
    requires command.Valid() && command.Empty()
    requires sub != other
    modifies command
    ensures flag.name == "flag1" && flag.description == "description1" && flag.shortName == "f1"
    ensures argument.name == "argument1" && argument.description == "description1" && argument.required
    ensures found != null && found.name == sub && found.Empty()
    ensures missing == null
  {
    var f := command.AddFlag("flag1", "description1");
    flag := f.SetShortName("f1");
    var a := command.AddArgument("argument1", "description1");
    argument := a.SetRequired(true);
    var c := command.AddSubCommand(sub, "subCommandDescription");
    found := command.FindCommand(sub);
    missing := command.FindCommand(other);
  }
}
