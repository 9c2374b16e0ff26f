/**
 * The third revision of the command-line layer (`Cli.h`): commands form a
 * tree in which every child links back to its parent, and a `Context` keeps
 * the command argv reaches together with the flags of every command on the
 * way, by long name and, for the flags that have one, by short name.
 */
module CliTree {
  import opened Text

  /** A flag declaration; `Flag(name, description)` leaves the short name and the default empty. */
  datatype Flag = Flag(name: string, description: string, shortName: string, defaultValue: string)

  /** A positional argument declaration. */
  datatype Argument = Argument(name: string, description: string)

  /** Every flag sits under its own name, as `addOption` stores it. */
  predicate FlagsKeyed(flags: map<string, Flag>)
  {
    forall k :: k in flags ==> flags[k].name == k
  }

  class Command {
    const name: string
    const description: string
    var parent: Command?
    var commands: map<string, Command>
    var flags: map<string, Flag>
    var arguments: map<string, Argument>

    /** Each child, flag and argument sits under its own name. */
    predicate Keyed()
      reads this`commands, this`flags, this`arguments
    {
      && (forall k :: k in commands ==> commands[k].name == k)
      && FlagsKeyed(flags)
      && (forall k :: k in arguments ==> arguments[k].name == k)
    }

    /** `Command(name, description)`: no parent, no children, flags or arguments. */
    constructor (name: string, description: string)
      ensures this.name == name && this.description == description
      ensures parent == null && commands == map[] && flags == map[] && arguments == map[]
      ensures Keyed()
    {
      this.name, this.description := name, description;
      parent, commands, flags, arguments := null, map[], map[], map[];
    }

    /** `findCommand`: the child of that name, or null when there is none. */
    function FindCommand(n: string): (r: Command?)
      reads this`commands
      ensures r == null <==> n !in commands
      ensures r != null ==> r == commands[n]
      ensures r != null && Keyed() ==> r.name == n
    {
      if n in commands then commands[n] else null
    }

    /**
     * `addCommand`: a fresh child under its name (asserted new) whose
     * parent link is this command; `findCommand` then returns it.
     */
    method AddCommand(n: string, d: string) returns (c: Command)
      requires Keyed() && n !in commands
      modifies this`commands
      ensures Keyed() && c.Keyed()
      ensures fresh(c) && c.name == n && c.description == d
      ensures c.parent == this && c.commands == map[] && c.flags == map[] && c.arguments == map[]
      ensures commands == old(commands)[n := c]
      ensures FindCommand(n) == c
      ensures old(ChildrenLinked(this)) ==> ChildrenLinked(this)
    {
      c := new Command(n, d);
      commands := commands[n := c];
      c.parent := this;
    }

    /** `addFlag`: a flag under its name (asserted new), without a short name or a default. */
    method AddFlag(n: string, d: string) returns (f: Flag)
      requires Keyed() && n !in flags
      modifies this`flags
      ensures Keyed()
      ensures f == Flag(n, d, "", "") && flags == old(flags)[n := f]
    {
      f := Flag(n, d, "", "");
      flags := flags[n := f];
    }

    /** `addArgument`: an argument under its name (asserted new). */
    method AddArgument(n: string, d: string) returns (a: Argument)
      requires Keyed() && n !in arguments
      modifies this`arguments
      ensures Keyed()
      ensures a == Argument(n, d) && arguments == old(arguments)[n := a]
    {
      a := Argument(n, d);
      arguments := arguments[n := a];
    }

    /** `shortName(s)` on the stored flag `n`: only its short name changes. */
    method SetFlagShortName(n: string, s: string)
      requires Keyed() && n in flags
      modifies this`flags
      ensures Keyed()
      ensures flags == old(flags)[n := old(flags)[n].(shortName := s)]
    {
      flags := flags[n := flags[n].(shortName := s)];
    }

    /** `defaultValue(v)` on the stored flag `n`: only its default changes. */
    method SetFlagDefaultValue(n: string, v: string)
      requires Keyed() && n in flags
      modifies this`flags
      ensures Keyed()
      ensures flags == old(flags)[n := old(flags)[n].(defaultValue := v)]
    {
      flags := flags[n := flags[n].(defaultValue := v)];
    }
  }

  // ---------------------------------------------------------------------
  // merge
  // ---------------------------------------------------------------------

  /** No two flags share a (non-empty) short name. */
  predicate ShortNamesUnique(flags: map<string, Flag>)
  {
    forall k1, k2 :: k1 in flags && k2 in flags && flags[k1].shortName != "" && flags[k1].shortName == flags[k2].shortName ==> k1 == k2
  }

  /**
   * Merging `flags` into maps holding `byName` and `byShortName` trips none
   * of `merge`'s asserts: every name is new, and so is every non-empty short
   * name, within the command as well as against the maps.
   */
  predicate MergeAdmits(byName: map<string, Flag>, byShortName: map<string, Flag>, flags: map<string, Flag>)
  {
    && flags.Keys !! byName.Keys
    && ShortNamesUnique(flags)
    && forall k :: k in flags && flags[k].shortName != "" ==> flags[k].shortName !in byShortName
  }

  /**
   * `byShortName` is `base` with the flags of `flags` outside `rest` added
   * under their short names: `base` is kept, each of those flags that has a
   * short name is found under it, and nothing else is there.
   */
  predicate ShortIndexed(byShortName: map<string, Flag>, base: map<string, Flag>, flags: map<string, Flag>, rest: set<string>)
  {
    && (forall s :: s in base ==> s in byShortName && byShortName[s] == base[s])
    && (forall k :: k in flags && k !in rest && flags[k].shortName != "" ==>
          flags[k].shortName in byShortName && byShortName[flags[k].shortName] == flags[k])
    && (forall s :: s in byShortName ==> s in base || exists k :: k in flags && k !in rest && flags[k].shortName == s && s != "")
  }

  /** `byName` is `base` with the flags of `flags` outside `rest` added under their names. */
  predicate NameIndexed(byName: map<string, Flag>, base: map<string, Flag>, flags: map<string, Flag>, rest: set<string>)
  {
    && byName.Keys == base.Keys + (flags.Keys - rest)
    && forall k :: k in byName ==> byName[k] == if k in base then base[k] else flags[k]
  }

  /** A turn of `merge` on the long names: the flag's name is new, and inserting it visits it. */
  lemma NameTurn(byName: map<string, Flag>, base: map<string, Flag>, flags: map<string, Flag>, rest: set<string>, k: string)
    requires FlagsKeyed(flags) && flags.Keys !! base.Keys && NameIndexed(byName, base, flags, rest) && k in rest && rest <= flags.Keys
    ensures flags[k].name !in byName
    ensures NameIndexed(byName[flags[k].name := flags[k]], base, flags, rest - {k})
  {
  }

  /** Once every flag is visited, the long-name map is `base` plus the flags. */
  lemma NameIndexedAll(byName: map<string, Flag>, base: map<string, Flag>, flags: map<string, Flag>)
    requires flags.Keys !! base.Keys && NameIndexed(byName, base, flags, {})
    ensures byName == base + flags
  {
  }

  /** A turn of `merge` on the short names: a non-empty short name is new, and inserting under it visits the flag. */
  lemma ShortTurn(byShortName: map<string, Flag>, base: map<string, Flag>, flags: map<string, Flag>, rest: set<string>, k: string)
    requires ShortNamesUnique(flags) && (forall j :: j in flags && flags[j].shortName != "" ==> flags[j].shortName !in base)
    requires ShortIndexed(byShortName, base, flags, rest) && k in rest && rest <= flags.Keys
    ensures flags[k].shortName != "" ==> flags[k].shortName !in byShortName
    ensures var f := flags[k];
      ShortIndexed(if f.shortName != "" then byShortName[f.shortName := f] else byShortName, base, flags, rest - {k})
  {
  }

  // ---------------------------------------------------------------------
  // The chain of commands `build` merges
  // ---------------------------------------------------------------------

  /** The argv tokens after the program name; none when argv is empty. */
  function Tokens(arguments: seq<string>): (r: seq<string>)
    ensures |r| == if arguments == [] then 0 else |arguments| - 1
    ensures forall i :: 0 <= i < |r| ==> r[i] == arguments[i + 1]
  {
    if arguments == [] then [] else arguments[1..]
  }

  /** `path` starts at `root`, and each next command is the child the next word names. */
  predicate Chain(path: seq<Command>, root: Command, words: seq<string>)
    reads path
  {
    && |path| >= 1 && path[0] == root && |path| - 1 <= |words|
    && forall k {:trigger words[k]} :: 0 <= k < |path| - 1 ==> words[k] in path[k].commands && path[k].commands[words[k]] == path[k + 1]
  }

  /** A chain that stopped where it had to: no word left, or the next word names no child. */
  predicate Descends(path: seq<Command>, root: Command, words: seq<string>)
    reads path
  {
    Chain(path, root, words) && (|path| - 1 < |words| ==> words[|path| - 1] !in path[|path| - 1].commands)
  }

  /** Along a stopped chain, the word at each step names the next command, and at the end names none. */
  lemma DescentStep(path: seq<Command>, root: Command, words: seq<string>, n: nat)
    requires Descends(path, root, words) && 1 <= n <= |path| && n - 1 < |words|
    ensures words[n - 1] in path[n - 1].commands <==> n < |path|
    ensures n < |path| ==> path[n - 1].commands[words[n - 1]] == path[n]
  {
  }

  /**
   * Merging the flags `fms` of the commands along a path, in order, trips
   * no assert: within each command the short names are unique, and no name
   * or non-empty short name occurs in two of them.
   */
  /** No flag name is declared by two commands of the path. */
  predicate NamesDisjoint(fms: seq<map<string, Flag>>)
  {
    forall i, j, k :: 0 <= i < j < |fms| && k in fms[j] ==> k !in fms[i]
  }

  predicate PathAdmits(fms: seq<map<string, Flag>>)
  {
    && (forall j :: 0 <= j < |fms| ==> FlagsKeyed(fms[j]) && ShortNamesUnique(fms[j]))
    && NamesDisjoint(fms)
    && (forall i, j, k1, k2 :: 0 <= i < j < |fms| && k1 in fms[i] && k2 in fms[j] && fms[i][k1].shortName != "" ==>
          fms[i][k1].shortName != fms[j][k2].shortName)
  }

  /**
   * The maps hold the flags of the first `n` commands: every one under its
   * name, every one with a short name under it, and nothing else.
   */
  predicate Registers(byName: map<string, Flag>, byShortName: map<string, Flag>, fms: seq<map<string, Flag>>, n: nat)
  {
    n <= |fms| && NamesRegistered(byName, fms, n) && ShortNamesRegistered(byShortName, fms, n)
  }

  /** The next command's flags are admitted by maps that hold the commands before it. */
  lemma RegistersAdmit(byName: map<string, Flag>, byShortName: map<string, Flag>, fms: seq<map<string, Flag>>, n: nat)
    requires PathAdmits(fms) && n < |fms| && Registers(byName, byShortName, fms, n)
    ensures FlagsKeyed(fms[n]) && MergeAdmits(byName, byShortName, fms[n])
  {
  }

  /** The long-name half of `Registers`. */
  predicate NamesRegistered(byName: map<string, Flag>, fms: seq<map<string, Flag>>, n: nat)
    requires n <= |fms|
  {
    && (forall k :: k in byName ==> exists j :: 0 <= j < n && k in fms[j])
    && (forall j, k :: 0 <= j < n && k in fms[j] ==> k in byName && byName[k] == fms[j][k])
  }

  /** The short-name half of `Registers`. */
  predicate ShortNamesRegistered(byShortName: map<string, Flag>, fms: seq<map<string, Flag>>, n: nat)
    requires n <= |fms|
  {
    && (forall s :: s in byShortName ==> exists j, k :: 0 <= j < n && k in fms[j] && fms[j][k].shortName == s && s != "")
    && (forall j, k :: 0 <= j < n && k in fms[j] && fms[j][k].shortName != "" ==>
          fms[j][k].shortName in byShortName && byShortName[fms[j][k].shortName] == fms[j][k])
  }

  /** Every long name in the extended map comes from one of the first `n + 1` commands. */
  lemma NameKeysNext(byName: map<string, Flag>, fms: seq<map<string, Flag>>, n: nat)
    requires n < |fms| && NamesRegistered(byName, fms, n)
    ensures forall k :: k in byName + fms[n] ==> exists j :: 0 <= j < n + 1 && k in fms[j]
  {
    forall k | k in byName + fms[n]
      ensures exists j :: 0 <= j < n + 1 && k in fms[j]
    {
      if k !in fms[n] {
        var j :| 0 <= j < n && k in fms[j];
      }
    }
  }

  /** Every flag of the first `n + 1` commands is in the extended map under its name. */
  lemma NameValuesNext(byName: map<string, Flag>, fms: seq<map<string, Flag>>, n: nat)
    requires NamesDisjoint(fms) && n < |fms| && NamesRegistered(byName, fms, n)
    ensures forall j, k :: 0 <= j < n + 1 && k in fms[j] ==> k in byName + fms[n] && (byName + fms[n])[k] == fms[j][k]
  {
    forall j, k | 0 <= j < n + 1 && k in fms[j]
      ensures k in byName + fms[n] && (byName + fms[n])[k] == fms[j][k]
    {
      if j < n {
        assert k !in fms[n];
      }
    }
  }

  /** Merging the next command's flags by name extends the long-name map to the first `n + 1` commands. */
  lemma NamesNext(byName: map<string, Flag>, fms: seq<map<string, Flag>>, n: nat)
    requires NamesDisjoint(fms) && n < |fms| && NamesRegistered(byName, fms, n)
    ensures NamesRegistered(byName + fms[n], fms, n + 1)
  {
    NameKeysNext(byName, fms, n);
    NameValuesNext(byName, fms, n);
  }

  /** Merging the next command's flags by short name extends the short-name map to the first `n + 1` commands. */
  lemma ShortNamesNext(byShortName: map<string, Flag>, byShortName2: map<string, Flag>, fms: seq<map<string, Flag>>, n: nat)
    requires n < |fms| && ShortNamesRegistered(byShortName, fms, n)
    requires ShortIndexed(byShortName2, byShortName, fms[n], {})
    ensures ShortNamesRegistered(byShortName2, fms, n + 1)
  {
    forall s | s in byShortName2
      ensures exists j, k :: 0 <= j < n + 1 && k in fms[j] && fms[j][k].shortName == s && s != ""
    {
      if s in byShortName {
        var j, k :| 0 <= j < n && k in fms[j] && fms[j][k].shortName == s && s != "";
      } else {
        var k :| k in fms[n] && fms[n][k].shortName == s && s != "";
      }
    }
    forall j, k | 0 <= j < n + 1 && k in fms[j] && fms[j][k].shortName != ""
      ensures fms[j][k].shortName in byShortName2 && byShortName2[fms[j][k].shortName] == fms[j][k]
    {
      if j < n {
        assert fms[j][k].shortName in byShortName;
      }
    }
  }

  /** Merging the next command extends the maps to the first `n + 1` commands. */
  lemma RegistersNext(byName: map<string, Flag>, byShortName: map<string, Flag>, byShortName2: map<string, Flag>,
                      fms: seq<map<string, Flag>>, n: nat)
    requires PathAdmits(fms) && n < |fms| && Registers(byName, byShortName, fms, n)
    requires ShortIndexed(byShortName2, byShortName, fms[n], {})
    ensures Registers(byName + fms[n], byShortName2, fms, n + 1)
  {
    NamesNext(byName, fms, n);
    ShortNamesNext(byShortName, byShortName2, fms, n);
  }

  /**
   * The token test of one turn of `build`'s loop, at token `i`, with `leaf`
   * the `n`-th command of `path`: a token starting with `-` is skipped; any
   * other names the next command of `path`, or names no child and stops the
   * descent at the end of `path`.
   */
  method NextCommand(leaf: Command, arguments: seq<string>, i: nat, root: Command, ghost path: seq<Command>, ghost n: nat)
      returns (c: Command?, stop: bool)
    requires NonEmptyTokens(Tokens(arguments)) && 1 <= i < |arguments|
    requires Descends(path, root, PlainTokens(Tokens(arguments)))
    requires 1 <= n <= |path| && leaf == path[n - 1] && n - 1 == |PlainTokens(Tokens(arguments)[..i - 1])|
    ensures c != null ==> !stop && n < |path| && c == path[n] && n == |PlainTokens(Tokens(arguments)[..i])|
    ensures stop ==> c == null && n == |path|
    ensures c == null && !stop ==> n - 1 == |PlainTokens(Tokens(arguments)[..i])|
  {
    ghost var toks := Tokens(arguments);
    NextToken(toks, i - 1);
    c, stop := null, false;
    if arguments[i][0] != '-' {
      DescentStep(path, root, PlainTokens(toks), n);
      c := leaf.FindCommand(arguments[i]);
      stop := c == null;
    }
  }

  class Context {
    /** `m_leafCommand`, which `command()` returns; the default constructor leaves it unset. */
    var leafCommand: Command?
    var flagsByName: map<string, Flag>
    var flagsByShortName: map<string, Flag>

    constructor ()
      ensures leafCommand == null && flagsByName == map[] && flagsByShortName == map[]
    {
      leafCommand, flagsByName, flagsByShortName := null, map[], map[];
    }

    /**
     * `merge`: the command becomes the leaf, and each of its flags, in
     * whatever order the hash map yields them, goes in under its name and,
     * when it has one, under its short name, each asserted new.
     */
    method Merge(command: Command)
      requires FlagsKeyed(command.flags) && MergeAdmits(flagsByName, flagsByShortName, command.flags)
      modifies this`leafCommand, this`flagsByName, this`flagsByShortName
      ensures leafCommand == command
      ensures flagsByName == old(flagsByName) + command.flags
      ensures ShortIndexed(flagsByShortName, old(flagsByShortName), command.flags, {})
    {
      leafCommand := command;
      var byName, byShortName := flagsByName, flagsByShortName;
      var rest := command.flags.Keys;
      while rest != {}
        invariant rest <= command.flags.Keys
        invariant leafCommand == command
        invariant NameIndexed(byName, old(flagsByName), command.flags, rest)
        invariant ShortIndexed(byShortName, old(flagsByShortName), command.flags, rest)
        decreases |rest|
      {
        var k :| k in rest;
        NameTurn(byName, old(flagsByName), command.flags, rest, k);
        ShortTurn(byShortName, old(flagsByShortName), command.flags, rest, k);
        var flag := command.flags[k];
        // Both duplicate asserts hold, by the two turn lemmas.
        byName := byName[flag.name := flag];
        if flag.shortName != "" {
          byShortName := byShortName[flag.shortName := flag];
        }
        rest := rest - {k};
      }
      NameIndexedAll(byName, old(flagsByName), command.flags);
      flagsByName, flagsByShortName := byName, byShortName;
    }

    /** The merge of the `n`-th command of a path whose merges trip no assert. */
    method MergeNext(command: Command, ghost fms: seq<map<string, Flag>>, ghost n: nat)
      requires PathAdmits(fms) && n < |fms| && fms[n] == command.flags
      requires Registers(flagsByName, flagsByShortName, fms, n)
      modifies this`leafCommand, this`flagsByName, this`flagsByShortName
      ensures leafCommand == command
      ensures Registers(flagsByName, flagsByShortName, fms, n + 1)
    {
      RegistersAdmit(flagsByName, flagsByShortName, fms, n);
      Merge(command);
      RegistersNext(old(flagsByName), old(flagsByShortName), flagsByShortName, fms, n);
    }

    /** One turn of `build`'s loop, at token `i`: the next command of `path`, if the token names one, is merged. */
    method Turn(arguments: seq<string>, i: nat, root: Command, ghost path: seq<Command>, ghost fms: seq<map<string, Flag>>, ghost n: nat)
        returns (stop: bool, ghost m: nat)
      requires NonEmptyTokens(Tokens(arguments)) && 1 <= i < |arguments|
      requires Descends(path, root, PlainTokens(Tokens(arguments)))
      requires |fms| == |path| && forall j {:trigger path[j]} :: 0 <= j < |path| ==> fms[j] == path[j].flags
      requires PathAdmits(fms)
      requires 1 <= n <= |path| && leafCommand == path[n - 1] && n - 1 == |PlainTokens(Tokens(arguments)[..i - 1])|
      requires Registers(flagsByName, flagsByShortName, fms, n)
      modifies this`leafCommand, this`flagsByName, this`flagsByShortName
      ensures 1 <= m <= |path| && leafCommand == path[m - 1]
      ensures Registers(flagsByName, flagsByShortName, fms, m)
      ensures stop ==> m == |path|
      ensures !stop ==> m - 1 == |PlainTokens(Tokens(arguments)[..i])|
    {
      var c;
      c, stop := NextCommand(leafCommand, arguments, i, root, path, n);
      m := n;
      if c != null {
        MergeNext(c, fms, n);
        m := n + 1;
      }
    }

    /**
     * `build`: the root is merged, then each argv token not starting with
     * `-` that names a child of the current leaf merges that child; the
     * first token naming none ends the descent. `path` is the chain the
     * tokens reach and `fms` the flags of its commands; their merges must
     * trip no assert.
     */
    static method Build(arguments: seq<string>, command: Command, ghost path: seq<Command>, ghost fms: seq<map<string, Flag>>)
        returns (ctx: Context)
      requires NonEmptyTokens(Tokens(arguments))
      requires Descends(path, command, PlainTokens(Tokens(arguments)))
      requires |fms| == |path| && forall j {:trigger path[j]} :: 0 <= j < |path| ==> fms[j] == path[j].flags
      requires PathAdmits(fms)
      ensures fresh(ctx) && ctx.leafCommand == path[|path| - 1]
      ensures Registers(ctx.flagsByName, ctx.flagsByShortName, fms, |fms|)
    {
      ghost var toks := Tokens(arguments);
      ctx := new Context();
      ctx.MergeNext(command, fms, 0);
      ghost var n := 1;
      var i := 1;
      var stop := false;
      while i < |arguments| && !stop
        invariant 1 <= i && i - 1 <= |toks|
        invariant 1 <= n <= |path| && ctx.leafCommand == path[n - 1]
        invariant Registers(ctx.flagsByName, ctx.flagsByShortName, fms, n)
        invariant stop ==> n == |path|
        invariant !stop ==> n - 1 == |PlainTokens(toks[..i - 1])|
      {
        stop, n := ctx.Turn(arguments, i, command, path, fms, n);
        i := i + 1;
      }
      if !stop {
        assert toks[..i - 1] == toks;
      }
    }

    /**
     * The two parent walks of `printUsage`: up from the leaf to the root,
     * the command without a parent; then the names of the commands below
     * the root, collected leaf first and reversed. `chain` is the leaf's
     * parent chain.
     */
    method UsageWords(ghost chain: seq<Command>) returns (root: Command, words: seq<string>)
      requires ParentChain(chain) && chain[0] == leafCommand
      ensures root == chain[|chain| - 1] && root.parent == null
      ensures |words| == |chain| - 1
      ensures forall i :: 0 <= i < |words| ==> words[i] == chain[|chain| - 2 - i].name
    {
      root := leafCommand;
      ghost var n := 0;
      while root.parent != null
        invariant 0 <= n < |chain| && root == chain[n]
        decreases |chain| - n
      {
        root := root.parent;
        n := n + 1;
      }
      ParentChainEnd(chain, n);
      var list: seq<string> := [];
      var current: Command := leafCommand;
      n := 0;
      while current.parent != null
        invariant 0 <= n < |chain| && current == chain[n]
        invariant |list| == n && forall i :: 0 <= i < n ==> list[i] == chain[i].name
        decreases |chain| - n
      {
        list := list + [current.name];
        current := current.parent;
        n := n + 1;
      }
      ParentChainEnd(chain, n);
      words := Reversed(list);
    }

    /**
     * "Available commands": one row per child of the leaf, in the order
     * `order` the hash map yields them: two spaces, the name padded to the
     * longest name plus two, then the description.
     */
    method CommandRows(order: seq<string>) returns (rows: seq<string>, column: nat)
      requires leafCommand != null && Enumerates(order, leafCommand.commands.Keys)
      ensures |rows| == |order|
      ensures order != [] ==> exists i :: 0 <= i < |order| && column == |leafCommand.commands[order[i]].name| + 4
      ensures forall i :: 0 <= i < |rows| ==>
          && |leafCommand.commands[order[i]].name| + 4 <= column <= |rows[i]|
          && rows[i][..column] == "  " + leafCommand.commands[order[i]].name + Repeat(' ', column - 2 - |leafCommand.commands[order[i]].name|)
          && rows[i][column..] == leafCommand.commands[order[i]].description
    {
      var children := leafCommand.commands;
      var names := seq(|order|, i requires 0 <= i < |order| => children[order[i]].name);
      var descriptions := seq(|order|, i requires 0 <= i < |order| => children[order[i]].description);
      rows, column := NameRows(names, descriptions);
      assert forall i :: 0 <= i < |order| ==> names[i] == children[order[i]].name && descriptions[i] == children[order[i]].description;
    }

    /**
     * "Available flags": one row per flag merged, in the order `order` the
     * hash map yields them: the label padded to the longest label plus two,
     * then the description.
     */
    method FlagRows(order: seq<string>) returns (rows: seq<string>, column: nat)
      requires Enumerates(order, flagsByName.Keys)
      ensures |rows| == |order|
      ensures order != [] ==> exists i :: 0 <= i < |order| && column == |FlagLabel(flagsByName[order[i]])| + 2
      ensures forall i :: 0 <= i < |rows| ==>
          && |FlagLabel(flagsByName[order[i]])| + 2 <= column <= |rows[i]|
          && rows[i][..column] == FlagLabel(flagsByName[order[i]]) + Repeat(' ', column - |FlagLabel(flagsByName[order[i]])|)
          && rows[i][column..] == flagsByName[order[i]].description
    {
      var flags := flagsByName;
      var labels := seq(|order|, i requires 0 <= i < |order| => FlagLabel(flags[order[i]]));
      var descriptions := seq(|order|, i requires 0 <= i < |order| => flags[order[i]].description);
      rows, column := LabelRows(labels, descriptions);
      assert forall i :: 0 <= i < |order| ==> labels[i] == FlagLabel(flags[order[i]]) && descriptions[i] == flags[order[i]].description;
    }
  }

  // ---------------------------------------------------------------------
  // printUsage
  // ---------------------------------------------------------------------

  /**
   * `chain` is a command's line of ancestors: each entry's parent is the
   * next one, and the last, the root, has none.
   */
  predicate ParentChain(chain: seq<Command>)
    reads chain
  {
    && |chain| >= 1 && chain[|chain| - 1].parent == null
    && forall i :: 0 <= i < |chain| - 1 ==> chain[i].parent == chain[i + 1]
  }

  /** Only the root of a parent chain has no parent. */
  lemma ParentChainEnd(chain: seq<Command>, n: nat)
    requires ParentChain(chain) && n < |chain|
    ensures chain[n].parent == null <==> n == |chain| - 1
  {
    assert n < |chain| - 1 ==> chain[n].parent == chain[n + 1];
  }

  /** Every child links back to this command, as `addCommand` leaves it. */
  predicate ChildrenLinked(c: Command)
    reads c, c.commands.Values
  {
    forall k :: k in c.commands ==> c.commands[k].parent == c
  }

  /** The path `build` walks down from a root, read backwards, is the leaf's parent chain. */
  lemma ParentChainOfPath(path: seq<Command>, root: Command, words: seq<string>)
    requires Chain(path, root, words) && root.parent == null
    requires forall i :: 0 <= i < |path| ==> ChildrenLinked(path[i])
    ensures ParentChain(Reversed(path))
  {
    var chain := Reversed(path);
    forall i | 0 <= i < |chain| - 1
      ensures chain[i].parent == chain[i + 1]
    {
      var k := |path| - 2 - i;
      assert path[k].commands[words[k]] == path[k + 1];
    }
  }

  /**
   * Along the path `build` walks, the commands below the root, read root
   * side first off the reversed path, bear the words that named them.
   */
  lemma UsageWordsOfPath(path: seq<Command>, root: Command, words: seq<string>)
    requires Chain(path, root, words)
    requires forall i :: 0 <= i < |path| ==> path[i].Keyed()
    ensures forall i :: 0 <= i < |path| - 1 ==> Reversed(path)[|path| - 2 - i].name == words[i]
  {
    forall i | 0 <= i < |path| - 1
      ensures Reversed(path)[|path| - 2 - i].name == words[i]
    {
      assert path[i].commands[words[i]] == path[i + 1];
    }
  }

  /** The left column of an "Available flags" row: `  --name`, then `, -short` when there is one. */
  function FlagLabel(f: Flag): (r: string)
    ensures StartsWith(r, "  --" + f.name)
    ensures f.shortName == [] <==> r == "  --" + f.name
  {
    "  --" + f.name + (if f.shortName == [] then "" else ", -" + f.shortName)
  }
}
