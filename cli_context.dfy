/**
 * The `ply-cli` revision in Context.cpp / Context.h: a context built from a
 * command tree and argv. It merges every matched command's option and
 * argument declarations, sorts argv into options and positionals, fills the
 * option values and binds positionals to declared arguments by index.
 *
 * The command tree is read-only while parsing, so it is a datatype; the
 * context's hash maps and arrays are fields of a class that its methods
 * reassign. A pointer from the short-name map to an option value is the
 * option's long name, the key of that value in `optionsByName`.
 */
module CliContext {
  import opened Common
  import opened Text

  datatype OptionDef = OptionDef(name: string, shortName: string, description: string, defaultValue: string)

  datatype ArgumentDef = ArgumentDef(name: string, description: string, defaultValue: string)

  datatype Command = Command(
    name: string,
    description: string,
    options: seq<OptionDef>,
    arguments: seq<ArgumentDef>,
    subCommands: map<string, Command>)

  // ---------------------------------------------------------------------
  // Context.h: parsed values
  // ---------------------------------------------------------------------

  datatype OptionValue = OptionValue(definition: OptionDef, value: string, present: bool)
  {
    /** The stored value when one was given, the declared default otherwise. */
    function Value(): (r: string)
      ensures value != [] ==> r == value
      ensures value == [] ==> r == definition.defaultValue
      ensures r == [] <==> value == [] && definition.defaultValue == []
    {
      if value == [] then definition.defaultValue else value
    }

    /** `to<T>()` converts `value()`, so the default takes part. */
    function To<T>(convert: string -> T): T
    {
      convert(Value())
    }

    predicate IsPresent()
    {
      present
    }
  }

  datatype ArgumentValue = ArgumentValue(definition: ArgumentDef, value: string, present: bool)
  {
    /** The stored value when one was given, the declared default otherwise. */
    function Value(): (r: string)
      ensures value != [] ==> r == value
      ensures value == [] ==> r == definition.defaultValue
      ensures r == [] <==> value == [] && definition.defaultValue == []
    {
      if value == [] then definition.defaultValue else value
    }

    /** `to<T>()` converts the raw stored value: the default does not take part. */
    function To<T>(convert: string -> T): T
    {
      convert(value)
    }

    predicate IsPresent()
    {
      present
    }
  }

  /** `OptionValue(definition)`: empty and not present. */
  function NewOptionValue(d: OptionDef): OptionValue
  {
    OptionValue(d, "", false)
  }

  /** `ArgumentValue(definition)`: empty and not present. */
  function NewArgumentValue(d: ArgumentDef): ArgumentValue
  {
    ArgumentValue(d, "", false)
  }

  /** A value that was never parsed reads as its default and is not present. */
  lemma NewValuesReadAsDefault(o: OptionDef, a: ArgumentDef)
    ensures NewOptionValue(o).Value() == o.defaultValue && !NewOptionValue(o).IsPresent()
    ensures NewArgumentValue(a).Value() == a.defaultValue && !NewArgumentValue(a).IsPresent()
  {
  }

  /**
   * With nothing stored, an option converts its default while an argument
   * converts the empty string whatever its default.
   */
  lemma ToUsesDefaultOnlyForOptions<T>(o: OptionValue, a: ArgumentValue, convert: string -> T)
    requires o.value == [] && a.value == []
    ensures o.To(convert) == convert(o.definition.defaultValue)
    ensures a.To(convert) == convert([])
    ensures a.Value() == a.definition.defaultValue
  {
  }

  // ---------------------------------------------------------------------
  // Declarations gathered along the chain of merged commands
  // ---------------------------------------------------------------------

  /** The options of `chain`, in merge order. */
  function OptionsOf(chain: seq<Command>): seq<OptionDef>
  {
    if chain == [] then [] else OptionsOf(chain[..|chain| - 1]) + chain[|chain| - 1].options
  }

  /** The arguments of `chain`, in merge order. */
  function ArgumentsOf(chain: seq<Command>): seq<ArgumentDef>
  {
    if chain == [] then [] else ArgumentsOf(chain[..|chain| - 1]) + chain[|chain| - 1].arguments
  }

  /** The long names of `opts`. */
  function OptionNameSet(opts: seq<OptionDef>): set<string>
  {
    if opts == [] then {} else OptionNameSet(opts[..|opts| - 1]) + {opts[|opts| - 1].name}
  }

  /** No two of `opts` share a long name. */
  predicate OptionNamesUnique(opts: seq<OptionDef>)
  {
    opts == [] ||
    (OptionNamesUnique(opts[..|opts| - 1]) && opts[|opts| - 1].name !in OptionNameSet(opts[..|opts| - 1]))
  }

  /** The names of `args`, in declaration order: `m_argumentsByIndex`. */
  function ArgumentNames(args: seq<ArgumentDef>): seq<string>
  {
    if args == [] then [] else ArgumentNames(args[..|args| - 1]) + [args[|args| - 1].name]
  }

  function ArgumentNameSet(args: seq<ArgumentDef>): set<string>
  {
    if args == [] then {} else ArgumentNameSet(args[..|args| - 1]) + {args[|args| - 1].name}
  }

  /** No two of `args` share a name. */
  predicate ArgumentNamesUnique(args: seq<ArgumentDef>)
  {
    args == [] ||
    (ArgumentNamesUnique(args[..|args| - 1]) && args[|args| - 1].name !in ArgumentNameSet(args[..|args| - 1]))
  }

  /** The index of declared arguments lists each declared name at its position, once each. */
  lemma {:induction false} ArgumentIndexFacts(args: seq<ArgumentDef>)
    ensures |ArgumentNames(args)| == |args|
    ensures forall i :: 0 <= i < |args| ==> ArgumentNames(args)[i] == args[i].name
    ensures forall i :: 0 <= i < |args| ==> args[i].name in ArgumentNameSet(args)
    ensures forall n :: n in ArgumentNameSet(args) ==> exists i :: 0 <= i < |args| && args[i].name == n
    ensures ArgumentNamesUnique(args) ==> Distinct(ArgumentNames(args))
  {
    if args != [] {
      var init := args[..|args| - 1];
      ArgumentIndexFacts(init);
      assert forall i :: 0 <= i < |init| ==> init[i] == args[i];
    }
  }

  /** Every option's long name is in the set, and every name in the set belongs to an option. */
  lemma {:induction false} OptionNameSetFacts(opts: seq<OptionDef>)
    ensures forall i :: 0 <= i < |opts| ==> opts[i].name in OptionNameSet(opts)
    ensures forall n :: n in OptionNameSet(opts) ==> exists i :: 0 <= i < |opts| && opts[i].name == n
    ensures OptionNamesUnique(opts) ==> forall i, j :: 0 <= i < j < |opts| ==> opts[i].name != opts[j].name
  {
    if opts != [] {
      var init := opts[..|opts| - 1];
      OptionNameSetFacts(init);
      assert forall i :: 0 <= i < |init| ==> init[i] == opts[i];
    }
  }

  lemma {:induction false} OptionNameSetAppend(a: seq<OptionDef>, b: seq<OptionDef>)
    ensures OptionNameSet(a + b) == OptionNameSet(a) + OptionNameSet(b)
    decreases |b|
  {
    if b == [] {
      assert a + b == a;
    } else {
      assert (a + b)[..|a + b| - 1] == a + b[..|b| - 1];
      OptionNameSetAppend(a, b[..|b| - 1]);
    }
  }

  lemma {:induction false} ArgumentNamesAppend(a: seq<ArgumentDef>, b: seq<ArgumentDef>)
    ensures ArgumentNames(a + b) == ArgumentNames(a) + ArgumentNames(b)
    ensures ArgumentNameSet(a + b) == ArgumentNameSet(a) + ArgumentNameSet(b)
    decreases |b|
  {
    if b == [] {
      assert a + b == a;
    } else {
      assert (a + b)[..|a + b| - 1] == a + b[..|b| - 1];
      ArgumentNamesAppend(a, b[..|b| - 1]);
    }
  }

  /** What `mergeCommand`'s assertions demand of the merged chain: unique long names. */
  predicate MergeAssertsHold(chain: seq<Command>)
  {
    OptionNamesUnique(OptionsOf(chain)) && ArgumentNamesUnique(ArgumentsOf(chain))
  }

  /** Unique names over `a + b` means unique within each part and no name shared between them. */
  lemma {:induction false} OptionNamesUniqueAppend(a: seq<OptionDef>, b: seq<OptionDef>)
    ensures OptionNamesUnique(a + b)
      <==> OptionNamesUnique(a) && OptionNamesUnique(b) && OptionNameSet(a) !! OptionNameSet(b)
    decreases |b|
  {
    if b == [] {
      assert a + b == a;
    } else {
      var init := b[..|b| - 1];
      assert (a + b)[..|a + b| - 1] == a + init;
      OptionNamesUniqueAppend(a, init);
      OptionNameSetAppend(a, init);
    }
  }

  lemma {:induction false} ArgumentNamesUniqueAppend(a: seq<ArgumentDef>, b: seq<ArgumentDef>)
    ensures ArgumentNamesUnique(a + b)
      <==> ArgumentNamesUnique(a) && ArgumentNamesUnique(b) && ArgumentNameSet(a) !! ArgumentNameSet(b)
    decreases |b|
  {
    if b == [] {
      assert a + b == a;
    } else {
      var init := b[..|b| - 1];
      assert (a + b)[..|a + b| - 1] == a + init;
      ArgumentNamesUniqueAppend(a, init);
      ArgumentNamesAppend(a, init);
    }
  }

  lemma OptionsOfSnoc(chain: seq<Command>, c: Command)
    ensures OptionsOf(chain + [c]) == OptionsOf(chain) + c.options
    ensures ArgumentsOf(chain + [c]) == ArgumentsOf(chain) + c.arguments
  {
    assert (chain + [c])[..|chain|] == chain;
  }

  /** `optionsByName` after inserting a fresh value for each of `opts`. */
  function InsertOptions(m: map<string, OptionValue>, opts: seq<OptionDef>): (r: map<string, OptionValue>)
  {
    if opts == [] then m
    else InsertOptions(m, opts[..|opts| - 1])[opts[|opts| - 1].name := NewOptionValue(opts[|opts| - 1])]
  }

  /** `optionsByShortName` after `opts`: each short name, empty ones included, names the last option that has it. */
  function InsertShortNames(m: map<string, string>, opts: seq<OptionDef>): (r: map<string, string>)
  {
    if opts == [] then m
    else InsertShortNames(m, opts[..|opts| - 1])[opts[|opts| - 1].shortName := opts[|opts| - 1].name]
  }

  /** `argumentsByName` after inserting a fresh value for each of `args`. */
  function InsertArguments(m: map<string, ArgumentValue>, args: seq<ArgumentDef>): (r: map<string, ArgumentValue>)
  {
    if args == [] then m
    else InsertArguments(m, args[..|args| - 1])[args[|args| - 1].name := NewArgumentValue(args[|args| - 1])]
  }

  lemma {:induction false} InsertOptionsAppend(m: map<string, OptionValue>, a: seq<OptionDef>, b: seq<OptionDef>)
    ensures InsertOptions(m, a + b) == InsertOptions(InsertOptions(m, a), b)
    decreases |b|
  {
    if b == [] {
      assert a + b == a;
    } else {
      assert (a + b)[..|a + b| - 1] == a + b[..|b| - 1];
      InsertOptionsAppend(m, a, b[..|b| - 1]);
    }
  }

  lemma {:induction false} InsertShortNamesAppend(m: map<string, string>, a: seq<OptionDef>, b: seq<OptionDef>)
    ensures InsertShortNames(m, a + b) == InsertShortNames(InsertShortNames(m, a), b)
    decreases |b|
  {
    if b == [] {
      assert a + b == a;
    } else {
      assert (a + b)[..|a + b| - 1] == a + b[..|b| - 1];
      InsertShortNamesAppend(m, a, b[..|b| - 1]);
    }
  }

  lemma {:induction false} InsertArgumentsAppend(m: map<string, ArgumentValue>, a: seq<ArgumentDef>, b: seq<ArgumentDef>)
    ensures InsertArguments(m, a + b) == InsertArguments(InsertArguments(m, a), b)
    decreases |b|
  {
    if b == [] {
      assert a + b == a;
    } else {
      assert (a + b)[..|a + b| - 1] == a + b[..|b| - 1];
      InsertArgumentsAppend(m, a, b[..|b| - 1]);
    }
  }

  /** Inserting declarations adds exactly their names, each value filed under its own definition's name. */
  lemma {:induction false} InsertOptionsKeys(m: map<string, OptionValue>, opts: seq<OptionDef>)
    requires forall n :: n in m ==> m[n].definition.name == n
    ensures InsertOptions(m, opts).Keys == m.Keys + OptionNameSet(opts)
    ensures forall n :: n in InsertOptions(m, opts) ==> InsertOptions(m, opts)[n].definition.name == n
  {
    if opts != [] {
      InsertOptionsKeys(m, opts[..|opts| - 1]);
    }
  }

  lemma {:induction false} InsertArgumentsKeys(m: map<string, ArgumentValue>, args: seq<ArgumentDef>)
    requires forall n :: n in m ==> m[n].definition.name == n
    ensures InsertArguments(m, args).Keys == m.Keys + ArgumentNameSet(args)
    ensures forall n :: n in InsertArguments(m, args) ==> InsertArguments(m, args)[n].definition.name == n
  {
    if args != [] {
      InsertArgumentsKeys(m, args[..|args| - 1]);
    }
  }

  /**
   * Every declared option gets exactly one fresh value under its long name,
   * and no other name is added.
   */
  lemma {:induction false} InsertOptionsContents(opts: seq<OptionDef>)
    requires OptionNamesUnique(opts)
    ensures InsertOptions(map[], opts).Keys == OptionNameSet(opts)
    ensures forall i :: 0 <= i < |opts| ==>
      opts[i].name in InsertOptions(map[], opts) && InsertOptions(map[], opts)[opts[i].name] == NewOptionValue(opts[i])
  {
    if opts != [] {
      var init := opts[..|opts| - 1];
      var last := opts[|opts| - 1];
      InsertOptionsContents(init);
      OptionNameSetFacts(init);
      var before := InsertOptions(map[], init);
      forall i | 0 <= i < |opts|
        ensures opts[i].name in InsertOptions(map[], opts) && InsertOptions(map[], opts)[opts[i].name] == NewOptionValue(opts[i])
      {
        if i < |init| {
          assert init[i] == opts[i];
          assert opts[i].name in before && opts[i].name != last.name;
        }
      }
    }
  }

  /**
   * The short-name index maps a short name to the LAST option declaring it:
   * a later option with the same short name, an empty one included,
   * silently replaces the earlier entry.
   */
  lemma {:induction false} ShortNameLastWins(m: map<string, string>, opts: seq<OptionDef>, i: nat)
    requires i < |opts|
    requires forall j :: i < j < |opts| ==> opts[j].shortName != opts[i].shortName
    ensures opts[i].shortName in InsertShortNames(m, opts)
    ensures InsertShortNames(m, opts)[opts[i].shortName] == opts[i].name
  {
    if i < |opts| - 1 {
      ShortNameLastWins(m, opts[..|opts| - 1], i);
    }
  }

  /** A short name nobody declares keeps whatever the index held before. */
  lemma {:induction false} ShortNameUntouched(m: map<string, string>, opts: seq<OptionDef>, s: string)
    requires forall j :: 0 <= j < |opts| ==> opts[j].shortName != s
    ensures s in InsertShortNames(m, opts) <==> s in m
    ensures s in m ==> InsertShortNames(m, opts)[s] == m[s]
  {
    if opts != [] {
      ShortNameUntouched(m, opts[..|opts| - 1], s);
    }
  }

  // ---------------------------------------------------------------------
  // Sorting argv (Context::build, lines 175-193)
  // ---------------------------------------------------------------------

  /**
   * The state of the classification loop after some tokens: the command
   * reached (`m_lastCommand`), whether subcommands are still being matched
   * (`foundLastCommand`), the three lists, and the declarations merged
   * along the way.
   */
  datatype Scan = Scan(
    last: Command, searching: bool, commands: seq<Command>, options: seq<string>, positionals: seq<string>,
    declaredOptions: seq<OptionDef>, declaredArguments: seq<ArgumentDef>)

  /**
   * What `build` reads of argv without crashing: `arg[0]` of every token,
   * and `option[1]` of every token that starts with `-`.
   */
  predicate ArgvTokens(toks: seq<string>)
  {
    NonEmptyTokens(toks) && forall i :: 0 <= i < |toks| && toks[i][0] == '-' ==> |toks[i]| >= 2
  }

  /** One turn of the loop. */
  function ScanStep(s: Scan, t: string): Scan
    requires t != []
  {
    if t[0] == '-' then s.(options := s.options + [t])
    else if s.searching && t in s.last.subCommands then
      var c := s.last.subCommands[t];
      s.(last := c, commands := s.commands + [c],
         declaredOptions := s.declaredOptions + c.options, declaredArguments := s.declaredArguments + c.arguments)
    else s.(searching := false, positionals := s.positionals + [t])
  }

  /** The classification of `toks` (argv without its first element). */
  function ScanArgs(root: Command, toks: seq<string>): Scan
    requires NonEmptyTokens(toks)
  {
    if toks == [] then Scan(root, true, [], [], [], root.options, root.arguments)
    else ScanStep(ScanArgs(root, toks[..|toks| - 1]), toks[|toks| - 1])
  }

  lemma ScanArgsSnoc(root: Command, toks: seq<string>, i: nat)
    requires NonEmptyTokens(toks) && i < |toks|
    ensures ScanArgs(root, toks[..i + 1]) == ScanStep(ScanArgs(root, toks[..i]), toks[i])
  {
    assert toks[..i + 1][..i] == toks[..i];
  }

  /**
   * When token `i` matches a subcommand, the chain matched so far followed
   * by that subcommand is a prefix of the chain all of argv matches.
   */
  lemma ScanChainStep(root: Command, toks: seq<string>, i: nat)
    requires NonEmptyTokens(toks) && i < |toks|
    requires var s := ScanArgs(root, toks[..i]);
      toks[i][0] != '-' && s.searching && toks[i] in s.last.subCommands
    ensures var s := ScanArgs(root, toks[..i]);
      var whole := [root] + ScanArgs(root, toks).commands;
      && |s.commands| + 1 < |whole|
      && whole[..|s.commands| + 2] == [root] + s.commands + [s.last.subCommands[toks[i]]]
  {
    var s := ScanArgs(root, toks[..i]);
    var full := ScanArgs(root, toks).commands;
    ScanArgsSnoc(root, toks, i);
    ScanCommandsPrefix(root, toks, i + 1);
    assert full[..|s.commands| + 1] == s.commands + [s.last.subCommands[toks[i]]];
    assert ([root] + full)[..|s.commands| + 2] == [root] + full[..|s.commands| + 1];
  }

  /**
   * When the whole matched chain satisfies the merge assertions, each
   * subcommand the scan matches brings names not declared before it.
   */
  lemma ScanNamesAreNew(root: Command, toks: seq<string>, i: nat)
    requires NonEmptyTokens(toks) && i < |toks|
    requires MergeAssertsHold([root] + ScanArgs(root, toks).commands)
    requires var s := ScanArgs(root, toks[..i]);
      toks[i][0] != '-' && s.searching && toks[i] in s.last.subCommands
    ensures var s := ScanArgs(root, toks[..i]);
      NamesAreNew(s.last.subCommands[toks[i]], OptionNameSet(s.declaredOptions), ArgumentNameSet(s.declaredArguments))
  {
    var s := ScanArgs(root, toks[..i]);
    var whole := [root] + ScanArgs(root, toks).commands;
    ScanChainStep(root, toks, i);
    ScanDeclares(root, toks[..i]);
    var k := |s.commands| + 1;
    assert whole[..k + 1][..k] == whole[..k];
    assert whole[..k] == [root] + s.commands;
    assert whole[k] == s.last.subCommands[toks[i]];
    MergeAssertsStep(whole, k);
  }

  /** The declarations the scan accumulates are those of the root and the matched subcommands. */
  lemma {:induction false} ScanDeclares(root: Command, toks: seq<string>)
    requires NonEmptyTokens(toks)
    ensures var s := ScanArgs(root, toks);
      && s.declaredOptions == OptionsOf([root] + s.commands)
      && s.declaredArguments == ArgumentsOf([root] + s.commands)
  {
    if toks == [] {
      OptionsOfSnoc([], root);
      assert [] + [root] == [root];
    } else {
      var init := toks[..|toks| - 1];
      ScanDeclares(root, init);
      var s0 := ScanArgs(root, init);
      var t := toks[|toks| - 1];
      if t[0] != '-' && s0.searching && t in s0.last.subCommands {
        var c := s0.last.subCommands[t];
        assert [root] + (s0.commands + [c]) == ([root] + s0.commands) + [c];
        OptionsOfSnoc([root] + s0.commands, c);
      }
    }
  }

  function DashTokens(toks: seq<string>): (r: seq<string>)
    requires NonEmptyTokens(toks)
  {
    if toks == [] then []
    else DashTokens(toks[..|toks| - 1]) + (if toks[|toks| - 1][0] == '-' then [toks[|toks| - 1]] else [])
  }

  /** The command reached from `root` after matching `cmds`. */
  function LastOf(root: Command, cmds: seq<Command>): Command
  {
    if cmds == [] then root else cmds[|cmds| - 1]
  }

  /** `cmds` is what following `names` one subcommand at a time from `root` yields. */
  predicate IsPath(root: Command, names: seq<string>, cmds: seq<Command>)
  {
    |names| == |cmds| &&
    (names == [] ||
      (IsPath(root, names[..|names| - 1], cmds[..|cmds| - 1]) &&
       names[|names| - 1] in LastOf(root, cmds[..|cmds| - 1]).subCommands &&
       cmds[|cmds| - 1] == LastOf(root, cmds[..|cmds| - 1]).subCommands[names[|names| - 1]]))
  }

  /** Every token beginning with `-` goes to the option list, in argv order. */
  lemma {:induction false} ScanOptionsAreDashTokens(root: Command, toks: seq<string>)
    requires NonEmptyTokens(toks)
    ensures ScanArgs(root, toks).options == DashTokens(toks)
  {
    if toks != [] {
      ScanOptionsAreDashTokens(root, toks[..|toks| - 1]);
    }
  }

  /**
   * The other tokens are matched as subcommands, each a child of the one
   * before, until the first one that is not; that token and every later
   * non-dash token are positionals.
   */
  lemma {:induction false} ScanPlainTokens(root: Command, toks: seq<string>)
    requires NonEmptyTokens(toks)
    ensures SplitsPlain(root, ScanArgs(root, toks), PlainTokens(toks))
  {
    if toks != [] {
      var init := toks[..|toks| - 1];
      ScanPlainTokens(root, init);
      SplitsPlainStep(root, ScanArgs(root, init), PlainTokens(init), toks[|toks| - 1]);
    }
  }

  /**
   * The scan's commands follow a path from `root` along a prefix of the
   * plain tokens, the rest of which are its positionals; matching stops at
   * the first positional, which names no subcommand of the last command.
   */
  ghost predicate SplitsPlain(root: Command, s: Scan, plain: seq<string>)
  {
    && |s.commands| + |s.positionals| == |plain|
    && IsPath(root, plain[..|s.commands|], s.commands)
    && s.positionals == plain[|s.commands|..]
    && s.last == LastOf(root, s.commands)
    && (s.searching <==> s.positionals == [])
    && (s.positionals != [] ==> s.positionals[0] !in s.last.subCommands)
  }

  lemma SplitsPlainStep(root: Command, s: Scan, plain: seq<string>, t: string)
    requires t != [] && SplitsPlain(root, s, plain)
    ensures SplitsPlain(root, ScanStep(s, t), plain + (if t[0] != '-' then [t] else []))
  {
    if t[0] == '-' {
      assert plain + [] == plain;
    } else if s.searching && t in s.last.subCommands {
      SplitsPlainMatch(root, s, plain, t);
    } else {
      assert (plain + [t])[..|s.commands|] == plain[..|s.commands|];
      assert (plain + [t])[|s.commands|..] == s.positionals + [t];
    }
  }

  lemma SplitsPlainMatch(root: Command, s: Scan, plain: seq<string>, t: string)
    requires t != [] && t[0] != '-' && SplitsPlain(root, s, plain)
    requires s.searching && t in s.last.subCommands
    ensures SplitsPlain(root, ScanStep(s, t), plain + [t])
  {
    var c := s.last.subCommands[t];
    var cmds := s.commands + [c];
    assert plain[..|s.commands|] == plain;
    assert (plain + [t])[..|cmds|] == plain + [t];
    assert (plain + [t])[..|cmds|][..|s.commands|] == plain;
    assert cmds[..|s.commands|] == s.commands;
    assert (plain + [t])[|cmds|..] == [];
  }

  // ---------------------------------------------------------------------
  // parseOptions
  // ---------------------------------------------------------------------

  /** A dash token split into its lookup kind, name and value. */
  datatype OptionToken = OptionToken(isShortName: bool, name: string, value: string)

  /** The part after the dashes: after `--` when the second character is `-`, after `-` otherwise. */
  function NamePart(t: string): string
    requires |t| >= 2
  {
    if t[1] == '-' then t[2..] else t[1..]
  }

  /**
   * How one option token is read: the second character decides short or
   * long; an `=` at index 1 or later of the name part separates the name
   * from the value, an `=` at index 0 does not.
   */
  function ParseOptionToken(t: string): (r: OptionToken)
    requires |t| >= 2
    ensures r.isShortName <==> t[1] != '-'
    ensures (r.name == NamePart(t) && r.value == [])
         || (r.name != [] && '=' !in r.name && NamePart(t) == r.name + "=" + r.value)
  {
    var namePart := NamePart(t);
    var eq := FindByte(namePart, '=', 0);
    if eq >= 1 then
      SplitAtFirst(namePart, eq);
      OptionToken(t[1] != '-', namePart[..eq], namePart[eq + 1..])
    else OptionToken(t[1] != '-', namePart, "")
  }

  /** Cutting at the first `=` leaves a name free of `=`. */
  lemma SplitAtFirst(s: string, eq: int)
    requires eq == FindByte(s, '=', 0) && eq >= 1
    ensures s[..eq] != [] && '=' !in s[..eq] && s == s[..eq] + "=" + s[eq + 1..]
  {
    assert forall k :: 0 <= k < eq ==> s[..eq][k] == s[k];
  }

  /** `--name=value` reads back as a long option with that name and value. */
  lemma LongOptionRoundTrip(name: string, value: string)
    requires name != [] && '=' !in name
    ensures ParseOptionToken("--" + name + "=" + value) == OptionToken(false, name, value)
    ensures ParseOptionToken("--" + name) == OptionToken(false, name, "")
  {
    var t := "--" + name + "=" + value;
    assert NamePart(t) == name + "=" + value;
    assert (name + "=" + value)[|name|] == '=';
    assert FindByte(name + "=" + value, '=', 0) == |name|;
    assert (name + "=" + value)[..|name|] == name;
    assert (name + "=" + value)[|name| + 1..] == value;
    assert NamePart("--" + name) == name;
    assert FindByte(name, '=', 0) == -1;
  }

  /** `-s=value` and `-s` read back as a short option. */
  lemma ShortOptionRoundTrip(short: string, value: string)
    requires short != [] && short[0] != '-' && '=' !in short
    ensures ParseOptionToken("-" + short + "=" + value) == OptionToken(true, short, value)
    ensures ParseOptionToken("-" + short) == OptionToken(true, short, "")
  {
    var t := "-" + short + "=" + value;
    assert t[1] == short[0];
    assert NamePart(t) == short + "=" + value;
    assert (short + "=" + value)[|short|] == '=';
    assert FindByte(short + "=" + value, '=', 0) == |short|;
    assert (short + "=" + value)[..|short|] == short;
    assert (short + "=" + value)[|short| + 1..] == value;
    assert ("-" + short)[1] == short[0];
    assert NamePart("-" + short) == short;
    assert FindByte(short, '=', 0) == -1;
  }

  /**
   * A short lookup never uses the empty key, so an option registered
   * without a short name cannot be reached through the short-name map.
   */
  lemma ShortLookupNameNeverEmpty(t: string)
    requires |t| >= 2 && t[1] != '-'
    ensures ParseOptionToken(t).name != []
  {
  }

  /** The long name a token selects, if any. */
  function Resolve(tok: OptionToken, names: set<string>, byShort: map<string, string>): Option<string>
  {
    if tok.isShortName then (if tok.name in byShort then Some(byShort[tok.name]) else None)
    else if tok.name in names then Some(tok.name) else None
  }

  predicate OptionTokens(toks: seq<string>)
  {
    forall i :: 0 <= i < |toks| ==> |toks[i]| >= 2
  }

  predicate ShortIndexInto(byShort: map<string, string>, names: set<string>)
  {
    forall s :: s in byShort ==> byShort[s] in names
  }

  function InvalidOptionMessage(t: string): string
  {
    "Invalid option found: " + t
  }

  datatype OptionState = OptionState(values: map<string, OptionValue>, errors: seq<string>)

  /** One turn of `parseOptions`: an error for a token that selects nothing, else the selected value set. */
  function ParseOptionStep(s: OptionState, byShort: map<string, string>, t: string): (r: OptionState)
    requires |t| >= 2 && ShortIndexInto(byShort, s.values.Keys)
    ensures r.values.Keys == s.values.Keys
  {
    var tok := ParseOptionToken(t);
    match Resolve(tok, s.values.Keys, byShort)
    case None => s.(errors := s.errors + [InvalidOptionMessage(t)])
    case Some(n) => s.(values := s.values[n := s.values[n].(value := tok.value, present := true)])
  }

  /** The effect of `parseOptions` on the option values and `m_errors`. */
  function ParseOptionsSpec(st: OptionState, byShort: map<string, string>, toks: seq<string>): (r: OptionState)
    requires OptionTokens(toks) && ShortIndexInto(byShort, st.values.Keys)
    ensures r.values.Keys == st.values.Keys
  {
    if toks == [] then st
    else ParseOptionStep(ParseOptionsSpec(st, byShort, toks[..|toks| - 1]), byShort, toks[|toks| - 1])
  }

  lemma ParseOptionsSnoc(st: OptionState, byShort: map<string, string>, toks: seq<string>, i: nat)
    requires OptionTokens(toks) && ShortIndexInto(byShort, st.values.Keys) && i < |toks|
    ensures ParseOptionsSpec(st, byShort, toks[..i + 1])
      == ParseOptionStep(ParseOptionsSpec(st, byShort, toks[..i]), byShort, toks[i])
  {
    assert toks[..i + 1][..i] == toks[..i];
  }

  /** Parsing fills values in; it never changes which option a value belongs to. */
  lemma {:induction false} ParseOptionsKeepsDefinitions(st: OptionState, byShort: map<string, string>, toks: seq<string>, n: string)
    requires OptionTokens(toks) && ShortIndexInto(byShort, st.values.Keys)
    requires n in st.values
    ensures ParseOptionsSpec(st, byShort, toks).values[n].definition == st.values[n].definition
  {
    if toks != [] {
      ParseOptionsKeepsDefinitions(st, byShort, toks[..|toks| - 1], n);
    }
  }

  /** Parsing options leaves maps that index the declarations still indexing them. */
  lemma ParsingKeepsIndex(opts: seq<OptionDef>, byName: map<string, OptionValue>, byShort: map<string, string>,
                          errors: seq<string>, toks: seq<string>)
    requires OptionMapsIndex(opts, byName, byShort) && OptionTokens(toks)
    ensures OptionMapsIndex(opts, ParseOptionsSpec(OptionState(byName, errors), byShort, toks).values, byShort)
  {
    var r := ParseOptionsSpec(OptionState(byName, errors), byShort, toks).values;
    forall n | n in r
      ensures r[n].definition.name == n
    {
      ParseOptionsKeepsDefinitions(OptionState(byName, errors), byShort, toks, n);
    }
  }

  /** The tokens no option answers to. */
  function InvalidTokens(toks: seq<string>, names: set<string>, byShort: map<string, string>): seq<string>
    requires OptionTokens(toks)
  {
    if toks == [] then []
    else
      var t := toks[|toks| - 1];
      InvalidTokens(toks[..|toks| - 1], names, byShort) +
      (if Resolve(ParseOptionToken(t), names, byShort).None? then [InvalidOptionMessage(t)] else [])
  }

  /** One error per unrecognised token, in argv order, and nothing else. */
  lemma {:induction false} ParseOptionsErrors(st: OptionState, byShort: map<string, string>, toks: seq<string>)
    requires OptionTokens(toks) && ShortIndexInto(byShort, st.values.Keys)
    ensures ParseOptionsSpec(st, byShort, toks).errors == st.errors + InvalidTokens(toks, st.values.Keys, byShort)
  {
    if toks != [] {
      ParseOptionsErrors(st, byShort, toks[..|toks| - 1]);
    }
  }

  /** An option no token selects keeps its value and presence. */
  lemma {:induction false} ParseOptionsUntouched(st: OptionState, byShort: map<string, string>, toks: seq<string>, n: string)
    requires OptionTokens(toks) && ShortIndexInto(byShort, st.values.Keys)
    requires n in st.values
    requires forall i :: 0 <= i < |toks| ==> Resolve(ParseOptionToken(toks[i]), st.values.Keys, byShort) != Some(n)
    ensures ParseOptionsSpec(st, byShort, toks).values[n] == st.values[n]
  {
    if toks != [] {
      ParseOptionsUntouched(st, byShort, toks[..|toks| - 1], n);
    }
  }

  /** A selected option is present with the value part of the last token that selects it. */
  lemma {:induction false} ParseOptionsLastWins(st: OptionState, byShort: map<string, string>, toks: seq<string>, i: nat)
    requires OptionTokens(toks) && ShortIndexInto(byShort, st.values.Keys)
    requires i < |toks|
    requires Resolve(ParseOptionToken(toks[i]), st.values.Keys, byShort).Some?
    requires var n := Resolve(ParseOptionToken(toks[i]), st.values.Keys, byShort).value;
      forall j :: i < j < |toks| ==> Resolve(ParseOptionToken(toks[j]), st.values.Keys, byShort) != Some(n)
    ensures var n := Resolve(ParseOptionToken(toks[i]), st.values.Keys, byShort).value;
      var v := ParseOptionsSpec(st, byShort, toks).values[n];
      v.present && v.value == ParseOptionToken(toks[i]).value && v.definition == st.values[n].definition
  {
    if i < |toks| - 1 {
      ParseOptionsLastWins(st, byShort, toks[..|toks| - 1], i);
    } else {
      var n := Resolve(ParseOptionToken(toks[i]), st.values.Keys, byShort).value;
      ParseOptionsKeepsDefinitions(st, byShort, toks[..|toks| - 1], n);
    }
  }

  // ---------------------------------------------------------------------
  // parseArguments
  // ---------------------------------------------------------------------

  /** The effect of binding the first `k` positionals to the first `k` declared arguments. */
  function BindArguments(values: map<string, ArgumentValue>, byIndex: seq<string>, positionals: seq<string>, k: nat): (r: map<string, ArgumentValue>)
    requires k <= |byIndex| && k <= |positionals|
    requires forall i :: 0 <= i < |byIndex| ==> byIndex[i] in values
    ensures r.Keys == values.Keys
  {
    if k == 0 then values
    else
      var m := BindArguments(values, byIndex, positionals, k - 1);
      m[byIndex[k - 1] := m[byIndex[k - 1]].(value := positionals[k - 1])]
  }

  /** Binding positionals leaves maps that index the declarations still indexing them. */
  lemma BindingKeepsIndex(args: seq<ArgumentDef>, byName: map<string, ArgumentValue>, byIndex: seq<string>,
                          positionals: seq<string>, k: nat)
    requires ArgumentMapsIndex(args, byName, byIndex)
    requires k <= |byIndex| && k <= |positionals|
    requires forall i :: 0 <= i < |byIndex| ==> byIndex[i] in byName
    ensures ArgumentMapsIndex(args, BindArguments(byName, byIndex, positionals, k), byIndex)
  {
    var r := BindArguments(byName, byIndex, positionals, k);
    forall n | n in r
      ensures r[n].definition.name == n
    {
      BindArgumentsKeepsDefinitions(byName, byIndex, positionals, k, n);
    }
  }

  /** Binding fills values in; it never changes which argument a value belongs to. */
  lemma {:induction false} BindArgumentsKeepsDefinitions(values: map<string, ArgumentValue>, byIndex: seq<string>, positionals: seq<string>, k: nat, n: string)
    requires k <= |byIndex| && k <= |positionals|
    requires forall i :: 0 <= i < |byIndex| ==> byIndex[i] in values
    requires n in values
    ensures BindArguments(values, byIndex, positionals, k)[n].definition == values[n].definition
  {
    if k > 0 {
      BindArgumentsKeepsDefinitions(values, byIndex, positionals, k - 1, n);
    }
  }

  function Min(a: nat, b: nat): nat
  {
    if a < b then a else b
  }

  /**
   * Positional i lands in the i-th declared argument when both exist; the
   * others keep their value, and presence is never changed.
   */
  lemma {:induction false} BindArgumentsAt(values: map<string, ArgumentValue>, byIndex: seq<string>, positionals: seq<string>, k: nat, i: nat)
    requires k <= |byIndex| && k <= |positionals|
    requires forall j :: 0 <= j < |byIndex| ==> byIndex[j] in values
    requires Distinct(byIndex)
    requires i < |byIndex|
    ensures var v := BindArguments(values, byIndex, positionals, k)[byIndex[i]];
      && v.value == (if i < k then positionals[i] else values[byIndex[i]].value)
      && v.present == values[byIndex[i]].present
      && v.definition == values[byIndex[i]].definition
  {
    if k > 0 {
      BindArgumentsAt(values, byIndex, positionals, k - 1, i);
    }
  }

  // ---------------------------------------------------------------------
  // The context
  // ---------------------------------------------------------------------

  /** `byName` holds one value for each long name in `opts`, and every entry of `byShort` points into it. */
  ghost predicate OptionMapsIndex(opts: seq<OptionDef>, byName: map<string, OptionValue>, byShort: map<string, string>)
  {
    && byName.Keys == OptionNameSet(opts)
    && (forall n :: n in byName ==> byName[n].definition.name == n)
    && ShortIndexInto(byShort, byName.Keys)
  }

  /** `byName` holds one value for each argument in `args`, and `byIndex` lists their names in order. */
  ghost predicate ArgumentMapsIndex(args: seq<ArgumentDef>, byName: map<string, ArgumentValue>, byIndex: seq<string>)
  {
    && byIndex == ArgumentNames(args)
    && byName.Keys == ArgumentNameSet(args)
    && (forall n :: n in byName ==> byName[n].definition.name == n)
  }

  /** Inserting a command's options into maps that index `opts` yields maps that index `opts + more`. */
  lemma MergedOptionsIndexed(opts: seq<OptionDef>, more: seq<OptionDef>, byName: map<string, OptionValue>, byShort: map<string, string>)
    requires OptionMapsIndex(opts, byName, byShort)
    ensures OptionMapsIndex(opts + more, InsertOptions(byName, more), InsertShortNames(byShort, more))
  {
    OptionNameSetAppend(opts, more);
    InsertOptionsKeys(byName, more);
    var newShort := InsertShortNames(byShort, more);
    forall s | s in newShort
      ensures newShort[s] in InsertOptions(byName, more)
    {
      ShortIndexTargets(byShort, more, s);
    }
  }

  /** Inserting a command's arguments into maps that index `args` yields maps that index `args + more`. */
  lemma MergedArgumentsIndexed(args: seq<ArgumentDef>, more: seq<ArgumentDef>, byName: map<string, ArgumentValue>, byIndex: seq<string>)
    requires ArgumentMapsIndex(args, byName, byIndex)
    ensures ArgumentMapsIndex(args + more, InsertArguments(byName, more), byIndex + ArgumentNames(more))
  {
    ArgumentNamesAppend(args, more);
    InsertArgumentsKeys(byName, more);
  }

  /**
   * What `mergeCommand` asserts about the command it merges: its option
   * names are new and distinct, and so are its argument names.
   */
  predicate NamesAreNew(c: Command, optionNames: set<string>, argumentNames: set<string>)
  {
    && OptionNamesUnique(c.options) && OptionNameSet(c.options) !! optionNames
    && ArgumentNamesUnique(c.arguments) && ArgumentNameSet(c.arguments) !! argumentNames
  }

  /** The options the scan collects are all readable option tokens. */
  lemma ScanOptionTokens(root: Command, toks: seq<string>)
    requires ArgvTokens(toks)
    ensures OptionTokens(ScanArgs(root, toks).options)
  {
    ScanOptionsAreDashTokens(root, toks);
    DashTokensAreOptionTokens(toks);
  }

  /** Freshly merged declarations satisfy what parsing and binding need of the maps. */
  lemma FreshIndexes(opts: seq<OptionDef>, args: seq<ArgumentDef>)
    ensures ShortIndexInto(InsertShortNames(map[], opts), InsertOptions(map[], opts).Keys)
    ensures forall i :: 0 <= i < |ArgumentNames(args)| ==> ArgumentNames(args)[i] in InsertArguments(map[], args)
  {
    MergedOptionsIndexed([], opts, map[], map[]);
    MergedArgumentsIndexed([], args, map[], []);
    assert [] + opts == opts && [] + args == args;
    ArgumentIndexFacts(args);
  }

  datatype RunOutcome = PrintUsage(exitCode: int) | Dispatch(command: Command)

  /** What a context holds once built: the command reached, the path to it, the values and the errors. */
  datatype ContextState = ContextState(
    last: Command, passed: seq<Command>,
    options: map<string, OptionValue>, arguments: map<string, ArgumentValue>, errors: seq<string>)

  /**
   * What `Context::build` computes from the root command and argv without
   * its first element: the scan picks the commands, options and positionals;
   * the merged declarations get fresh values; the options are parsed into
   * them and the positionals bound in order.
   */
  ghost function BuildSpec(root: Command, toks: seq<string>): ContextState
    requires ArgvTokens(toks)
  {
    var s := ScanArgs(root, toks);
    var opts := OptionsOf([root] + s.commands);
    var args := ArgumentsOf([root] + s.commands);
    var index := ArgumentNames(args);
    ScanOptionTokens(root, toks);
    FreshIndexes(opts, args);
    var parsed := ParseOptionsSpec(OptionState(InsertOptions(map[], opts), []), InsertShortNames(map[], opts), s.options);
    var bound := BindArguments(InsertArguments(map[], args), index, s.positionals, Min(|s.positionals|, |index|));
    ContextState(s.last, s.commands, parsed.values, bound, parsed.errors)
  }

  class Context {
    const rootCommand: Command
    var lastCommand: Command
    var passedCommands: seq<Command>
    var optionsByName: map<string, OptionValue>
    var optionsByShortName: map<string, string>
    var argumentsByName: map<string, ArgumentValue>
    var argumentsByIndex: seq<string>
    var errors: seq<string>

    /** The commands merged so far, root first, and the declarations they contributed. */
    ghost var merged: seq<Command>
    ghost var declaredOptions: seq<OptionDef>
    ghost var declaredArguments: seq<ArgumentDef>

    /** The option maps index exactly the options merged so far. */
    ghost predicate OptionsIndexed()
      reads this`declaredOptions, this`optionsByName, this`optionsByShortName
    {
      OptionMapsIndex(declaredOptions, optionsByName, optionsByShortName)
    }

    /** The argument map and index cover exactly the arguments merged so far. */
    ghost predicate ArgumentsIndexed()
      reads this`declaredArguments, this`argumentsByName, this`argumentsByIndex
    {
      ArgumentMapsIndex(declaredArguments, argumentsByName, argumentsByIndex)
    }

    /** The merged commands are the root followed by the passed ones, and the last of them is current. */
    ghost predicate OnPath()
      reads this`merged, this`passedCommands, this`lastCommand
    {
      merged == [rootCommand] + passedCommands && lastCommand == LastOf(rootCommand, passedCommands)
    }

    ghost predicate Valid()
      reads this`declaredOptions, this`optionsByName, this`optionsByShortName
      reads this`declaredArguments, this`argumentsByName, this`argumentsByIndex
      reads this`merged, this`passedCommands, this`lastCommand
    {
      OptionsIndexed() && ArgumentsIndexed() && OnPath()
    }

    /** The declarations indexed are those of the merged commands, in merge order. */
    ghost predicate Declared()
      reads this`merged, this`declaredOptions, this`declaredArguments
    {
      declaredOptions == OptionsOf(merged) && declaredArguments == ArgumentsOf(merged)
    }

    /** `Context(rootCommand)`: merges the root. */
    constructor (root: Command)
      requires NamesAreNew(root, {}, {})
      ensures Valid() && Declared() && rootCommand == root && passedCommands == [] && errors == []
      ensures declaredOptions == root.options && declaredArguments == root.arguments
      ensures optionsByName == InsertOptions(map[], root.options)
      ensures optionsByShortName == InsertShortNames(map[], root.options)
      ensures argumentsByName == InsertArguments(map[], root.arguments)
    {
      rootCommand := root;
      lastCommand := root;
      passedCommands := [];
      optionsByName := map[];
      optionsByShortName := map[];
      argumentsByName := map[];
      argumentsByIndex := [];
      errors := [];
      merged := [];
      declaredOptions := [];
      declaredArguments := [];
      new;
      MergeCommand(root);
      OptionsOfSnoc([], root);
    }

    /**
     * `mergeCommand`: the command becomes the last one; each of its options
     * gets a fresh value under its long name and an entry under its short
     * name, and each of its arguments a fresh value, appended to the index.
     */
    method MergeCommand(c: Command)
      requires OptionsIndexed() && ArgumentsIndexed() && NamesAreNew(c, optionsByName.Keys, argumentsByName.Keys)
      modifies this
      ensures OptionsIndexed() && ArgumentsIndexed() && lastCommand == c
      ensures merged == old(merged) + [c]
      ensures declaredOptions == old(declaredOptions) + c.options
      ensures declaredArguments == old(declaredArguments) + c.arguments
      ensures optionsByName == InsertOptions(old(optionsByName), c.options)
      ensures optionsByShortName == InsertShortNames(old(optionsByShortName), c.options)
      ensures argumentsByName == InsertArguments(old(argumentsByName), c.arguments)
      ensures passedCommands == old(passedCommands) && errors == old(errors)
    {
      lastCommand := c;
      MergeOptions(c);
      MergeArguments(c);
      merged := merged + [c];
    }

    /** The option half of `mergeCommand`. */
    method MergeOptions(c: Command)
      requires OptionMapsIndex(declaredOptions, optionsByName, optionsByShortName)
      modifies this`optionsByName, this`optionsByShortName, this`declaredOptions
      ensures OptionMapsIndex(declaredOptions, optionsByName, optionsByShortName)
      ensures declaredOptions == old(declaredOptions) + c.options
      ensures optionsByName == InsertOptions(old(optionsByName), c.options)
      ensures optionsByShortName == InsertShortNames(old(optionsByShortName), c.options)
    {
      for i := 0 to |c.options|
        invariant optionsByName == InsertOptions(old(optionsByName), c.options[..i])
        invariant optionsByShortName == InsertShortNames(old(optionsByShortName), c.options[..i])
        invariant declaredOptions == old(declaredOptions)
      {
        var o := c.options[i];
        assert c.options[..i + 1][..i] == c.options[..i];
        optionsByName := optionsByName[o.name := NewOptionValue(o)];
        optionsByShortName := optionsByShortName[o.shortName := o.name];
      }
      assert c.options[..|c.options|] == c.options;
      MergedOptionsIndexed(declaredOptions, c.options, old(optionsByName), old(optionsByShortName));
      declaredOptions := declaredOptions + c.options;
    }

    /** The argument half of `mergeCommand`. */
    method MergeArguments(c: Command)
      requires ArgumentMapsIndex(declaredArguments, argumentsByName, argumentsByIndex)
      modifies this`argumentsByName, this`argumentsByIndex, this`declaredArguments
      ensures ArgumentMapsIndex(declaredArguments, argumentsByName, argumentsByIndex)
      ensures declaredArguments == old(declaredArguments) + c.arguments
      ensures argumentsByName == InsertArguments(old(argumentsByName), c.arguments)
    {
      for i := 0 to |c.arguments|
        invariant argumentsByName == InsertArguments(old(argumentsByName), c.arguments[..i])
        invariant argumentsByIndex == old(argumentsByIndex) + ArgumentNames(c.arguments[..i])
        invariant declaredArguments == old(declaredArguments)
      {
        var a := c.arguments[i];
        assert c.arguments[..i + 1][..i] == c.arguments[..i];
        argumentsByName := argumentsByName[a.name := NewArgumentValue(a)];
        argumentsByIndex := argumentsByIndex + [a.name];
      }
      assert c.arguments[..|c.arguments|] == c.arguments;
      MergedArgumentsIndexed(declaredArguments, c.arguments, old(argumentsByName), old(argumentsByIndex));
      declaredArguments := declaredArguments + c.arguments;
    }

    /**
     * `parseOptions`: each token marks the option it selects present with
     * its value part; a token that selects nothing adds an error.
     */
    method ParseOptions(options: seq<string>)
      requires Valid() && Declared() && OptionTokens(options)
      modifies this`optionsByName, this`errors
      ensures Valid() && Declared()
      ensures OptionState(optionsByName, errors)
        == ParseOptionsSpec(OptionState(old(optionsByName), old(errors)), optionsByShortName, options)
    {
      for i := 0 to |options|
        invariant OptionState(optionsByName, errors)
          == ParseOptionsSpec(OptionState(old(optionsByName), old(errors)), optionsByShortName, options[..i])
      {
        var option := options[i];
        ParseOptionsSnoc(OptionState(old(optionsByName), old(errors)), optionsByShortName, options, i);
        var tok := ParseOptionToken(option);
        var selected: Option<string> := None;
        if tok.isShortName {
          if tok.name in optionsByShortName {
            selected := Some(optionsByShortName[tok.name]);
          }
        } else {
          if tok.name in optionsByName {
            selected := Some(tok.name);
          }
        }
        if selected.None? {
          errors := errors + [InvalidOptionMessage(option)];
        } else {
          var n := selected.value;
          optionsByName := optionsByName[n := optionsByName[n].(value := tok.value, present := true)];
        }
      }
      assert options[..|options|] == options;
      ParsingKeepsIndex(declaredOptions, old(optionsByName), optionsByShortName, old(errors), options);
    }

    /** `parseArguments`: positional i to the i-th declared argument, for as many as both have. */
    method ParseArguments(arguments: seq<string>)
      requires Valid() && Declared()
      requires forall i :: 0 <= i < |argumentsByIndex| ==> argumentsByIndex[i] in argumentsByName
      modifies this`argumentsByName
      ensures Valid() && Declared()
      ensures argumentsByName
        == BindArguments(old(argumentsByName), argumentsByIndex, arguments, Min(|arguments|, |argumentsByIndex|))
    {
      var count := Min(|arguments|, |argumentsByIndex|);
      for argIndex := 0 to count
        invariant argumentsByName == BindArguments(old(argumentsByName), argumentsByIndex, arguments, argIndex)
      {
        var name := argumentsByIndex[argIndex];
        argumentsByName := argumentsByName[name := argumentsByName[name].(value := arguments[argIndex])];
      }
      BindingKeepsIndex(declaredArguments, old(argumentsByName), argumentsByIndex, arguments, count);
    }

    /**
     * `Context::build`: descends through the subcommands named in argv,
     * merging each, then parses the options and binds the positionals.
     */
    static method Build(root: Command, args: seq<string>) returns (ctx: Context)
      requires |args| >= 1 && ArgvTokens(args[1..])
      requires MergeAssertsHold([root] + ScanArgs(root, args[1..]).commands)
      ensures fresh(ctx) && ctx.Valid() && ctx.Declared() && ctx.rootCommand == root
      ensures ctx.State() == BuildSpec(root, args[1..])
    {
      var passedOptions, passedArguments;
      ctx, passedOptions, passedArguments := Start(root, args[1..]);
      ctx.ParseAll(passedOptions, passedArguments);
    }

    /**
     * The start of `Context::build`: the root merged, then argv sorted into
     * options, subcommands merged on the way, and positionals.
     */
    static method Start(root: Command, toks: seq<string>) returns (ctx: Context, passedOptions: seq<string>, passedArguments: seq<string>)
      requires ArgvTokens(toks)
      requires MergeAssertsHold([root] + ScanArgs(root, toks).commands)
      ensures fresh(ctx) && ctx.Valid() && ctx.Declared() && ctx.rootCommand == root && ctx.errors == []
      ensures OptionTokens(passedOptions)
      ensures forall i :: 0 <= i < |ctx.argumentsByIndex| ==> ctx.argumentsByIndex[i] in ctx.argumentsByName
      ensures var s := ScanArgs(root, toks);
        && ctx.lastCommand == s.last && ctx.passedCommands == s.commands
        && passedOptions == s.options && passedArguments == s.positionals
        && ctx.declaredOptions == OptionsOf([root] + s.commands) && ctx.declaredArguments == ArgumentsOf([root] + s.commands)
      ensures ctx.optionsByName == InsertOptions(map[], ctx.declaredOptions)
      ensures ctx.optionsByShortName == InsertShortNames(map[], ctx.declaredOptions)
      ensures ctx.argumentsByName == InsertArguments(map[], ctx.declaredArguments)
    {
      assert NamesAreNew(root, {}, {}) by {
        var whole := [root] + ScanArgs(root, toks).commands;
        MergeAssertsStep(whole, 0);
        assert whole[..0] == [] && whole[0] == root;
      }
      ctx := new Context(root);
      passedOptions, passedArguments := ctx.SortArguments(toks);
      assert ctx.Declared() && ctx.declaredOptions == OptionsOf([root] + ScanArgs(root, toks).commands)
        && ctx.declaredArguments == ArgumentsOf([root] + ScanArgs(root, toks).commands) by {
        ScanDeclares(root, toks);
      }
      ScanOptionTokens(root, toks);
      ctx.ArgumentIndexValid();
    }

    /** The end of `Context::build`: the options are parsed, then the positionals bound. */
    method ParseAll(options: seq<string>, positionals: seq<string>)
      requires Valid() && Declared() && OptionTokens(options)
      requires forall i :: 0 <= i < |argumentsByIndex| ==> argumentsByIndex[i] in argumentsByName
      modifies this`optionsByName, this`errors, this`argumentsByName
      ensures Valid() && Declared()
      ensures OptionState(optionsByName, errors)
        == ParseOptionsSpec(OptionState(old(optionsByName), old(errors)), optionsByShortName, options)
      ensures argumentsByName
        == BindArguments(old(argumentsByName), argumentsByIndex, positionals, Min(|positionals|, |argumentsByIndex|))
    {
      ParseOptions(options);
      ParseArguments(positionals);
    }

    function State(): ContextState
      reads this
    {
      ContextState(lastCommand, passedCommands, optionsByName, argumentsByName, errors)
    }

    /**
     * The loop of `Context::build` that sorts argv: tokens starting with `-`
     * are options; while subcommands still match, a plain token naming a
     * subcommand of the last command merges it; any other plain token is a
     * positional and ends the descent.
     */
    method SortArguments(toks: seq<string>) returns (passedOptions: seq<string>, passedArguments: seq<string>)
      requires Valid() && passedCommands == [] && errors == [] && NonEmptyTokens(toks)
      requires declaredOptions == rootCommand.options && declaredArguments == rootCommand.arguments
      requires optionsByName == InsertOptions(map[], declaredOptions)
      requires optionsByShortName == InsertShortNames(map[], declaredOptions)
      requires argumentsByName == InsertArguments(map[], declaredArguments)
      requires MergeAssertsHold([rootCommand] + ScanArgs(rootCommand, toks).commands)
      modifies this
      ensures Valid() && errors == []
      ensures var s := ScanArgs(rootCommand, toks);
        && passedCommands == s.commands && lastCommand == s.last
        && declaredOptions == s.declaredOptions && declaredArguments == s.declaredArguments
        && passedOptions == s.options && passedArguments == s.positionals
      ensures optionsByName == InsertOptions(map[], declaredOptions)
      ensures optionsByShortName == InsertShortNames(map[], declaredOptions)
      ensures argumentsByName == InsertArguments(map[], declaredArguments)
    {
      passedOptions := [];
      passedArguments := [];
      var foundLastCommand := true;
      ghost var scan := ScanArgs(rootCommand, []);
      for i := 0 to |toks|
        invariant scan == ScanArgs(rootCommand, toks[..i])
        invariant Valid() && errors == []
        invariant passedCommands == scan.commands && lastCommand == scan.last
        invariant declaredOptions == scan.declaredOptions && declaredArguments == scan.declaredArguments
        invariant foundLastCommand == scan.searching
        invariant passedOptions == scan.options && passedArguments == scan.positionals
        invariant optionsByName == InsertOptions(map[], declaredOptions)
        invariant optionsByShortName == InsertShortNames(map[], declaredOptions)
        invariant argumentsByName == InsertArguments(map[], declaredArguments)
      {
        var arg := toks[i];
        ScanArgsSnoc(rootCommand, toks, i);
        if arg[0] == '-' {
          passedOptions := passedOptions + [arg];
        } else if foundLastCommand && arg in lastCommand.subCommands {
          var command := lastCommand.subCommands[arg];
          ScanNamesAreNew(rootCommand, toks, i);
          PassCommand(command);
        } else {
          passedArguments := passedArguments + [arg];
          foundLastCommand := false;
        }
        scan := ScanStep(scan, arg);
      }
      assert toks[..|toks|] == toks;
    }

    /** One step of the descent: `command` is appended to the passed commands and merged. */
    method PassCommand(command: Command)
      requires Valid() && NamesAreNew(command, OptionNameSet(declaredOptions), ArgumentNameSet(declaredArguments))
      requires optionsByName == InsertOptions(map[], declaredOptions)
      requires optionsByShortName == InsertShortNames(map[], declaredOptions)
      requires argumentsByName == InsertArguments(map[], declaredArguments)
      modifies this
      ensures Valid() && errors == old(errors)
      ensures passedCommands == old(passedCommands) + [command] && lastCommand == command
      ensures declaredOptions == old(declaredOptions) + command.options
      ensures declaredArguments == old(declaredArguments) + command.arguments
      ensures optionsByName == InsertOptions(map[], declaredOptions)
      ensures optionsByShortName == InsertShortNames(map[], declaredOptions)
      ensures argumentsByName == InsertArguments(map[], declaredArguments)
    {
      InsertOptionsAppend(map[], declaredOptions, command.options);
      InsertShortNamesAppend(map[], declaredOptions, command.options);
      InsertArgumentsAppend(map[], declaredArguments, command.arguments);
      passedCommands := passedCommands + [command];
      MergeCommand(command);
    }

    /** Every entry of the argument index names a registered argument. */
    lemma ArgumentIndexValid()
      requires ArgumentsIndexed()
      ensures forall i :: 0 <= i < |argumentsByIndex| ==> argumentsByIndex[i] in argumentsByName
    {
      ArgumentIndexFacts(declaredArguments);
    }

    /** `run`: any error prints the usage and exits with 1; otherwise the last command runs. */
    function Run(): (r: RunOutcome)
      reads this
      ensures r.PrintUsage? <==> errors != []
      ensures r.PrintUsage? ==> r.exitCode == 1
      ensures r.Dispatch? ==> r.command == lastCommand
    {
      if errors != [] then PrintUsage(1) else Dispatch(lastCommand)
    }

    /** `option(name)`: null for a name no merged command declares. */
    function OptionNamed(name: string): (r: Option<OptionValue>)
      reads this
      requires Valid() && Declared()
      ensures r.None? <==> name !in OptionNameSet(OptionsOf(merged))
      ensures r.Some? ==> r.value.definition.name == name && r.value == optionsByName[name]
    {
      if name in optionsByName then Some(optionsByName[name]) else None
    }

    /** `argument(name)`: null for a name no merged command declares. */
    function ArgumentNamed(name: string): (r: Option<ArgumentValue>)
      reads this
      requires Valid() && Declared()
      ensures r.None? <==> name !in ArgumentNameSet(ArgumentsOf(merged))
      ensures r.Some? ==> r.value.definition.name == name && r.value == argumentsByName[name]
    {
      if name in argumentsByName then Some(argumentsByName[name]) else None
    }
  }

  /** The short-name index only ever points at declared long names. */
  lemma {:induction false} ShortIndexTargets(m: map<string, string>, opts: seq<OptionDef>, s: string)
    requires s in InsertShortNames(m, opts)
    ensures InsertShortNames(m, opts)[s] in OptionNameSet(opts) || (s in m && InsertShortNames(m, opts)[s] == m[s])
  {
    if opts != [] && s != opts[|opts| - 1].shortName {
      ShortIndexTargets(m, opts[..|opts| - 1], s);
    }
  }

  lemma {:induction false} OptionsOfPrefix(chain: seq<Command>, k: nat)
    requires k <= |chain|
    ensures OptionsOf(chain[..k]) <= OptionsOf(chain)
    ensures ArgumentsOf(chain[..k]) <= ArgumentsOf(chain)
    decreases |chain|
  {
    if k < |chain| {
      assert chain[..|chain| - 1][..k] == chain[..k];
      OptionsOfPrefix(chain[..|chain| - 1], k);
    } else {
      assert chain[..k] == chain;
    }
  }

  /** Unique option names stay unique on every prefix. */
  lemma {:induction false} OptionNamesUniquePrefix(opts: seq<OptionDef>, k: nat)
    requires k <= |opts| && OptionNamesUnique(opts)
    ensures OptionNamesUnique(opts[..k])
    decreases |opts|
  {
    if k < |opts| {
      assert opts[..|opts| - 1][..k] == opts[..k];
      OptionNamesUniquePrefix(opts[..|opts| - 1], k);
    } else {
      assert opts[..k] == opts;
    }
  }

  /** Unique argument names stay unique on every prefix. */
  lemma {:induction false} ArgumentNamesUniquePrefix(args: seq<ArgumentDef>, k: nat)
    requires k <= |args| && ArgumentNamesUnique(args)
    ensures ArgumentNamesUnique(args[..k])
    decreases |args|
  {
    if k < |args| {
      assert args[..|args| - 1][..k] == args[..k];
      ArgumentNamesUniquePrefix(args[..|args| - 1], k);
    } else {
      assert args[..k] == args;
    }
  }

  /**
   * When the whole chain satisfies the merge assertions, each command on it
   * brings names that none of the commands before it declared.
   */
  lemma MergeAssertsStep(chain: seq<Command>, k: nat)
    requires k < |chain| && MergeAssertsHold(chain)
    ensures NamesAreNew(chain[k], OptionNameSet(OptionsOf(chain[..k])), ArgumentNameSet(ArgumentsOf(chain[..k])))
  {
    MergeAssertsPrefix(chain, k + 1);
    assert chain[..k + 1] == chain[..k] + [chain[k]];
    OptionsOfSnoc(chain[..k], chain[k]);
    OptionNamesUniqueAppend(OptionsOf(chain[..k]), chain[k].options);
    ArgumentNamesUniqueAppend(ArgumentsOf(chain[..k]), chain[k].arguments);
  }

  /** The merge assertions on a chain hold on each of its prefixes. */
  lemma MergeAssertsPrefix(chain: seq<Command>, k: nat)
    requires k <= |chain| && MergeAssertsHold(chain)
    ensures MergeAssertsHold(chain[..k])
  {
    OptionsOfPrefix(chain, k);
    var a := OptionsOf(chain[..k]);
    var b := OptionsOf(chain);
    assert a == b[..|a|];
    OptionNamesUniquePrefix(b, |a|);
    var c := ArgumentsOf(chain[..k]);
    var d := ArgumentsOf(chain);
    assert c == d[..|c|];
    ArgumentNamesUniquePrefix(d, |c|);
  }

  /** The commands matched on a prefix of argv are a prefix of those matched on all of it. */
  lemma {:induction false} ScanCommandsPrefix(root: Command, toks: seq<string>, k: nat)
    requires NonEmptyTokens(toks) && k <= |toks|
    ensures ScanArgs(root, toks[..k]).commands <= ScanArgs(root, toks).commands
    decreases |toks|
  {
    if k < |toks| {
      assert toks[..|toks| - 1][..k] == toks[..k];
      ScanCommandsPrefix(root, toks[..|toks| - 1], k);
    } else {
      assert toks[..k] == toks;
    }
  }

  lemma {:induction false} DashTokensAreOptionTokens(toks: seq<string>)
    requires ArgvTokens(toks)
    ensures OptionTokens(DashTokens(toks))
  {
    if toks != [] {
      DashTokensAreOptionTokens(toks[..|toks| - 1]);
    }
  }

  // ---------------------------------------------------------------------
  // printUsage: the aligned listings
  // ---------------------------------------------------------------------

  /** The left column of an "Available options" row: `  --name`, then `, -short` when there is one. */
  function OptionLabel(d: OptionDef): (r: string)
    ensures StartsWith(r, "  --" + d.name)
    ensures d.shortName == [] <==> r == "  --" + d.name
  {
    "  --" + d.name + (if d.shortName == [] then "" else ", -" + d.shortName)
  }

  /** The "Available options" rows: each label padded to the longest label plus two, then the description. */
  method OptionRows(defs: seq<OptionDef>) returns (rows: seq<string>, column: nat)
    ensures |rows| == |defs|
    ensures defs != [] ==> exists i :: 0 <= i < |defs| && column == |OptionLabel(defs[i])| + 2
    ensures forall i :: 0 <= i < |rows| ==>
        && |OptionLabel(defs[i])| + 2 <= column <= |rows[i]|
        && rows[i][..column] == OptionLabel(defs[i]) + Repeat(' ', column - |OptionLabel(defs[i])|)
        && rows[i][column..] == defs[i].description
  {
    var labels := seq(|defs|, i requires 0 <= i < |defs| => OptionLabel(defs[i]));
    var descriptions := seq(|defs|, i requires 0 <= i < |defs| => defs[i].description);
    rows, column := LabelRows(labels, descriptions);
    assert forall i :: 0 <= i < |defs| ==> labels[i] == OptionLabel(defs[i]) && descriptions[i] == defs[i].description;
  }
}
