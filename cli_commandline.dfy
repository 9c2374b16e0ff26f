/**
 * The `CommandLine` revision of ply-cli's `Context` (CommandLine.h): `build`
 * descends from the root definition through the sub-commands the argv
 * words name, registering every flag, option and argument of each command
 * it reaches under its long and short names, and `parseArgs` then marks
 * `--flag` tokens present and stores a value for `--option=value` tokens.
 */
module CliCommandLine {
  import opened Text
  import opened CliDefinitions

  /** `Context::Flag`: the definition and whether `--name` was seen. */
  datatype Flag = Flag(definition: ShortNamedDefinition, isPresent: bool)

  /** `Context::Option`: the definition and the stored value. */
  datatype OptionSlot = OptionSlot(definition: ShortNamedDefinition, value: string)

  /** `Context::Argument`: the definition and the stored value. */
  datatype ArgumentSlot = ArgumentSlot(definition: ArgumentDefinition, value: string)

  // ---------------------------------------------------------------------
  // Hash-map registration, as values
  // ---------------------------------------------------------------------

  /** Inserting `keys[i] := vals[i]` in order into an empty map; a later key wins. */
  function Index<V>(keys: seq<string>, vals: seq<V>): (m: map<string, V>)
    requires |keys| == |vals|
  {
    if keys == [] then map[]
    else Index(keys[..|keys| - 1], vals[..|vals| - 1])[keys[|keys| - 1] := vals[|vals| - 1]]
  }

  /** The keys of `Index(keys, vals)` are exactly `keys`. */
  lemma {:induction false} IndexKeys<V>(keys: seq<string>, vals: seq<V>)
    requires |keys| == |vals|
    ensures forall k :: k in Index(keys, vals) <==> k in keys
  {
    if keys != [] {
      var n := |keys| - 1;
      IndexKeys(keys[..n], vals[..n]);
      assert keys == keys[..n] + [keys[n]];
    }
  }

  /** Inserting two runs one after the other is the union of the two maps, the second run winning. */
  lemma {:induction false} IndexAppend<V>(k1: seq<string>, v1: seq<V>, k2: seq<string>, v2: seq<V>)
    requires |k1| == |v1| && |k2| == |v2|
    ensures Index(k1 + k2, v1 + v2) == Index(k1, v1) + Index(k2, v2)
  {
    if k2 != [] {
      var n := |k2| - 1;
      assert (k1 + k2)[..|k1 + k2| - 1] == k1 + k2[..n];
      assert (v1 + v2)[..|v1 + v2| - 1] == v1 + v2[..n];
      IndexAppend(k1, v1, k2[..n], v2[..n]);
    } else {
      assert k1 + k2 == k1 && v1 + v2 == v1;
    }
  }

  /** With distinct keys, every key finds its own value. */
  lemma {:induction false} IndexAt<V>(keys: seq<string>, vals: seq<V>, i: nat)
    requires |keys| == |vals| && Distinct(keys) && i < |keys|
    ensures keys[i] in Index(keys, vals) && Index(keys, vals)[keys[i]] == vals[i]
  {
    var n := |keys| - 1;
    if i < n {
      IndexAt(keys[..n], vals[..n], i);
      IndexKeys(keys[..n], vals[..n]);
    }
  }

  /** The name of each definition, in declaration order: the keys the `append` loops insert. */
  function NamesBy<T>(defs: seq<T>, name: T -> string): (r: seq<string>)
    ensures |r| == |defs| && forall i :: 0 <= i < |defs| ==> r[i] == name(defs[i])
  {
    if defs == [] then [] else NamesBy(defs[..|defs| - 1], name) + [name(defs[|defs| - 1])]
  }

  function Names(defs: seq<ShortNamedDefinition>): (r: seq<string>)
    ensures |r| == |defs| && forall i :: 0 <= i < |defs| ==> r[i] == defs[i].name
  {
    NamesBy(defs, (d: ShortNamedDefinition) => d.name)
  }

  function ShortNames(defs: seq<ShortNamedDefinition>): (r: seq<string>)
    reads defs`shortName
    ensures |r| == |defs| && forall i :: 0 <= i < |defs| ==> r[i] == defs[i].shortName
  {
    if defs == [] then [] else ShortNames(defs[..|defs| - 1]) + [defs[|defs| - 1].shortName]
  }

  function ArgumentNames(defs: seq<ArgumentDefinition>): (r: seq<string>)
    ensures |r| == |defs| && forall i :: 0 <= i < |defs| ==> r[i] == defs[i].name
  {
    NamesBy(defs, (d: ArgumentDefinition) => d.name)
  }

  /** A freshly inserted flag entry per definition: not present. */
  function FlagSlots(defs: seq<ShortNamedDefinition>): (r: seq<Flag>)
    ensures |r| == |defs| && forall i :: 0 <= i < |defs| ==> r[i] == Flag(defs[i], false)
  {
    if defs == [] then [] else FlagSlots(defs[..|defs| - 1]) + [Flag(defs[|defs| - 1], false)]
  }

  /** A freshly inserted option entry per definition: empty value. */
  function OptionSlots(defs: seq<ShortNamedDefinition>): (r: seq<OptionSlot>)
    ensures |r| == |defs| && forall i :: 0 <= i < |defs| ==> r[i] == OptionSlot(defs[i], "")
  {
    if defs == [] then [] else OptionSlots(defs[..|defs| - 1]) + [OptionSlot(defs[|defs| - 1], "")]
  }

  /** A freshly inserted argument entry per definition: empty value. */
  function ArgumentSlots(defs: seq<ArgumentDefinition>): (r: seq<ArgumentSlot>)
    ensures |r| == |defs| && forall i :: 0 <= i < |defs| ==> r[i] == ArgumentSlot(defs[i], "")
  {
    if defs == [] then [] else ArgumentSlots(defs[..|defs| - 1]) + [ArgumentSlot(defs[|defs| - 1], "")]
  }

  /**
   * `keys` can be inserted one by one without tripping the duplicate assert:
   * each is missing from the map and from the keys inserted before it.
   */
  predicate NewKeys(keys: seq<string>, taken: set<string>)
    decreases |keys|
  {
    keys == [] || (keys[0] !in taken && NewKeys(keys[1..], taken + {keys[0]}))
  }

  /** Inserting one by one succeeds exactly when the keys are distinct and none is taken already. */
  lemma {:induction false} NewKeysMeans(keys: seq<string>, taken: set<string>)
    ensures NewKeys(keys, taken) <==> Distinct(keys) && forall i :: 0 <= i < |keys| ==> keys[i] !in taken
    decreases |keys|
  {
    if keys != [] {
      var rest := keys[1..];
      NewKeysMeans(rest, taken + {keys[0]});
      if NewKeys(keys, taken) {
        forall i, j | 0 <= i < j < |keys|
          ensures keys[i] != keys[j]
        {
          assert keys[j] == rest[j - 1];
          if i > 0 {
            assert keys[i] == rest[i - 1];
          }
        }
        forall i | 0 <= i < |keys|
          ensures keys[i] !in taken
        {
          if i > 0 {
            assert keys[i] == rest[i - 1];
          }
        }
      }
      if Distinct(keys) && forall i :: 0 <= i < |keys| ==> keys[i] !in taken {
        forall i, j | 0 <= i < j < |rest|
          ensures rest[i] != rest[j]
        {
          assert rest[i] == keys[i + 1] && rest[j] == keys[j + 1];
        }
        forall i | 0 <= i < |rest|
          ensures rest[i] !in taken + {keys[0]}
        {
          assert rest[i] == keys[i + 1];
        }
      }
    }
  }

  /** Keys a run can add to a map that already holds `a`: only when `a + b` has no repeat. */
  lemma DistinctSplit(a: seq<string>, b: seq<string>)
    requires Distinct(a + b)
    ensures Distinct(a) && NewKeys(b, set k | k in a)
  {
    forall i, j | 0 <= i < j < |a|
      ensures a[i] != a[j]
    {
      assert (a + b)[i] == a[i] && (a + b)[j] == a[j];
    }
    forall i, j | 0 <= i < j < |b|
      ensures b[i] != b[j]
    {
      assert (a + b)[|a| + i] == b[i] && (a + b)[|a| + j] == b[j];
    }
    forall i, j | 0 <= i < |b| && 0 <= j < |a|
      ensures b[i] != a[j]
    {
      assert (a + b)[|a| + i] == b[i] && (a + b)[j] == a[j];
    }
    NewKeysMeans(b, set k | k in a);
  }

  /**
   * One insertion of a run into `m0`: the key is new (the duplicate assert
   * holds) and the map grows by exactly that entry.
   */
  lemma InsertStep<V>(m0: map<string, V>, keys: seq<string>, vals: seq<V>, i: nat)
    requires |keys| == |vals| && NewKeys(keys, m0.Keys) && i < |keys|
    ensures keys[i] !in m0 + Index(keys[..i], vals[..i])
    ensures (m0 + Index(keys[..i], vals[..i]))[keys[i] := vals[i]] == m0 + Index(keys[..i + 1], vals[..i + 1])
  {
    NewKeysMeans(keys, m0.Keys);
    assert keys[..i + 1][..i] == keys[..i] && vals[..i + 1][..i] == vals[..i];
    var before := Index(keys[..i], vals[..i]);
    IndexKeys(keys[..i], vals[..i]);
    UnionUpdate(m0, before, keys[i], vals[i]);
  }

  lemma UnionUpdate<V>(a: map<string, V>, b: map<string, V>, x: string, v: V)
    ensures (a + b)[x := v] == a + b[x := v]
  {
    var l, r := (a + b)[x := v], a + b[x := v];
    assert l.Keys == r.Keys;
    forall k | k in l
      ensures l[k] == r[k]
    {
    }
  }

  lemma IndexWhole<V>(keys: seq<string>, vals: seq<V>)
    ensures keys[..|keys|] == keys && vals[..|vals|] == vals
  {
  }

  // ---------------------------------------------------------------------
  // What `append` registers, as values
  // ---------------------------------------------------------------------

  /**
   * What `append` reads of one command definition when it is called: its
   * flags, options and arguments in declaration order, and the short names
   * its flags and options had at that moment.
   */
  datatype Decl = Decl(
    flags: seq<ShortNamedDefinition>, flagShortNames: seq<string>,
    options: seq<ShortNamedDefinition>, optionShortNames: seq<string>,
    arguments: seq<ArgumentDefinition>)
  {
    predicate Wf()
    {
      |flagShortNames| == |flags| && |optionShortNames| == |options|
    }
  }

  function DeclOf(command: CommandDefinition): (d: Decl)
    reads command`flags, command`options, command`arguments, command.flags`shortName, command.options`shortName
    ensures d.Wf() && d.flags == command.flags && d.options == command.options && d.arguments == command.arguments
  {
    Decl(command.flags, ShortNames(command.flags), command.options, ShortNames(command.options), command.arguments)
  }

  predicate AllWf(ds: seq<Decl>)
  {
    forall i :: 0 <= i < |ds| ==> ds[i].Wf()
  }

  /** The five maps of a `Context`. */
  datatype Registry = Registry(
    flagsByName: map<string, Flag>, flagsByShortName: map<string, Flag>,
    optionsByName: map<string, OptionSlot>, optionsByShortName: map<string, OptionSlot>,
    arguments: map<string, ArgumentSlot>)

  const NoneRegistered := Registry(map[], map[], map[], map[], map[])

  /** The maps once a command declaring `d` has been appended to a context holding `reg`. */
  function Appended(reg: Registry, d: Decl): Registry
    requires d.Wf()
  {
    Registry(
      reg.flagsByName + Index(Names(d.flags), FlagSlots(d.flags)),
      reg.flagsByShortName + Index(d.flagShortNames, FlagSlots(d.flags)),
      reg.optionsByName + Index(Names(d.options), OptionSlots(d.options)),
      reg.optionsByShortName + Index(d.optionShortNames, OptionSlots(d.options)),
      reg.arguments + Index(ArgumentNames(d.arguments), ArgumentSlots(d.arguments)))
  }

  /** Appending `d` to `reg` trips none of the duplicate asserts. */
  predicate Admits(reg: Registry, d: Decl)
  {
    && NewKeys(Names(d.flags), reg.flagsByName.Keys) && NewKeys(d.flagShortNames, reg.flagsByShortName.Keys)
    && NewKeys(Names(d.options), reg.optionsByName.Keys) && NewKeys(d.optionShortNames, reg.optionsByShortName.Keys)
    && NewKeys(ArgumentNames(d.arguments), reg.arguments.Keys)
  }

  /** The maps after appending the commands `ds` describe, in order, to a fresh context. */
  function Registered(ds: seq<Decl>): Registry
    requires AllWf(ds)
  {
    if ds == [] then NoneRegistered else Appended(Registered(ds[..|ds| - 1]), ds[|ds| - 1])
  }

  /** No duplicate assert trips on the way. */
  predicate AppendsHold(ds: seq<Decl>)
    requires AllWf(ds)
  {
    ds == [] || (AppendsHold(ds[..|ds| - 1]) && Admits(Registered(ds[..|ds| - 1]), ds[|ds| - 1]))
  }

  /** One more append: registered as `Appended` says, and the asserts still hold when `d` is admitted. */
  lemma AppendStep(ds: seq<Decl>, d: Decl)
    requires AllWf(ds) && d.Wf() && AppendsHold(ds) && Admits(Registered(ds), d)
    ensures AllWf(ds + [d]) && Registered(ds + [d]) == Appended(Registered(ds), d) && AppendsHold(ds + [d])
  {
    assert (ds + [d])[..|ds|] == ds;
  }

  /**
   * `append` asserts every short name new as well, empty ones included: once
   * any appended command declares two flags with the same short name (two
   * flags without one, say), some assert trips.
   */
  lemma {:induction false} RepeatedShortNameTrips(ds: seq<Decl>, k: nat, i: nat, j: nat)
    requires AllWf(ds) && k < |ds| && i < j < |ds[k].flagShortNames|
    requires ds[k].flagShortNames[i] == ds[k].flagShortNames[j]
    ensures !AppendsHold(ds)
  {
    var n := |ds| - 1;
    if k < n {
      assert ds[..n][k] == ds[k];
      RepeatedShortNameTrips(ds[..n], k, i, j);
    } else {
      assert !Distinct(ds[n].flagShortNames);
      NewKeysMeans(ds[n].flagShortNames, Registered(ds[..n]).flagsByShortName.Keys);
    }
  }

  /** Every key `append` uses, in insertion order, map by map, with the entries inserted under them. */
  datatype Runs = Runs(
    flagNames: seq<string>, flagShortNames: seq<string>, flags: seq<Flag>,
    optionNames: seq<string>, optionShortNames: seq<string>, options: seq<OptionSlot>,
    argumentNames: seq<string>, arguments: seq<ArgumentSlot>)
  {
    predicate Wf()
    {
      && |flagNames| == |flags| && |flagShortNames| == |flags|
      && |optionNames| == |options| && |optionShortNames| == |options|
      && |argumentNames| == |arguments|
    }
  }

  function RunsOf(ds: seq<Decl>): (r: Runs)
    requires AllWf(ds)
    ensures r.Wf()
  {
    if ds == [] then Runs([], [], [], [], [], [], [], [])
    else
      var r, d := RunsOf(ds[..|ds| - 1]), ds[|ds| - 1];
      Runs(
        r.flagNames + Names(d.flags), r.flagShortNames + d.flagShortNames, r.flags + FlagSlots(d.flags),
        r.optionNames + Names(d.options), r.optionShortNames + d.optionShortNames, r.options + OptionSlots(d.options),
        r.argumentNames + ArgumentNames(d.arguments), r.arguments + ArgumentSlots(d.arguments))
  }

  /**
   * What the appends amount to: every map indexes the concatenated runs of
   * keys, and the duplicate asserts all hold exactly when each map's keys
   * are pairwise different, across all the commands (two flags without a
   * short name already clash).
   */
  lemma {:induction false} RegisteredIndexesRuns(ds: seq<Decl>)
    requires AllWf(ds)
    ensures var r := RunsOf(ds);
      Registered(ds) == Registry(
        Index(r.flagNames, r.flags), Index(r.flagShortNames, r.flags),
        Index(r.optionNames, r.options), Index(r.optionShortNames, r.options),
        Index(r.argumentNames, r.arguments))
    ensures var r := RunsOf(ds);
      AppendsHold(ds) <==>
        && Distinct(r.flagNames) && Distinct(r.flagShortNames)
        && Distinct(r.optionNames) && Distinct(r.optionShortNames)
        && Distinct(r.argumentNames)
  {
    if ds != [] {
      var n := |ds| - 1;
      var d := ds[n];
      RegisteredIndexesRuns(ds[..n]);
      var r := RunsOf(ds[..n]);
      IndexAppend(r.flagNames, r.flags, Names(d.flags), FlagSlots(d.flags));
      IndexAppend(r.flagShortNames, r.flags, d.flagShortNames, FlagSlots(d.flags));
      IndexAppend(r.optionNames, r.options, Names(d.options), OptionSlots(d.options));
      IndexAppend(r.optionShortNames, r.options, d.optionShortNames, OptionSlots(d.options));
      IndexAppend(r.argumentNames, r.arguments, ArgumentNames(d.arguments), ArgumentSlots(d.arguments));
      if AppendsHold(ds[..n]) {
        DistinctAdmits(r.flagNames, r.flags, Names(d.flags));
        DistinctAdmits(r.flagShortNames, r.flags, d.flagShortNames);
        DistinctAdmits(r.optionNames, r.options, Names(d.options));
        DistinctAdmits(r.optionShortNames, r.options, d.optionShortNames);
        DistinctAdmits(r.argumentNames, r.arguments, ArgumentNames(d.arguments));
      } else {
        DistinctPrefix(r.flagNames, Names(d.flags));
        DistinctPrefix(r.flagShortNames, d.flagShortNames);
        DistinctPrefix(r.optionNames, Names(d.options));
        DistinctPrefix(r.optionShortNames, d.optionShortNames);
        DistinctPrefix(r.argumentNames, ArgumentNames(d.arguments));
      }
    }
  }

  /** A repeat-free sequence has a repeat-free prefix. */
  lemma DistinctPrefix(a: seq<string>, b: seq<string>)
    ensures Distinct(a + b) ==> Distinct(a)
  {
    if Distinct(a + b) {
      DistinctSplit(a, b);
    }
  }

  /** With a run's keys distinct, a following run keeps them distinct exactly when it misses every key already in. */
  lemma DistinctAdmits<V>(a: seq<string>, va: seq<V>, b: seq<string>)
    requires |a| == |va| && Distinct(a)
    ensures Distinct(a + b) <==> NewKeys(b, Index(a, va).Keys)
  {
    IndexKeys(a, va);
    NewKeysMeans(b, Index(a, va).Keys);
    if Distinct(a + b) {
      DistinctSplit(a, b);
      assert Index(a, va).Keys == set k | k in a;
    } else if NewKeys(b, Index(a, va).Keys) {
      forall i, j | 0 <= i < j < |a + b|
        ensures (a + b)[i] != (a + b)[j]
      {
        if i < |a| <= j {
          assert (a + b)[i] == a[i] && a[i] in Index(a, va).Keys;
        }
      }
    }
  }

  // ---------------------------------------------------------------------
  // The chain of commands `build` walks
  // ---------------------------------------------------------------------

  /**
   * `path` starts at `root` and each next command is the sub-command the
   * next word names.
   */
  predicate Chain(path: seq<CommandDefinition>, root: CommandDefinition, words: seq<string>)
    reads path`subCommands
  {
    && |path| >= 1 && path[0] == root && |path| - 1 <= |words|
    && forall k {:trigger words[k]} :: 0 <= k < |path| - 1 ==> words[k] in path[k].subCommands && path[k].subCommands[words[k]] == path[k + 1]
  }

  /** A chain that stopped where it had to: no word left, or the next word names no sub-command. */
  predicate Descends(path: seq<CommandDefinition>, root: CommandDefinition, words: seq<string>)
    reads path`subCommands
  {
    Chain(path, root, words) && (|path| - 1 < |words| ==> words[|path| - 1] !in path[|path| - 1].subCommands)
  }

  /** Descent is determined by the words: two stopped chains from the same root are equal. */
  lemma {:induction false} DescendsUnique(p: seq<CommandDefinition>, q: seq<CommandDefinition>, root: CommandDefinition, words: seq<string>)
    requires Descends(p, root, words) && Descends(q, root, words)
    ensures p == q
  {
    var k := 0;
    while k < |p| - 1 && k < |q| - 1
      invariant 0 <= k < |p| && k < |q| && p[..k + 1] == q[..k + 1]
    {
      assert p[k] == q[k];
      assert p[k + 1] == p[k].subCommands[words[k]] == q[k + 1];
      assert p[..k + 2] == p[..k + 1] + [p[k + 1]] && q[..k + 2] == q[..k + 1] + [q[k + 1]];
      k := k + 1;
    }
    assert p[k] == q[k];
    if |p| - 1 == k && k < |q| - 1 {
      assert false;
    } else if |q| - 1 == k && k < |p| - 1 {
      assert false;
    }
    assert p == p[..k + 1] && q == q[..k + 1];
  }

  // ---------------------------------------------------------------------
  // parseArgs, as a value
  // ---------------------------------------------------------------------

  /** The two maps `parseArgs` writes. */
  datatype Seen = Seen(flags: map<string, Flag>, options: map<string, OptionSlot>)

  /**
   * `args[0].subStr(pos)` is only defined when `pos` does not pass the end
   * of the program name. It is read only for a `--name=value` token whose
   * name is a registered option (`keys`); any other token asks nothing.
   */
  predicate FitsProgram(program: string, keys: set<string>, t: string)
  {
    var pos := FindByte(t, '=', 2);
    StartsWith(t, "--") && pos >= 0 && t[2..pos] in keys ==> pos <= |program|
  }

  /**
   * One turn of `parseArgs`. A `--` token with a `=` at or after index 2
   * names the option between the dashes and the `=`, and a known option
   * gets the program name from that index on (the code reads `args[0]`,
   * not the token); a `--` token without one names a flag, and a known flag
   * becomes present. Unknown names and other tokens change nothing.
   */
  function ParseStep(s: Seen, program: string, t: string): (r: Seen)
    requires FitsProgram(program, s.options.Keys, t)
    ensures r.flags.Keys == s.flags.Keys && r.options.Keys == s.options.Keys
  {
    if !StartsWith(t, "--") then s
    else
      var pos := FindByte(t, '=', 2);
      if pos >= 0 then
        var key := t[2..pos];
        if key in s.options then s.(options := s.options[key := s.options[key].(value := program[pos..])]) else s
      else
        var key := t[2..];
        if key in s.flags then s.(flags := s.flags[key := s.flags[key].(isPresent := true)]) else s
  }

  predicate AllFit(program: string, keys: set<string>, toks: seq<string>)
  {
    forall i :: 0 <= i < |toks| ==> FitsProgram(program, keys, toks[i])
  }

  function ParseSpec(s: Seen, program: string, toks: seq<string>): (r: Seen)
    requires AllFit(program, s.options.Keys, toks)
    ensures r.flags.Keys == s.flags.Keys && r.options.Keys == s.options.Keys
  {
    if toks == [] then s else ParseStep(ParseSpec(s, program, toks[..|toks| - 1]), program, toks[|toks| - 1])
  }

  lemma ParseSpecSnoc(s: Seen, program: string, toks: seq<string>, i: nat)
    requires i < |toks| && AllFit(program, s.options.Keys, toks)
    ensures AllFit(program, s.options.Keys, toks[..i]) && AllFit(program, s.options.Keys, toks[..i + 1])
    ensures ParseSpec(s, program, toks[..i + 1]) == ParseStep(ParseSpec(s, program, toks[..i]), program, toks[i])
  {
    assert toks[..i + 1][..i] == toks[..i];
  }

  /** `--k` sets flag `k`: the token is exactly that, and `k` holds no `=` (else it would read as an option). */
  predicate NamesFlag(t: string, k: string)
  {
    t == "--" + k && '=' !in k
  }

  /** `--k=...` sets option `k`; `k` holds no `=`, since the first `=` ends the name. */
  predicate NamesOption(t: string, k: string)
  {
    StartsWith(t, "--" + k + "=") && '=' !in k
  }

  /** Which entry one token touches. */
  lemma StepTouches(s: Seen, program: string, t: string, k: string)
    requires FitsProgram(program, s.options.Keys, t)
    ensures k in s.flags ==>
      ParseStep(s, program, t).flags[k] == (if NamesFlag(t, k) then s.flags[k].(isPresent := true) else s.flags[k])
    ensures k in s.options && NamesOption(t, k) ==> |k| + 2 <= |program|
    ensures k in s.options ==>
      ParseStep(s, program, t).options[k] ==
        (if NamesOption(t, k) then s.options[k].(value := program[|k| + 2..]) else s.options[k])
  {
    if StartsWith(t, "--") {
      var pos := FindByte(t, '=', 2);
      assert t == "--" + t[2..];
      if NamesOption(t, k) {
        assert t[|k| + 2] == '=';
        assert forall i :: 2 <= i < |k| + 2 ==> t[i] == k[i - 2];
        assert t[2..|k| + 2] == k;
      } else if pos >= 0 && t[2..pos] == k {
        assert t[..|k| + 3] == "--" + k + "=";
      }
      if NamesFlag(t, k) {
        assert t[2..] == k;
      }
    }
  }

  /** Some token of `toks` names flag `k`. */
  predicate FlagMentioned(toks: seq<string>, k: string)
  {
    exists i :: 0 <= i < |toks| && NamesFlag(toks[i], k)
  }

  /** Some token of `toks` names option `k`. */
  predicate OptionMentioned(toks: seq<string>, k: string)
  {
    exists i :: 0 <= i < |toks| && NamesOption(toks[i], k)
  }

  /**
   * A known flag ends up present exactly when it already was or some
   * token is `--k`; its definition is untouched.
   */
  lemma {:induction false} FlagPresence(s: Seen, program: string, toks: seq<string>, k: string)
    requires AllFit(program, s.options.Keys, toks) && k in s.flags
    ensures ParseSpec(s, program, toks).flags[k] ==
      s.flags[k].(isPresent := s.flags[k].isPresent || FlagMentioned(toks, k))
  {
    if toks != [] {
      var n := |toks| - 1;
      FlagPresence(s, program, toks[..n], k);
      StepTouches(ParseSpec(s, program, toks[..n]), program, toks[n], k);
      if FlagMentioned(toks, k) && !NamesFlag(toks[n], k) {
        var i :| 0 <= i < |toks| && NamesFlag(toks[i], k);
        assert toks[..n][i] == toks[i];
      }
      if FlagMentioned(toks[..n], k) {
        var i :| 0 <= i < n && NamesFlag(toks[..n][i], k);
        assert toks[i] == toks[..n][i];
      }
    }
  }

  /**
   * A known option named by any token ends up holding the program name
   * from index `|k| + 2` on, whichever value that token carried; an option
   * no token names keeps its entry.
   */
  lemma {:induction false} OptionValue(s: Seen, program: string, toks: seq<string>, k: string)
    requires AllFit(program, s.options.Keys, toks) && k in s.options
    ensures OptionMentioned(toks, k) ==> |k| + 2 <= |program|
    ensures ParseSpec(s, program, toks).options[k] ==
      if OptionMentioned(toks, k) then s.options[k].(value := program[|k| + 2..]) else s.options[k]
  {
    if toks != [] {
      var n := |toks| - 1;
      OptionValue(s, program, toks[..n], k);
      StepTouches(ParseSpec(s, program, toks[..n]), program, toks[n], k);
      if OptionMentioned(toks, k) && !NamesOption(toks[n], k) {
        var i :| 0 <= i < |toks| && NamesOption(toks[i], k);
        assert toks[..n][i] == toks[i];
      }
      if OptionMentioned(toks[..n], k) {
        var i :| 0 <= i < n && NamesOption(toks[..n][i], k);
        assert toks[i] == toks[..n][i];
      }
    }
  }

  /** What the as-written store means: `--k=a` and `--k=b` leave the same value behind. */
  lemma OptionValueIgnoresToken(s: Seen, program: string, k: string, a: string, b: string)
    requires k in s.options && '=' !in k && |k| + 2 <= |program|
    ensures AllFit(program, s.options.Keys, ["--" + k + "=" + a]) && AllFit(program, s.options.Keys, ["--" + k + "=" + b])
    ensures ParseSpec(s, program, ["--" + k + "=" + a]) == ParseSpec(s, program, ["--" + k + "=" + b])
  {
    var ta, tb := "--" + k + "=" + a, "--" + k + "=" + b;
    assert ta[..|k| + 3] == "--" + k + "=" && tb[..|k| + 3] == "--" + k + "=";
    assert NamesOption(ta, k) && NamesOption(tb, k);
    assert FindByte(ta, '=', 2) == |k| + 2 by {
      assert ta[|k| + 2] == '=';
      assert forall i :: 2 <= i < |k| + 2 ==> ta[i] == k[i - 2];
    }
    assert FindByte(tb, '=', 2) == |k| + 2 by {
      assert tb[|k| + 2] == '=';
      assert forall i :: 2 <= i < |k| + 2 ==> tb[i] == k[i - 2];
    }
    assert [ta][..0] == [] && [tb][..0] == [];
    assert ta[2..|k| + 2] == k && tb[2..|k| + 2] == k;
  }

  /**
   * An unknown `--k=v` asks nothing of the program name, however short,
   * and changes neither map: the lookup misses and the token is skipped.
   */
  lemma UnknownOptionSkipped(s: Seen, program: string, k: string, v: string)
    requires k !in s.options && '=' !in k
    ensures AllFit(program, s.options.Keys, ["--" + k + "=" + v])
    ensures ParseSpec(s, program, ["--" + k + "=" + v]) == s
  {
    var t := "--" + k + "=" + v;
    assert FindByte(t, '=', 2) == |k| + 2 by {
      assert t[|k| + 2] == '=';
      assert forall i :: 2 <= i < |k| + 2 ==> t[i] == k[i - 2];
    }
    assert t[..2] == "--" && t[2..|k| + 2] == k;
    assert [t][..0] == [];
  }

  // ---------------------------------------------------------------------
  // The context
  // ---------------------------------------------------------------------

  /** The flag loop of `append`: each flag goes in under its long name and under its short name. */
  method InsertFlags(defs: seq<ShortNamedDefinition>, byName0: map<string, Flag>, byShortName0: map<string, Flag>)
      returns (byName: map<string, Flag>, byShortName: map<string, Flag>)
    requires NewKeys(Names(defs), byName0.Keys) && NewKeys(ShortNames(defs), byShortName0.Keys)
    ensures byName == byName0 + Index(Names(defs), FlagSlots(defs))
    ensures byShortName == byShortName0 + Index(ShortNames(defs), FlagSlots(defs))
  {
    ghost var names, shortNames, slots := Names(defs), ShortNames(defs), FlagSlots(defs);
    byName, byShortName := byName0, byShortName0;
    for i := 0 to |defs|
      invariant byName == byName0 + Index(names[..i], slots[..i])
      invariant byShortName == byShortName0 + Index(shortNames[..i], slots[..i])
    {
      InsertStep(byName0, names, slots, i);
      byName := byName[defs[i].name := Flag(defs[i], false)];
      InsertStep(byShortName0, shortNames, slots, i);
      byShortName := byShortName[defs[i].shortName := Flag(defs[i], false)];
    }
    IndexWhole(names, slots);
    IndexWhole(shortNames, slots);
  }

  /** The option loop of `append`: each option goes in under its long name and under its short name. */
  method InsertOptions(defs: seq<ShortNamedDefinition>, byName0: map<string, OptionSlot>, byShortName0: map<string, OptionSlot>)
      returns (byName: map<string, OptionSlot>, byShortName: map<string, OptionSlot>)
    requires NewKeys(Names(defs), byName0.Keys) && NewKeys(ShortNames(defs), byShortName0.Keys)
    ensures byName == byName0 + Index(Names(defs), OptionSlots(defs))
    ensures byShortName == byShortName0 + Index(ShortNames(defs), OptionSlots(defs))
  {
    ghost var names, shortNames, slots := Names(defs), ShortNames(defs), OptionSlots(defs);
    byName, byShortName := byName0, byShortName0;
    for i := 0 to |defs|
      invariant byName == byName0 + Index(names[..i], slots[..i])
      invariant byShortName == byShortName0 + Index(shortNames[..i], slots[..i])
    {
      InsertStep(byName0, names, slots, i);
      byName := byName[defs[i].name := OptionSlot(defs[i], "")];
      InsertStep(byShortName0, shortNames, slots, i);
      byShortName := byShortName[defs[i].shortName := OptionSlot(defs[i], "")];
    }
    IndexWhole(names, slots);
    IndexWhole(shortNames, slots);
  }

  /** The argument loop of `append`: each argument goes in under its name. */
  method InsertArguments(defs: seq<ArgumentDefinition>, byName0: map<string, ArgumentSlot>)
      returns (byName: map<string, ArgumentSlot>)
    requires NewKeys(ArgumentNames(defs), byName0.Keys)
    ensures byName == byName0 + Index(ArgumentNames(defs), ArgumentSlots(defs))
  {
    ghost var names, slots := ArgumentNames(defs), ArgumentSlots(defs);
    byName := byName0;
    for i := 0 to |defs|
      invariant byName == byName0 + Index(names[..i], slots[..i])
    {
      InsertStep(byName0, names, slots, i);
      byName := byName[defs[i].name := ArgumentSlot(defs[i], "")];
    }
    IndexWhole(names, slots);
  }


  /** The three loops of `append`, one after the other; `d` is what they read of `command`. */
  method Register(reg: Registry, command: CommandDefinition, ghost d: Decl) returns (r: Registry)
    requires d == DeclOf(command) && Admits(reg, d)
    ensures r == Appended(reg, d)
  {
    var flagsByName, flagsByShortName := InsertFlags(command.flags, reg.flagsByName, reg.flagsByShortName);
    var optionsByName, optionsByShortName := InsertOptions(command.options, reg.optionsByName, reg.optionsByShortName);
    var arguments := InsertArguments(command.arguments, reg.arguments);
    r := Registry(flagsByName, flagsByShortName, optionsByName, optionsByShortName, arguments);
  }

  /** The loop of `parseArgs` over `args[1..]`, on the two maps it writes. */
  method ParseTokens(s0: Seen, args: seq<string>) returns (s: Seen)
    requires |args| >= 1 && AllFit(args[0], s0.options.Keys, args[1..])
    ensures s == ParseSpec(s0, args[0], args[1..])
  {
    ghost var toks := args[1..];
    s := s0;
    for i := 1 to |args|
      invariant s == ParseSpec(s0, args[0], toks[..i - 1])
    {
      ParseSpecSnoc(s0, args[0], toks, i - 1);
      var t := args[i];
      assert t == toks[i - 1] && FitsProgram(args[0], s0.options.Keys, t);
      if StartsWith(t, "--") {
        var pos := FindByte(t, '=', 2);
        if pos >= 0 {
          var key := t[2..pos];
          if key in s.options {
            s := s.(options := s.options[key := s.options[key].(value := args[0][pos..])]);
          }
        } else {
          var key := t[2..];
          if key in s.flags {
            s := s.(flags := s.flags[key := s.flags[key].(isPresent := true)]);
          }
        }
      }
    }
    assert toks[..|args| - 1] == toks;
  }

  /** The maps once `parseArgs` has run over `args`: the flags and options by long name as `ParseSpec` leaves them. */
  function Parsed(reg: Registry, args: seq<string>): Registry
    requires |args| >= 1 && AllFit(args[0], reg.optionsByName.Keys, args[1..])
  {
    var s := ParseSpec(Seen(reg.flagsByName, reg.optionsByName), args[0], args[1..]);
    reg.(flagsByName := s.flags, optionsByName := s.options)
  }

  /** The `j`-th append goes from `regs[j]` to `regs[j + 1]` and trips no assert. */
  predicate StepHolds(regs: seq<Registry>, ds: seq<Decl>, j: nat)
    requires j < |ds| && |regs| == |ds| + 1 && AllWf(ds)
  {
    Admits(regs[j], ds[j]) && regs[j + 1] == Appended(regs[j], ds[j])
  }

  /** `regs` are the maps before the first append of `ds` and after each one, with no assert tripping. */
  predicate Stepwise(regs: seq<Registry>, ds: seq<Decl>)
    requires |regs| == |ds| + 1 && AllWf(ds)
  {
    forall j :: 0 <= j < |ds| ==> StepHolds(regs, ds, j)
  }

  /** The maps before the first append of `ds` and after each one. */
  function Trace(ds: seq<Decl>): (regs: seq<Registry>)
    requires AllWf(ds)
    ensures |regs| == |ds| + 1 && regs[0] == NoneRegistered && regs[|ds|] == Registered(ds)
  {
    if ds == [] then [NoneRegistered] else Trace(ds[..|ds| - 1]) + [Registered(ds)]
  }

  /** One more admitted append extends a stepwise run by one step. */
  lemma StepwiseSnoc(regs: seq<Registry>, ds: seq<Decl>, r: Registry)
    requires |ds| >= 1 && |regs| == |ds| && AllWf(ds) && Stepwise(regs, ds[..|ds| - 1])
    requires Admits(regs[|ds| - 1], ds[|ds| - 1]) && r == Appended(regs[|ds| - 1], ds[|ds| - 1])
    ensures Stepwise(regs + [r], ds)
  {
    var pre := ds[..|ds| - 1];
    forall j | 0 <= j < |ds|
      ensures StepHolds(regs + [r], ds, j)
    {
      if j < |pre| {
        assert StepHolds(regs, pre, j);
        assert (regs + [r])[j] == regs[j] && (regs + [r])[j + 1] == regs[j + 1] && pre[j] == ds[j];
      }
    }
  }

  /** `Trace` of one more append, given the stepwise trace of the ones before it. */
  lemma TraceSnoc(ds: seq<Decl>)
    requires AllWf(ds) && |ds| >= 1 && AppendsHold(ds) && Stepwise(Trace(ds[..|ds| - 1]), ds[..|ds| - 1])
    ensures Stepwise(Trace(ds), ds)
  {
    StepwiseSnoc(Trace(ds[..|ds| - 1]), ds, Registered(ds));
  }

  /** When no assert trips, `Trace` steps through `ds` one admitted append at a time. */
  lemma {:induction false} TraceStepwise(ds: seq<Decl>)
    requires AllWf(ds) && AppendsHold(ds)
    ensures Stepwise(Trace(ds), ds)
  {
    if ds != [] {
      TraceStepwise(ds[..|ds| - 1]);
      TraceSnoc(ds);
    }
  }

  /** A run of appends with the maps before the first and after each one. */
  datatype Run = Run(ds: seq<Decl>, regs: seq<Registry>)

  /** A run from a fresh context where no assert trips. */
  type AdmittedRun = run: Run | |run.regs| == |run.ds| + 1 && AllWf(run.ds) && run.regs[0] == NoneRegistered && Stepwise(run.regs, run.ds)
    witness Run([], [NoneRegistered])

  lemma TraceOf(ds: seq<Decl>) returns (run: AdmittedRun)
    requires AllWf(ds) && AppendsHold(ds)
    ensures run.ds == ds && run.regs[|ds|] == Registered(ds)
  {
    TraceStepwise(ds);
    run := Run(ds, Trace(ds));
  }

  /** One append of the descent, from the maps before it to the maps after it. */
  method RegisterNext(reg: Registry, command: CommandDefinition, ghost path: seq<CommandDefinition>,
                      ghost run: AdmittedRun, ghost n: nat) returns (r: Registry)
    requires |run.ds| == |path| && forall j {:trigger DeclOf(path[j])} :: 0 <= j < |path| ==> run.ds[j] == DeclOf(path[j])
    requires n < |path| && reg == run.regs[n] && command == path[n]
    ensures r == run.regs[n + 1]
  {
    assert StepHolds(run.regs, run.ds, n);
    r := Register(reg, command, run.ds[n]);
  }

  /** Along a stopped chain, the word at each step names the next command, and at the end names none. */
  lemma DescentStep(path: seq<CommandDefinition>, root: CommandDefinition, words: seq<string>, n: nat)
    requires Descends(path, root, words) && 1 <= n <= |path| && n - 1 < |words|
    ensures words[n - 1] in path[n - 1].subCommands <==> n < |path|
    ensures n < |path| ==> path[n - 1].subCommands[words[n - 1]] == path[n]
  {
  }

  /** One argv token of the descent: a word names the next command of the chain exactly when the chain goes on. */
  lemma WalkStep(path: seq<CommandDefinition>, root: CommandDefinition, toks: seq<string>, i: nat, n: nat)
    requires NonEmptyTokens(toks) && i < |toks| && Descends(path, root, PlainTokens(toks))
    requires 1 <= n <= |path| && NonEmptyTokens(toks[..i]) && n - 1 == |PlainTokens(toks[..i])|
    ensures NonEmptyTokens(toks[..i + 1])
    ensures toks[i][0] == '-' ==> n - 1 == |PlainTokens(toks[..i + 1])|
    ensures toks[i][0] != '-' ==> n == |PlainTokens(toks[..i + 1])| && (toks[i] in path[n - 1].subCommands <==> n < |path|)
    ensures toks[i][0] != '-' && n < |path| ==> path[n - 1].subCommands[toks[i]] == path[n]
  {
    NextToken(toks, i);
    if toks[i][0] != '-' {
      DescentStep(path, root, PlainTokens(toks), n);
    }
  }

  /**
   * The loop of `build`: from the root, each argv word that does not start
   * with `-` descends into the sub-command it names and appends it, and the
   * first word naming none ends the descent. It runs on the maps as values,
   * starting with the root's append, which the constructor does in `build`.
   */
  method Walk(root: CommandDefinition, args: seq<string>, ghost path: seq<CommandDefinition>, ghost run: AdmittedRun)
      returns (last: CommandDefinition, reg: Registry)
    requires |args| >= 1 && NonEmptyTokens(args[1..])
    requires Descends(path, root, PlainTokens(args[1..]))
    requires |run.ds| == |path| && forall j {:trigger DeclOf(path[j])} :: 0 <= j < |path| ==> run.ds[j] == DeclOf(path[j])
    ensures last == path[|path| - 1] && reg == run.regs[|path|]
  {
    ghost var toks := args[1..];
    ghost var words := PlainTokens(toks);
    reg := RegisterNext(NoneRegistered, root, path, run, 0);
    last := root;
    ghost var n := 1;
    for i := 1 to |args|
      invariant 1 <= n <= |path| && last == path[n - 1] && n - 1 == |PlainTokens(toks[..i - 1])|
      invariant reg == run.regs[n]
    {
      WalkStep(path, root, toks, i - 1, n);
      assert toks[i - 1] == args[i];
      if args[i][0] != '-' {
        var c := last.FindCommand(args[i]);
        if c == null {
          break;
        }
        reg := RegisterNext(reg, c, path, run, n);
        last, n := c, n + 1;
      }
    }
    assert toks[..|toks|] == toks;
  }

  /** `Walk` along the trail of `path`'s declarations: the maps after every append along `path`. */
  method Descend(root: CommandDefinition, args: seq<string>, ghost path: seq<CommandDefinition>, ghost ds: seq<Decl>)
      returns (last: CommandDefinition, reg: Registry)
    requires |args| >= 1 && NonEmptyTokens(args[1..])
    requires Descends(path, root, PlainTokens(args[1..]))
    requires |ds| == |path| && forall j {:trigger DeclOf(path[j])} :: 0 <= j < |path| ==> ds[j] == DeclOf(path[j])
    requires AllWf(ds) && AppendsHold(ds)
    ensures last == path[|path| - 1] && reg == Registered(ds)
  {
    ghost var run := TraceOf(ds);
    last, reg := Walk(root, args, path, run);
  }

  class Context {
    const rootCommand: CommandDefinition
    var lastCommand: CommandDefinition
    /** The five hash maps: flags and options by long and by short name, arguments by name. */
    var maps: Registry

    /** `foundLeafCommand`: the command reached has no sub-commands. */
    function FoundLeafCommand(): (r: bool)
      reads this, lastCommand
      ensures r <==> forall n :: lastCommand.FindCommand(n) == null
    {
      if lastCommand.subCommands == map[] then true
      else
        var n :| n in lastCommand.subCommands;
        assert lastCommand.FindCommand(n) != null;
        false
    }

    /** The constructor appends the root: the maps hold its declarations alone. */
    constructor (root: CommandDefinition, ghost d: Decl)
      requires d == DeclOf(root) && Admits(NoneRegistered, d)
      ensures rootCommand == root && lastCommand == root
      ensures maps == Appended(NoneRegistered, d)
    {
      var reg := Register(NoneRegistered, root, d);
      rootCommand, lastCommand, maps := root, root, reg;
    }

    /**
     * `build` followed by `parseArgs`: the root is appended, then the
     * commands the argv words reach (`Walk`), and the tokens are parsed
     * against the registered flags and options. `path` is the chain the
     * words reach and `ds` what each of its commands declares; the duplicate
     * asserts must hold along it.
     */
    static method Build(root: CommandDefinition, args: seq<string>, ghost path: seq<CommandDefinition>, ghost ds: seq<Decl>)
        returns (ctx: Context)
      requires |args| >= 1 && NonEmptyTokens(args[1..])
      requires Descends(path, root, PlainTokens(args[1..]))
      requires |ds| == |path| && forall j {:trigger DeclOf(path[j])} :: 0 <= j < |path| ==> ds[j] == DeclOf(path[j])
      requires AllWf(ds) && AppendsHold(ds) && AllFit(args[0], Registered(ds).optionsByName.Keys, args[1..])
      ensures fresh(ctx) && ctx.rootCommand == root
      ensures ctx.lastCommand == path[|path| - 1]
      ensures ctx.maps == Parsed(Registered(ds), args)
    {
      var last, reg := Descend(root, args, path, ds);
      ctx := new Context.Assembled(root, last, reg);
      ctx.ParseArgs(args);
    }

    /** A context whose appends have already been made, on values, by `Build`. */
    constructor Assembled(root: CommandDefinition, last: CommandDefinition, reg: Registry)
      ensures rootCommand == root && lastCommand == last && maps == reg
    {
      rootCommand, lastCommand, maps := root, last, reg;
    }

    /** `parseArgs` on this context: only the flags and options by long name change. */
    method ParseArgs(args: seq<string>)
      requires |args| >= 1 && AllFit(args[0], maps.optionsByName.Keys, args[1..])
      modifies this`maps
      ensures maps == Parsed(old(maps), args)
    {
      var s := ParseTokens(Seen(maps.flagsByName, maps.optionsByName), args);
      maps := maps.(flagsByName := s.flags, optionsByName := s.options);
    }

    /**
     * `append`: `command` becomes the last command, and each of its
     * flags and options is registered under its long and its short name,
     * each argument under its name, all asserted new. `d` is what the
     * loops read of `command`.
     */
    method AppendCommand(command: CommandDefinition, ghost d: Decl)
      requires d == DeclOf(command) && Admits(maps, d)
      modifies this`lastCommand, this`maps
      ensures lastCommand == command
      ensures maps == Appended(old(maps), d)
    {
      maps := Register(maps, command, d);
      lastCommand := command;
    }
  }

  // The three `Context` scenarios of the unit tests.

  /** Commands declaring nothing register nothing, so no assert can trip. */
  lemma {:induction false} NothingDeclaredHolds(ds: seq<Decl>)
    requires forall i :: 0 <= i < |ds| ==> ds[i] == Decl([], [], [], [], [])
    ensures AllWf(ds) && AppendsHold(ds) && Registered(ds) == NoneRegistered
  {
    if ds != [] {
      NothingDeclaredHolds(ds[..|ds| - 1]);
    }
  }

  /** Two argv words, the second one naming a sub-command of a root where nothing is declared. */
  lemma OneStepBuildable(root: CommandDefinition, sub: CommandDefinition, word: string)
    requires root.flags == [] && root.options == [] && root.arguments == []
    requires sub.flags == [] && sub.options == [] && sub.arguments == []
    requires word in root.subCommands && root.subCommands[word] == sub && word != [] && word[0] != '-'
    ensures var args, path, ds := ["tool", word], [root, sub], [DeclOf(root), DeclOf(sub)];
      && NonEmptyTokens(args[1..]) && Descends(path, root, PlainTokens(args[1..]))
      && (forall j {:trigger DeclOf(path[j])} :: 0 <= j < |path| ==> ds[j] == DeclOf(path[j]))
      && AllWf(ds) && AppendsHold(ds) && AllFit(args[0], Registered(ds).optionsByName.Keys, args[1..])
  {
    var args, ds := ["tool", word], [DeclOf(root), DeclOf(sub)];
    assert Descends([root, sub], root, [word]);
    assert args[1..] == [word];
    assert PlainTokens([word]) == [word] by {
      assert [word][..0] == [];
    }
    NothingDeclaredHolds(ds);
    assert AllFit(args[0], Registered(ds).optionsByName.Keys, [word]) by {
      assert Registered(ds).optionsByName.Keys == {};
    }
  }

  /** Two argv words, the second one naming no sub-command of a root where nothing is declared. */
  lemma StopBuildable(root: CommandDefinition, word: string)
    requires root.flags == [] && root.options == [] && root.arguments == []
    requires word !in root.subCommands && word != [] && word[0] != '-'
    ensures var args, path, ds := ["tool", word], [root], [DeclOf(root)];
      && NonEmptyTokens(args[1..]) && Descends(path, root, PlainTokens(args[1..]))
      && (forall j {:trigger DeclOf(path[j])} :: 0 <= j < |path| ==> ds[j] == DeclOf(path[j]))
      && AllWf(ds) && AppendsHold(ds) && AllFit(args[0], Registered(ds).optionsByName.Keys, args[1..])
  {
    var args, ds := ["tool", word], [DeclOf(root)];
    assert args[1..] == [word];
    assert PlainTokens([word]) == [word] by {
      assert [word][..0] == [];
    }
    NothingDeclaredHolds(ds);
    assert AllFit(args[0], Registered(ds).optionsByName.Keys, [word]) by {
      assert Registered(ds).optionsByName.Keys == {};
    }
  }

  /** A root without sub-commands is a leaf for `{"tool"}`. */
  method FindRootCommand() returns (leaf: bool)
    ensures leaf
  {
    var cli := new CommandDefinition("name", "description");
    ghost var ds := [DeclOf(cli)];
    NothingDeclaredHolds(ds);
    assert PlainTokens([]) == [];
    var ctx := Context.Build(cli, ["tool"], [cli], ds);
    leaf := ctx.FoundLeafCommand();
  }

  /** Once `subCommand` is added, `{"tool", "subCommand"}` reaches it, a leaf. */
  method FindSubCommand() returns (leaf: bool)
    ensures leaf
  {
    var cli := new CommandDefinition("name", "description");
    var sub := cli.AddSubCommand("subCommand", "subCommandDescription");
    OneStepBuildable(cli, sub, "subCommand");
    var ctx := Context.Build(cli, ["tool", "subCommand"], [cli, sub], [DeclOf(cli), DeclOf(sub)]);
    leaf := ctx.FoundLeafCommand();
  }

  /** `{"tool", "invalid"}` names no sub-command and stays on the root, which has one: not a leaf. */
  method InvalidSubCommand() returns (leaf: bool)
    ensures !leaf
  {
    var cli := new CommandDefinition("name", "description");
    var sub := cli.AddSubCommand("subCommand", "subCommandDescription");
    StopBuildable(cli, "invalid");
    var ctx := Context.Build(cli, ["tool", "invalid"], [cli], [DeclOf(cli)]);
    leaf := ctx.FoundLeafCommand();
    assert ctx.lastCommand.FindCommand("subCommand") != null;
  }
}
