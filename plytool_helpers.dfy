/**
 * The helpers plytool's build, run and target commands share
 * (`CommandHelpers.cpp`): `AddParams`, which adds a root target to a build
 * folder, and `BuildParams`, which reads the build options, chooses the
 * build folder (by `--auto` matching or the current one), resolves the
 * target and drives generation and the build. The target registry, the
 * instantiation of a folder's dependencies, generation and the build itself
 * are parameters.
 */
module PlyHelpers {
  import opened Common
  import opened Text
  import opened PlyFolder
  import CliContext

  // ---------------------------------------------------------------------
  // AddParams
  // ---------------------------------------------------------------------

  /** The part of a build folder `AddParams::exec` edits. */
  datatype Targets = Targets(rootTargets: seq<string>, makeShared: seq<string>, activeTarget: string)

  function TargetsOf(f: BuildFolder): Targets
    reads f`rootTargets, f`makeShared, f`activeTarget
  {
    Targets(f.rootTargets, f.makeShared, f.activeTarget)
  }

  /** `findItem(list, item) < 0` then `append`: the item goes at the end when it is not there yet. */
  function WithItem(list: seq<string>, item: string): seq<string>
  {
    if item in list then list else list + [item]
  }

  /**
   * The targets after adding `target`: a root target, a shared one too when
   * `share` is set, and the active one.
   */
  function AddTarget(t: Targets, share: bool, target: string): Targets
  {
    Targets(WithItem(t.rootTargets, target), if share then WithItem(t.makeShared, target) else t.makeShared, target)
  }

  /**
   * Adding a target keeps every earlier root target in place, appends at
   * most the target itself, and leaves it root, active and, when asked,
   * shared.
   */
  lemma AddTargetEffect(t: Targets, share: bool, target: string)
    ensures var r := AddTarget(t, share, target);
      && target in r.rootTargets && r.activeTarget == target
      && (share ==> target in r.makeShared) && (!share ==> r.makeShared == t.makeShared)
      && t.rootTargets <= r.rootTargets && |r.rootTargets| <= |t.rootTargets| + 1
      && (forall x :: x in r.rootTargets <==> x in t.rootTargets || x == target)
  {
  }

  /** Adding the same target twice is adding it once. */
  lemma AddTargetIdempotent(t: Targets, share: bool, target: string)
    ensures AddTarget(AddTarget(t, share, target), share, target) == AddTarget(t, share, target)
  {
  }

  class AddParams {
    /** Whether the target also goes into the folder's shared targets (`--shared`). */
    var makeShared: bool

    constructor ()
      ensures !makeShared
    {
      makeShared := false;
    }

    /** `extractOptions`, given the parsed context's `option` lookup: `makeShared` follows `--shared` when the command declares it. */
    method ExtractOptions(option: string -> Option<CliContext.OptionValue>)
      modifies this`makeShared
      ensures option("shared").Some? ==> makeShared == option("shared").value.present
      ensures option("shared").None? ==> makeShared == old(makeShared)
    {
      var sharedOption := option("shared");
      if sharedOption.Some? {
        makeShared := sharedOption.value.IsPresent();
      }
    }

    /**
     * `exec`: adds the target to the folder and reports whether the folder
     * changed; a second identical call therefore reports no change.
     */
    method Exec(folder: BuildFolder, fullTargetName: string) returns (anyChange: bool)
      modifies folder`rootTargets, folder`makeShared, folder`activeTarget
      ensures TargetsOf(folder) == AddTarget(old(TargetsOf(folder)), makeShared, fullTargetName)
      ensures anyChange <==> TargetsOf(folder) != old(TargetsOf(folder))
    {
      anyChange := false;
      if fullTargetName !in folder.rootTargets {
        folder.rootTargets := folder.rootTargets + [fullTargetName];
        anyChange := true;
      }
      if makeShared && fullTargetName !in folder.makeShared {
        folder.makeShared := folder.makeShared + [fullTargetName];
        anyChange := true;
      }
      if folder.activeTarget != fullTargetName {
        folder.activeTarget := fullTargetName;
        anyChange := true;
      }
    }
  }

  // ---------------------------------------------------------------------
  // --auto: the folders holding the target
  // ---------------------------------------------------------------------

  /** Some root target resolves to the instantiator `inst`. */
  predicate Resolves(roots: seq<string>, inst: string, findTarget: string -> Option<string>)
  {
    exists t :: t in roots && findTarget(t) == Some(inst)
  }

  /**
   * The folders, in order, with a root target that resolves to `inst`; each
   * folder at most once, however many of its roots resolve.
   */
  function Matching(folders: seq<BuildFolder>, inst: string, findTarget: string -> Option<string>): (r: seq<BuildFolder>)
    reads folders
    ensures |r| <= |folders|
    ensures forall i :: 0 <= i < |r| ==> r[i] in folders && Resolves(r[i].rootTargets, inst, findTarget)
    ensures forall i :: 0 <= i < |folders| && Resolves(folders[i].rootTargets, inst, findTarget) ==> folders[i] in r
    ensures Distinct(folders) ==> Distinct(r)
  {
    if folders == [] then []
    else
      var last := folders[|folders| - 1];
      Matching(folders[..|folders| - 1], inst, findTarget) + (if Resolves(last.rootTargets, inst, findTarget) then [last] else [])
  }

  /** The loop over the folders and, within each, over its roots up to the first that resolves to `inst`. */
  method MatchFolders(folders: seq<BuildFolder>, inst: string, findTarget: string -> Option<string>)
      returns (matches: seq<BuildFolder>)
    ensures matches == Matching(folders, inst, findTarget)
  {
    matches := [];
    for i := 0 to |folders|
      invariant matches == Matching(folders[..i], inst, findTarget)
    {
      assert folders[..i + 1][..i] == folders[..i];
      var roots := folders[i].rootTargets;
      var j := 0;
      var found := false;
      while j < |roots|
        invariant j <= |roots| && !found
        invariant forall k :: 0 <= k < j ==> findTarget(roots[k]) != Some(inst)
      {
        if findTarget(roots[j]) == Some(inst) {
          found := true;
          break;
        }
        j := j + 1;
      }
      if found {
        matches := matches + [folders[i]];
      }
    }
    assert folders[..|folders|] == folders;
  }

  // ---------------------------------------------------------------------
  // --auto: the list of folders in the error message
  // ---------------------------------------------------------------------

  function Quoted(name: string): string
  {
    "'" + name + "'"
  }

  /** `s` ends with `suffix`. */
  predicate EndsWith(s: string, suffix: string)
  {
    |suffix| <= |s| && s[|s| - |suffix|..] == suffix
  }

  /** The folder names of the `--auto` error: quoted, `", "` between them and `" and "` before the last. */
  function QuotedList(names: seq<string>): (r: string)
    ensures names == [] <==> r == []
    ensures names != [] ==> StartsWith(r, Quoted(names[0]))
    ensures |names| >= 2 ==> EndsWith(r, " and " + Quoted(names[|names| - 1]))
  {
    if names == [] then ""
    else if |names| == 1 then Quoted(names[0])
    else if |names| == 2 then
      var r := Quoted(names[0]) + (" and " + Quoted(names[1]));
      assert r[|r| - |" and " + Quoted(names[1])|..] == " and " + Quoted(names[1]);
      assert r[..|Quoted(names[0])|] == Quoted(names[0]);
      r
    else
      var rest := QuotedList(names[1..]);
      var r := Quoted(names[0]) + (", " + rest);
      assert names[1..][|names[1..]| - 1] == names[|names| - 1];
      assert r[|r| - |rest|..] == rest;
      assert r[..|Quoted(names[0])|] == Quoted(names[0]);
      r
  }

  /** The separator the loop writes after the `i`-th of `n` names. */
  function Separator(i: nat, n: nat): string
  {
    if i + 2 < n then ", " else if i + 2 == n then " and " else ""
  }

  /** One turn of the loop: the `k`-th name, its separator, and the list of the rest. */
  lemma QuotedListStep(names: seq<string>, k: nat)
    requires k < |names|
    ensures QuotedList(names[k..]) == Quoted(names[k]) + Separator(k, |names|) + QuotedList(names[k + 1..])
  {
    var rest := names[k..];
    assert rest[0] == names[k] && rest[1..] == names[k + 1..];
    if |rest| == 2 {
      assert names[k + 1..] == [rest[1]];
    }
  }

  lemma ConcatAssoc(a: string, b: string, c: string)
    ensures (a + b) + c == a + (b + c)
  {
  }

  /** The loop that writes the folder names of the `--auto` error. */
  method JoinFolderNames(names: seq<string>) returns (s: string)
    ensures s == QuotedList(names)
  {
    s := "";
    for i := 0 to |names|
      invariant s + QuotedList(names[i..]) == QuotedList(names)
    {
      ghost var s0 := s;
      QuotedListStep(names, i);
      s := s + Quoted(names[i]);
      if i + 2 < |names| {
        s := s + ", ";
      } else if i + 2 == |names| {
        s := s + " and ";
      }
      ghost var piece, rest := Quoted(names[i]) + Separator(i, |names|), QuotedList(names[i + 1..]);
      assert s == s0 + piece;
      assert QuotedList(names[i..]) == piece + rest;
      ConcatAssoc(s0, piece, rest);
    }
    assert names[|names|..] == [];
  }

  function NamesOf(folders: seq<BuildFolder>): (r: seq<string>)
    ensures |r| == |folders| && forall i :: 0 <= i < |r| ==> r[i] == folders[i].name
  {
    seq(|folders|, i requires 0 <= i < |folders| => folders[i].name)
  }

  // ---------------------------------------------------------------------
  // BuildParams
  // ---------------------------------------------------------------------

  /** A built target as the instantiation records it: its name and whether it is an executable. */
  datatype BuildTarget = BuildTarget(name: string, isExecutable: bool)

  /** The instantiated dependencies of a folder, keyed by the instantiator's fully qualified name. */
  type Instantiation = map<string, BuildTarget>

  /** The steps `exec` takes after the target is resolved. */
  datatype Step = Generate(config: string) | Build(config: string, target: string)

  /** What `exec` settles on: the folder, its dependencies, the target to run and the build's outcome. */
  datatype Resolved = Resolved(folder: BuildFolder, instantiation: Instantiation, runTargetInst: string, runTarget: BuildTarget)

  /**
   * Generation and build for `config`: the config is generated first unless
   * it already is, and a failing step stops everything after it. Returns
   * the steps taken and whether all succeeded.
   */
  function BuildSteps(config: string, target: string, doBuild: bool, generated: bool,
                      generate: string -> bool, build: (string, string) -> bool): (r: (seq<Step>, bool))
    ensures !doBuild ==> r == ([], true)
    ensures doBuild && generated ==> r == ([Build(config, target)], build(config, target))
    ensures doBuild && !generated ==> |r.0| >= 1 && r.0[0] == Generate(config) && (r.0 == [Generate(config)] <==> !generate(config))
    ensures r.1 <==> !doBuild || ((generated || generate(config)) && build(config, target))
  {
    if !doBuild then ([], true)
    else if !generated && !generate(config) then ([Generate(config)], false)
    else if generated then ([Build(config, target)], build(config, target))
    else ([Generate(config), Build(config, target)], build(config, target))
  }

  /** The tail of `exec`: generation when needed, then the build, stopping at the first failure. */
  method RunSteps(config: string, target: string, doBuild: bool, generated: bool,
                  generate: string -> bool, build: (string, string) -> bool) returns (steps: seq<Step>, ok: bool)
    ensures (steps, ok) == BuildSteps(config, target, doBuild, generated, generate, build)
  {
    steps, ok := [], true;
    if doBuild {
      if !generated {
        steps := [Generate(config)];
        if !generate(config) {
          return steps, false;
        }
      }
      steps := steps + [Build(config, target)];
      ok := build(config, target);
      assert steps == if generated then [Build(config, target)] else [Generate(config), Build(config, target)];
    }
  }

  /** The folder's settings once `AddParams::exec` has added `inst`: only the three target fields change. */
  function WithTargetAdded(st: FolderState, share: bool, inst: string): (r: FolderState)
    ensures Targets(r.rootTargets, r.makeShared, r.activeTarget) == AddTarget(Targets(st.rootTargets, st.makeShared, st.activeTarget), share, inst)
    ensures r.(rootTargets := st.rootTargets, makeShared := st.makeShared, activeTarget := st.activeTarget) == st
  {
    var t := AddTarget(Targets(st.rootTargets, st.makeShared, st.activeTarget), share, inst);
    st.(rootTargets := t.rootTargets, makeShared := t.makeShared, activeTarget := t.activeTarget)
  }

  /** The settings of the folder `--auto` creates: named `name`, the defaults applied, `inst` its root and active target. */
  function AutoCreated(name: string, share: bool, inst: string, defaultCMakeOptions: CMakeOptions, defaultConfig: string,
                       nativeToolchain: CMakeOptions, nativeConfig: string): FolderState
  {
    WithTargetAdded(FolderState(name, [], [], "", NewConfig(defaultConfig, nativeConfig),
                                NewToolchain(defaultCMakeOptions, nativeToolchain), []), share, inst)
  }

  /** The name `exec` resolves in a folder: the one given, or the folder's active target when none is. */
  function TargetNameIn(st: FolderState, targetName: string): string
  {
    if targetName == "" then st.activeTarget else targetName
  }

  /**
   * The folder's settings once `exec` has resolved its target: with `--add`,
   * a known target that the dependencies do not instantiate is added;
   * otherwise nothing changes.
   */
  function ResolvedState(st: FolderState, targetName: string, doAdd: bool, share: bool,
                         findTarget: string -> Option<string>, instantiate: FolderState -> Option<Instantiation>): (r: FolderState)
    ensures r != st ==> doAdd && instantiate(st).Some? && findTarget(TargetNameIn(st, targetName)).Some?
  {
    var inst := findTarget(TargetNameIn(st, targetName));
    if doAdd && instantiate(st).Some? && inst.Some? && inst.value !in instantiate(st).value
    then WithTargetAdded(st, share, inst.value)
    else st
  }

  /** The run target in `deps`: it must be there (`PLY_ASSERT`) and be an executable. */
  function RunTargetIn(folder: BuildFolder, deps: Instantiation, inst: string, targetName: string): Result<Resolved, Failure>
  {
    if inst !in deps then Err(AssertionFailed)
    else if !deps[inst].isExecutable then Err(Fatal("Target '" + targetName + "' is not executable\n"))
    else Ok(Resolved(folder, deps, inst, deps[inst]))
  }

  /**
   * The target resolution of `exec` in a folder whose settings are `st`:
   * the dependencies must instantiate, the target must be known, and it
   * must be instantiated, after an `--add` when it was not, and executable.
   */
  function Resolution(folder: BuildFolder, st: FolderState, targetName: string, doAdd: bool, share: bool,
                      findTarget: string -> Option<string>, instantiate: FolderState -> Option<Instantiation>,
                      shortName: string -> string): (r: Result<Resolved, Failure>)
    ensures r.Ok? ==> && r.value.folder == folder && r.value.runTargetInst in r.value.instantiation
                      && r.value.runTarget == r.value.instantiation[r.value.runTargetInst] && r.value.runTarget.isExecutable
  {
    var name := TargetNameIn(st, targetName);
    match instantiate(st)
    case None => Err(Fatal("Can't instantiate dependencies for folder '" + st.name + "'\n"))
    case Some(deps) =>
      match findTarget(name)
      case None => Err(Exit(1))
      case Some(inst) =>
        if inst in deps then RunTargetIn(folder, deps, inst, name)
        else if !doAdd then Err(Fatal("Target '" + shortName(inst) + "' is not instantiated in folder '" + st.name + "'\n"))
        else
          match instantiate(WithTargetAdded(st, share, inst))
          case None => Err(Fatal("Can't instantiate dependencies for folder '" + st.name + "'\n"))
          case Some(deps') => RunTargetIn(folder, deps', inst, name)
  }

  /** Every way the resolution ends, and exactly when it succeeds. */
  lemma ResolutionCases(folder: BuildFolder, st: FolderState, targetName: string, doAdd: bool, share: bool,
                        findTarget: string -> Option<string>, instantiate: FolderState -> Option<Instantiation>,
                        shortName: string -> string)
    ensures var r := Resolution(folder, st, targetName, doAdd, share, findTarget, instantiate, shortName);
      var name, st' := TargetNameIn(st, targetName), ResolvedState(st, targetName, doAdd, share, findTarget, instantiate);
      var inst := findTarget(name);
      && (instantiate(st).None? ==> r == Err(Fatal("Can't instantiate dependencies for folder '" + st.name + "'\n")))
      && (instantiate(st).Some? && inst.None? ==> r == Err(Exit(1)))
      && (instantiate(st).Some? && inst.Some? && inst.value !in instantiate(st).value && !doAdd ==>
            r == Err(Fatal("Target '" + shortName(inst.value) + "' is not instantiated in folder '" + st.name + "'\n")))
      && (st' == if instantiate(st).Some? && inst.Some? && inst.value !in instantiate(st).value && doAdd
                 then WithTargetAdded(st, share, inst.value) else st)
      && (instantiate(st).Some? && inst.Some? && inst.value !in instantiate(st).value && doAdd && instantiate(st').None? ==>
            r == Err(Fatal("Can't instantiate dependencies for folder '" + st.name + "'\n")))
      && (r.Ok? <==> && instantiate(st).Some? && inst.Some? && (inst.value in instantiate(st).value || doAdd)
                     && instantiate(st').Some? && inst.value in instantiate(st').value
                     && instantiate(st').value[inst.value].isExecutable)
      && (r.Ok? ==> r.value == Resolved(folder, instantiate(st').value, inst.value, instantiate(st').value[inst.value]))
      && (instantiate(st).Some? && inst.Some? && (inst.value in instantiate(st).value || doAdd)
          && instantiate(st').Some? && inst.value in instantiate(st').value && !instantiate(st').value[inst.value].isExecutable ==>
            r == Err(Fatal("Target '" + name + "' is not executable\n")))
  {
  }

  /**
   * Once `--add` has let the target resolve, resolving the same name again
   * in the folder as it now is needs no `--add`, and adds nothing: the
   * result is the same.
   */
  lemma ResolveAgain(folder: BuildFolder, st: FolderState, targetName: string, share: bool, add2: bool,
                     findTarget: string -> Option<string>, instantiate: FolderState -> Option<Instantiation>,
                     shortName: string -> string)
    requires Resolution(folder, st, targetName, true, share, findTarget, instantiate, shortName).Ok?
    requires TargetNameIn(st, targetName) != ""
    ensures var st', name := ResolvedState(st, targetName, true, share, findTarget, instantiate), TargetNameIn(st, targetName);
      && ResolvedState(st', name, add2, share, findTarget, instantiate) == st'
      && Resolution(folder, st', name, add2, share, findTarget, instantiate, shortName)
         == Resolution(folder, st, targetName, true, share, findTarget, instantiate, shortName)
  {
  }

  /**
   * What `exec` returns once a folder with settings `st` is chosen: the
   * resolution's failure, or what was resolved with the steps of generation
   * and build in the config asked for (the folder's active one when none
   * is), all on the folder as the resolution leaves it.
   */
  function ExecOutcome(folder: BuildFolder, st: FolderState, targetName: string, configName: string,
                       doAdd: bool, share: bool, doBuild: bool,
                       findTarget: string -> Option<string>, instantiate: FolderState -> Option<Instantiation>,
                       shortName: string -> string, isGenerated: (FolderState, string) -> bool,
                       generate: string -> bool, build: (string, string) -> bool): Result<(Resolved, seq<Step>, bool), Failure>
  {
    match Resolution(folder, st, targetName, doAdd, share, findTarget, instantiate, shortName)
    case Err(e) => Err(e)
    case Ok(res) =>
      var st' := ResolvedState(st, targetName, doAdd, share, findTarget, instantiate);
      var config := if configName == "" then st'.activeConfig else configName;
      var outcome := BuildSteps(config, res.runTarget.name, doBuild, isGenerated(st', config), generate, build);
      Ok((res, outcome.0, outcome.1))
  }

  /**
   * `exec` succeeds exactly when the target resolves, and fails as the
   * resolution does otherwise; on success it reports the executable
   * resolved in the dependencies the folder now has, and the build steps
   * for the config asked for, defaulting to the folder's active one.
   */
  lemma ExecOutcomeCases(folder: BuildFolder, st: FolderState, targetName: string, configName: string,
                         doAdd: bool, share: bool, doBuild: bool,
                         findTarget: string -> Option<string>, instantiate: FolderState -> Option<Instantiation>,
                         shortName: string -> string, isGenerated: (FolderState, string) -> bool,
                         generate: string -> bool, build: (string, string) -> bool)
    ensures var r := ExecOutcome(folder, st, targetName, configName, doAdd, share, doBuild, findTarget, instantiate,
                                 shortName, isGenerated, generate, build);
      var res := Resolution(folder, st, targetName, doAdd, share, findTarget, instantiate, shortName);
      var st' := ResolvedState(st, targetName, doAdd, share, findTarget, instantiate);
      && (r.Ok? <==> res.Ok?)
      && (res.Err? ==> r == Err(res.error))
      && (r.Ok? ==>
            var config := if configName == "" then st.activeConfig else configName;
            && r.value.0 == res.value && r.value.0.folder == folder
            && Some(r.value.0.runTargetInst) == findTarget(TargetNameIn(st, targetName))
            && Some(r.value.0.instantiation) == instantiate(st')
            && r.value.0.runTargetInst in r.value.0.instantiation
            && r.value.0.runTarget == r.value.0.instantiation[r.value.0.runTargetInst] && r.value.0.runTarget.isExecutable
            && (r.value.1, r.value.2) == BuildSteps(config, r.value.0.runTarget.name, doBuild, isGenerated(st', config), generate, build))
  {
    ResolutionCases(folder, st, targetName, doAdd, share, findTarget, instantiate, shortName);
  }

  /** How `exec` chooses its folder: it fails, takes a folder found, or creates one with these settings. */
  datatype Choice = Fail(failure: Failure) | Existing(folder: BuildFolder) | Create(settings: FolderState)

  /**
   * The folder choice of `exec`, made on the state before it. Without
   * `--auto` it is the current folder, whose absence is an error. With it
   * the target must be named and known; then no folder holding it means
   * one is created, one means that one, and several are an error naming
   * them.
   */
  function FolderChoice(env: ToolEnv, doAuto: bool, targetName: string, share: bool, findTarget: string -> Option<string>,
                        autoName: string -> string, nativeToolchain: CMakeOptions, nativeConfig: string): Choice
    reads env, env.workspace, env.buildFolders
  {
    if !doAuto then
      if env.currentBuildFolder == null then Fail(Fatal("Current build folder not set")) else Existing(env.currentBuildFolder)
    else if targetName == "" then Fail(Fatal("A target name must be specified when --auto is used"))
    else
      match findTarget(targetName)
      case None => Fail(Exit(1))
      case Some(inst) => AutoChoice(env, targetName, inst, share, findTarget, autoName, nativeToolchain, nativeConfig)
  }

  /** The `--auto` choice for a known target instantiating as `inst`. */
  function AutoChoice(env: ToolEnv, targetName: string, inst: string, share: bool, findTarget: string -> Option<string>,
                      autoName: string -> string, nativeToolchain: CMakeOptions, nativeConfig: string): Choice
    reads env, env.workspace, env.buildFolders
  {
    var m := Matching(env.buildFolders, inst, findTarget);
    if |m| == 0 then
      Create(AutoCreated(autoName(targetName), share, inst, env.workspace.defaultCMakeOptions, env.workspace.defaultConfig,
                         nativeToolchain, nativeConfig))
    else if |m| == 1 then Existing(m[0])
    else Fail(Fatal("Can't use --auto because target '" + targetName + "' was found in "
                    + Decimal(|m|) + " build folders: " + QuotedList(NamesOf(m))))
  }

  /** The `--auto` choice by the number of folders with a root resolving to the target: none, one, or several. */
  lemma AutoChoiceCases(env: ToolEnv, targetName: string, inst: string, share: bool, findTarget: string -> Option<string>,
                        autoName: string -> string, nativeToolchain: CMakeOptions, nativeConfig: string)
    ensures var c := AutoChoice(env, targetName, inst, share, findTarget, autoName, nativeToolchain, nativeConfig);
      var m := Matching(env.buildFolders, inst, findTarget);
      && (|m| == 0 ==> c == Create(AutoCreated(autoName(targetName), share, inst, env.workspace.defaultCMakeOptions,
                                               env.workspace.defaultConfig, nativeToolchain, nativeConfig)))
      && (|m| == 1 ==> c == Existing(m[0]))
      && (|m| > 1 ==> c == Fail(Fatal("Can't use --auto because target '" + targetName + "' was found in "
                                      + Decimal(|m|) + " build folders: " + QuotedList(NamesOf(m)))))
  {
  }

  /**
   * The `--auto` choice taken apart: a folder taken is the only one with a
   * root resolving to `inst`; a folder is created only when none has one,
   * and holds `inst` as its root and active target.
   */
  lemma AutoChoiceMeans(env: ToolEnv, targetName: string, inst: string, share: bool, findTarget: string -> Option<string>,
                        autoName: string -> string, nativeToolchain: CMakeOptions, nativeConfig: string)
    ensures var c := AutoChoice(env, targetName, inst, share, findTarget, autoName, nativeToolchain, nativeConfig);
      && (c.Existing? ==>
            && c.folder in env.buildFolders && Resolves(c.folder.rootTargets, inst, findTarget)
            && forall f :: f in env.buildFolders && Resolves(f.rootTargets, inst, findTarget) ==> f == c.folder)
      && (c.Create? ==>
            && (forall f :: f in env.buildFolders ==> !Resolves(f.rootTargets, inst, findTarget))
            && c.settings.name == autoName(targetName) && c.settings.rootTargets == [inst] && c.settings.activeTarget == inst)
  {
    var m := Matching(env.buildFolders, inst, findTarget);
    forall f | f in env.buildFolders && Resolves(f.rootTargets, inst, findTarget)
      ensures f in m
    {
      var i :| 0 <= i < |env.buildFolders| && env.buildFolders[i] == f;
    }
    if |m| == 1 {
      assert forall f :: f in m ==> f == m[0];
    }
  }

  /**
   * What a choice means: a folder taken is one of the folders found, and
   * under `--auto` the only one with a root resolving to the target; a
   * folder is created only when none has one, and it holds the target as
   * its root and active target.
   */
  lemma FolderChoiceMeans(env: ToolEnv, doAuto: bool, targetName: string, share: bool, findTarget: string -> Option<string>,
                          autoName: string -> string, nativeToolchain: CMakeOptions, nativeConfig: string)
    requires env.Valid()
    ensures var c := FolderChoice(env, doAuto, targetName, share, findTarget, autoName, nativeToolchain, nativeConfig);
      && (c.Existing? ==> c.folder in env.buildFolders)
      && (!doAuto ==> !c.Create? && (c.Existing? <==> env.currentBuildFolder != null)
                      && (c.Existing? ==> c.folder == env.currentBuildFolder))
      && (doAuto && (targetName == "" || findTarget(targetName).None?) ==> c.Fail?)
      && (c.Existing? && doAuto ==>
            && findTarget(targetName).Some? && Resolves(c.folder.rootTargets, findTarget(targetName).value, findTarget)
            && forall f :: f in env.buildFolders && Resolves(f.rootTargets, findTarget(targetName).value, findTarget) ==> f == c.folder)
      && (c.Create? ==>
            && doAuto && findTarget(targetName).Some?
            && (forall f :: f in env.buildFolders ==> !Resolves(f.rootTargets, findTarget(targetName).value, findTarget))
            && c.settings.name == autoName(targetName)
            && c.settings.rootTargets == [findTarget(targetName).value] && c.settings.activeTarget == findTarget(targetName).value)
  {
    if doAuto && targetName != "" && findTarget(targetName).Some? {
      AutoChoiceMeans(env, targetName, findTarget(targetName).value, share, findTarget, autoName, nativeToolchain, nativeConfig);
    }
  }

  class BuildParams {
    var configName: string
    var doAdd: bool
    var doAuto: bool
    var targetName: string
    const addParams: AddParams

    constructor ()
      ensures configName == "" && !doAdd && !doAuto && targetName == "" && fresh(addParams) && !addParams.makeShared
    {
      configName, doAdd, doAuto, targetName := "", false, false, "";
      addParams := new AddParams();
    }

    /**
     * `extractOptions`, given the parsed context's `option` and `argument`
     * lookups (none for an undeclared name): each declared option or
     * argument overrides its field; `--shared` is read only when `--add` or
     * `--auto` is present.
     */
    method ExtractOptions(option: string -> Option<CliContext.OptionValue>, argument: string -> Option<CliContext.ArgumentValue>)
      modifies this`configName, this`doAdd, this`doAuto, this`targetName, addParams`makeShared
      ensures configName == if option("config").Some? then option("config").value.Value() else old(configName)
      ensures doAdd == if option("add").Some? then option("add").value.present else old(doAdd)
      ensures doAuto == if option("auto").Some? then option("auto").value.present else old(doAuto)
      ensures targetName == if argument("target").Some? then argument("target").value.Value() else old(targetName)
      ensures (doAdd || doAuto) && option("shared").Some? ==> addParams.makeShared == option("shared").value.present
      ensures !(doAdd || doAuto) || option("shared").None? ==> addParams.makeShared == old(addParams.makeShared)
    {
      var configOption := option("config");
      if configOption.Some? {
        configName := configOption.value.Value();
      }
      var doAddOption := option("add");
      if doAddOption.Some? {
        doAdd := doAddOption.value.IsPresent();
      }
      var autoOption := option("auto");
      if autoOption.Some? {
        doAuto := autoOption.value.IsPresent();
      }
      if doAdd || doAuto {
        addParams.ExtractOptions(option);
      }
      var targetArg := argument("target");
      if targetArg.Some? {
        targetName := targetArg.value.Value();
      }
    }

    /**
     * `--auto` when no folder holds the target: a folder named after the
     * target, with the default toolchain and config and the target as its
     * root and active target, joins the folders and becomes current.
     */
    method AutoCreate(env: ToolEnv, inst: string, name: string, nativeToolchain: CMakeOptions, nativeConfig: string)
        returns (folder: BuildFolder)
      requires env.Valid()
      modifies env`buildFolders, env.workspace`currentBuildFolder
      ensures env.Valid() && fresh(folder) && env.buildFolders == old(env.buildFolders) + [folder]
      ensures folder.name == name && TargetsOf(folder) == AddTarget(Targets([], [], ""), addParams.makeShared, inst)
      ensures folder.State() == AutoCreated(name, addParams.makeShared, inst, env.workspace.defaultCMakeOptions,
                                            env.workspace.defaultConfig, nativeToolchain, nativeConfig)
      ensures folder.cmakeOptions == NewToolchain(env.workspace.defaultCMakeOptions, nativeToolchain)
      ensures folder.activeConfig == NewConfig(env.workspace.defaultConfig, nativeConfig)
      ensures env.workspace.currentBuildFolder == name
    {
      folder := new BuildFolder(name, nativeToolchain, nativeConfig);
      ApplyDefaults(folder, env.workspace, nativeToolchain, nativeConfig);
      var _ := addParams.Exec(folder, inst);
      env.buildFolders := env.buildFolders + [folder];
      if env.workspace.currentBuildFolder != folder.name {
        env.workspace.currentBuildFolder := folder.name;
      }
    }

    /**
     * `--auto` once the target resolves to `inst`: the folders holding it
     * decide; none creates one, one is taken and becomes current, several
     * are an error naming them.
     */
    method AutoFolder(env: ToolEnv, inst: string, findTarget: string -> Option<string>, autoName: string -> string,
                      nativeToolchain: CMakeOptions, nativeConfig: string) returns (r: Result<BuildFolder, Failure>)
      requires env.Valid()
      modifies env`buildFolders, env.workspace`currentBuildFolder
      ensures env.Valid() && (r.Ok? ==> r.value in env.buildFolders && (r.value in old(env.buildFolders) || fresh(r.value)))
      ensures var c := old(AutoChoice(env, targetName, inst, addParams.makeShared, findTarget, autoName, nativeToolchain, nativeConfig));
        && (c.Fail? ==> && r == Err(c.failure) && env.buildFolders == old(env.buildFolders)
                        && env.workspace.currentBuildFolder == old(env.workspace.currentBuildFolder))
        && (c.Existing? ==> r == Ok(c.folder) && env.buildFolders == old(env.buildFolders) && env.workspace.currentBuildFolder == c.folder.name)
        && (c.Create? ==> && r.Ok? && fresh(r.value) && env.buildFolders == old(env.buildFolders) + [r.value]
                          && r.value.State() == c.settings && env.workspace.currentBuildFolder == r.value.name)
    {
      ghost var c := AutoChoice(env, targetName, inst, addParams.makeShared, findTarget, autoName, nativeToolchain, nativeConfig);
      var matches := MatchFolders(env.buildFolders, inst, findTarget);
      if |matches| == 0 {
        assert c.Create? && c.settings == AutoCreated(autoName(targetName), addParams.makeShared, inst, env.workspace.defaultCMakeOptions,
                                                      env.workspace.defaultConfig, nativeToolchain, nativeConfig);
        var folder := AutoCreate(env, inst, autoName(targetName), nativeToolchain, nativeConfig);
        r := Ok(folder);
      } else if |matches| == 1 {
        assert c == Existing(matches[0]);
        if env.workspace.currentBuildFolder != matches[0].name {
          env.workspace.currentBuildFolder := matches[0].name;
        }
        r := Ok(matches[0]);
      } else {
        var names := JoinFolderNames(NamesOf(matches));
        r := Err(Fatal("Can't use --auto because target '" + targetName + "' was found in "
                       + Decimal(|matches|) + " build folders: " + names));
        assert c == Fail(r.error);
      }
    }

    /** The folder choice of `exec`: the current folder, or the one `--auto` finds or creates. */
    method ChooseFolder(env: ToolEnv, findTarget: string -> Option<string>, autoName: string -> string,
                        nativeToolchain: CMakeOptions, nativeConfig: string) returns (r: Result<BuildFolder, Failure>)
      requires env.Valid()
      modifies env`buildFolders, env.workspace`currentBuildFolder
      ensures env.Valid() && (r.Ok? ==> r.value in env.buildFolders)
      ensures !doAuto ==> unchanged(env, env.workspace)
      ensures var c := old(FolderChoice(env, doAuto, targetName, addParams.makeShared, findTarget, autoName, nativeToolchain, nativeConfig));
        && (c.Fail? ==> && r == Err(c.failure) && env.buildFolders == old(env.buildFolders)
                        && env.workspace.currentBuildFolder == old(env.workspace.currentBuildFolder))
        && (c.Existing? ==> r == Ok(c.folder) && env.buildFolders == old(env.buildFolders)
                            && (doAuto ==> env.workspace.currentBuildFolder == c.folder.name))
        && (c.Create? ==> && r.Ok? && fresh(r.value) && env.buildFolders == old(env.buildFolders) + [r.value]
                          && r.value.State() == c.settings && env.workspace.currentBuildFolder == r.value.name)
    {
      if !doAuto {
        if env.currentBuildFolder == null {
          return Err(Fatal("Current build folder not set"));
        }
        return Ok(env.currentBuildFolder);
      }
      if targetName == "" {
        return Err(Fatal("A target name must be specified when --auto is used"));
      }
      var buildTargetInst := findTarget(targetName);
      if buildTargetInst.None? {
        return Err(Exit(1));
      }
      r := AutoFolder(env, buildTargetInst.value, findTarget, autoName, nativeToolchain, nativeConfig);
    }

    /**
     * The target resolution of `exec`, in the chosen folder: its
     * dependencies must instantiate; an unnamed target is the folder's
     * active one; the target must be known, instantiated (with `--add` it is
     * added and the dependencies instantiated again) and executable.
     */
    method ResolveTarget(folder: BuildFolder, findTarget: string -> Option<string>,
                         instantiate: FolderState -> Option<Instantiation>, shortName: string -> string)
        returns (r: Result<Resolved, Failure>)
      modifies this`targetName, folder`rootTargets, folder`makeShared, folder`activeTarget
      ensures old(instantiate(folder.State())).Some? ==> targetName == if old(targetName) == "" then old(folder.activeTarget) else old(targetName)
      ensures old(instantiate(folder.State())).None? ==>
        r == Err(Fatal("Can't instantiate dependencies for folder '" + folder.name + "'\n")) && unchanged(folder)
      ensures (old(instantiate(folder.State())).Some? && findTarget(targetName).None?) ==> r == Err(Exit(1)) && unchanged(folder)
      ensures (old(instantiate(folder.State())).Some? && findTarget(targetName).Some? && !doAdd
               && findTarget(targetName).value !in old(instantiate(folder.State())).value) ==>
        r == Err(Fatal("Target '" + shortName(findTarget(targetName).value) + "' is not instantiated in folder '" + folder.name + "'\n"))
      ensures (old(instantiate(folder.State())).Some? && findTarget(targetName).Some?
               && findTarget(targetName).value in old(instantiate(folder.State())).value) ==> unchanged(folder)
      ensures r.Ok? ==>
        && Some(r.value.runTargetInst) == findTarget(targetName) && r.value.folder == folder
        && Some(r.value.instantiation) == instantiate(folder.State())
        && r.value.runTargetInst in r.value.instantiation
        && r.value.runTarget == r.value.instantiation[r.value.runTargetInst] && r.value.runTarget.isExecutable
      ensures (r.Ok? && r.value.runTargetInst !in old(instantiate(folder.State())).value) ==>
        doAdd && TargetsOf(folder) == AddTarget(old(TargetsOf(folder)), addParams.makeShared, r.value.runTargetInst)
      ensures r == Resolution(folder, old(folder.State()), old(targetName), doAdd, addParams.makeShared, findTarget, instantiate, shortName)
      ensures folder.State() == ResolvedState(old(folder.State()), old(targetName), doAdd, addParams.makeShared, findTarget, instantiate)
    {
      var instResult := instantiate(folder.State());
      if instResult.None? {
        return Err(Fatal("Can't instantiate dependencies for folder '" + folder.name + "'\n"));
      }
      if targetName == "" {
        targetName := folder.activeTarget;
      }
      var runTargetInst := findTarget(targetName);
      if runTargetInst.None? {
        return Err(Exit(1));
      }
      var inst := runTargetInst.value;
      var deps := instResult.value;
      if inst !in deps {
        if doAdd {
          var _ := addParams.Exec(folder, inst);
          instResult := instantiate(folder.State());
          if instResult.None? {
            return Err(Fatal("Can't instantiate dependencies for folder '" + folder.name + "'\n"));
          }
          deps := instResult.value;
          if inst !in deps {
            // PLY_ASSERT(runTargetIdx.wasFound())
            return Err(AssertionFailed);
          }
        } else {
          return Err(Fatal("Target '" + shortName(inst) + "' is not instantiated in folder '" + folder.name + "'\n"));
        }
      }
      var runTarget := deps[inst];
      if !runTarget.isExecutable {
        return Err(Fatal("Target '" + targetName + "' is not executable\n"));
      }
      r := Ok(Resolved(folder, deps, inst, runTarget));
    }

    /**
     * The part of `exec` after the folder is chosen: the target is resolved
     * in it; an unset config is the folder's active one; with `doBuild` the
     * config is generated unless it already is, then the target is built.
     */
    method ExecIn(folder: BuildFolder, doBuild: bool, findTarget: string -> Option<string>,
                  instantiate: FolderState -> Option<Instantiation>, shortName: string -> string,
                  isGenerated: (FolderState, string) -> bool, generate: string -> bool, build: (string, string) -> bool)
        returns (r: Result<(Resolved, seq<Step>, bool), Failure>)
      modifies this`targetName, this`configName, folder`rootTargets, folder`makeShared, folder`activeTarget
      ensures r == ExecOutcome(folder, old(folder.State()), old(targetName), old(configName), doAdd, addParams.makeShared, doBuild,
                               findTarget, instantiate, shortName, isGenerated, generate, build)
      ensures folder.State() == ResolvedState(old(folder.State()), old(targetName), doAdd, addParams.makeShared, findTarget, instantiate)
      ensures r.Ok? ==> r.value.0.folder == folder && targetName == TargetNameIn(old(folder.State()), old(targetName))
      ensures r.Ok? ==> configName == if old(configName) == "" then folder.activeConfig else old(configName)
    {
      var resolved := ResolveTarget(folder, findTarget, instantiate, shortName);
      if resolved.Err? {
        return Err(resolved.error);
      }
      var res := resolved.value;
      if configName == "" {
        configName := folder.activeConfig;
      }
      var steps, ok := RunSteps(configName, res.runTarget.name, doBuild, isGenerated(folder.State(), configName), generate, build);
      r := Ok((res, steps, ok));
    }

    /**
     * `exec`: the folder is chosen (by `--auto`, or the current one), then
     * the target is resolved, generated and built in it. Returns what was
     * resolved, the steps taken and whether they all succeeded.
     */
    method Exec(env: ToolEnv, doBuild: bool, findTarget: string -> Option<string>, autoName: string -> string,
                nativeToolchain: CMakeOptions, nativeConfig: string,
                instantiate: FolderState -> Option<Instantiation>, shortName: string -> string,
                isGenerated: (FolderState, string) -> bool, generate: string -> bool, build: (string, string) -> bool)
        returns (r: Result<(Resolved, seq<Step>, bool), Failure>)
      requires env.Valid()
      modifies env`buildFolders, env.workspace`currentBuildFolder, this`targetName, this`configName, env.buildFolders
      ensures env.Valid() && (r.Ok? ==> r.value.0.folder in env.buildFolders)
      ensures var c := old(FolderChoice(env, doAuto, targetName, addParams.makeShared, findTarget, autoName, nativeToolchain, nativeConfig));
        && (c.Fail? ==>
              && r == Err(c.failure) && env.buildFolders == old(env.buildFolders)
              && env.workspace.currentBuildFolder == old(env.workspace.currentBuildFolder))
        && (c.Existing? ==>
              && r == ExecOutcome(c.folder, old(c.folder.State()), old(targetName), old(configName), doAdd, addParams.makeShared, doBuild,
                                  findTarget, instantiate, shortName, isGenerated, generate, build)
              && env.buildFolders == old(env.buildFolders)
              && c.folder.State() == ResolvedState(old(c.folder.State()), old(targetName), doAdd, addParams.makeShared, findTarget, instantiate)
              && env.workspace.currentBuildFolder == if doAuto then c.folder.name else old(env.workspace.currentBuildFolder))
        && (c.Create? ==>
              && |env.buildFolders| == |old(env.buildFolders)| + 1
              && var f := env.buildFolders[|old(env.buildFolders)|];
              && fresh(f) && env.buildFolders == old(env.buildFolders) + [f]
              && f.State() == ResolvedState(c.settings, old(targetName), doAdd, addParams.makeShared, findTarget, instantiate)
              && env.workspace.currentBuildFolder == c.settings.name
              && r == ExecOutcome(f, c.settings, old(targetName), old(configName), doAdd, addParams.makeShared, doBuild,
                                  findTarget, instantiate, shortName, isGenerated, generate, build))
      ensures var c := old(FolderChoice(env, doAuto, targetName, addParams.makeShared, findTarget, autoName, nativeToolchain, nativeConfig));
        forall f :: f in old(env.buildFolders) && c != Existing(f) ==> f.State() == old(f.State())
    {
      ghost var c := FolderChoice(env, doAuto, targetName, addParams.makeShared, findTarget, autoName, nativeToolchain, nativeConfig);
      ghost var folders := env.buildFolders;
      var folder := ChooseFolder(env, findTarget, autoName, nativeToolchain, nativeConfig);
      if folder.Err? {
        return Err(folder.error);
      }
      assert c.Existing? ==> folder.value == c.folder && folder.value.State() == old(c.folder.State());
      assert c.Create? ==> folder.value == env.buildFolders[|folders|] && folder.value.State() == c.settings && fresh(folder.value);
      r := ExecIn(folder.value, doBuild, findTarget, instantiate, shortName, isGenerated, generate, build);
    }
  }
}
