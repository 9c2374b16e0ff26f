/**
 * The `target` command's handlers (`Command_Target.cpp`): listing the
 * current folder's root targets, adding, removing and activating one, and
 * drawing the dependency graph as an ASCII tree. The repository registry,
 * instantiation and the dependency tree are parameters; output lines are
 * returned rather than written.
 */
module PlyTarget {
  import opened Common
  import opened Text
  import opened PlyFolder
  import opened PlyHelpers

  // ---------------------------------------------------------------------
  // The dependency tree and its ASCII drawing (dumpDepTree)
  // ---------------------------------------------------------------------

  /** A node of the dependency tree `buildDepTree` returns: a description and its children, in order. */
  datatype DepTree = DepTree(desc: string, children: seq<DepTree>)

  /** One printed line: the indentation prefix, then the node's description. */
  datatype Line = Line(prefix: string, desc: string)

  /** The text of a line as printed (without the newline). */
  function LineText(l: Line): string
  {
    l.prefix + l.desc
  }

  /**
   * `dumpDepTree`: the node's line with prefix `node`, then its children,
   * each drawn with `children` followed by `+-- ` (continuation `|   `), the
   * last one by `` `-- `` (continuation four spaces).
   */
  function Dump(t: DepTree, node: string, children: string): seq<Line>
    decreases t
  {
    [Line(node, t.desc)] + DumpChildren(t.children, children)
  }

  /** The children of one node, drawn in order below the indentation `indent`. */
  function DumpChildren(cs: seq<DepTree>, indent: string): seq<Line>
    decreases cs
  {
    if cs == [] then []
    else
      var more := |cs| > 1;
      Dump(cs[0], indent + (if more then "+-- " else "`-- "), indent + (if more then "|   " else "    "))
        + DumpChildren(cs[1..], indent)
  }

  /** A reference pre-order listing of the tree: each node's description with its depth below `depth`. */
  function Outline(t: DepTree, depth: nat): seq<(string, nat)>
    decreases t
  {
    [(t.desc, depth)] + OutlineAll(t.children, depth + 1)
  }

  /** The pre-order listings of a sequence of sibling trees, one after the other. */
  function OutlineAll(cs: seq<DepTree>, depth: nat): seq<(string, nat)>
    decreases cs
  {
    if cs == [] then [] else Outline(cs[0], depth) + OutlineAll(cs[1..], depth)
  }

  /**
   * A prefix that follows the indentation of a node's line: groups of four
   * characters, each `|   ` or four spaces for an ancestor level, then the
   * branch `+-- ` or `` `-- `` that leads to the node itself.
   */
  predicate Gutter(g: string)
    decreases |g|
  {
    if |g| <= 4 then g == "+-- " || g == "`-- "
    else (g[..4] == "|   " || g[..4] == "    ") && Gutter(g[4..])
  }

  /**
   * The lines of descendants drawn below the indentation `ch` match a
   * pre-order listing of depths greater than `d`: same descriptions, each
   * prefix is `ch` followed by a gutter, four characters per level below `d`.
   */
  predicate Fits(lines: seq<Line>, outline: seq<(string, nat)>, ch: string, d: nat)
  {
    && |lines| == |outline|
    && forall i :: 0 <= i < |lines| ==>
      && lines[i].desc == outline[i].0 && outline[i].1 > d
      && |ch| <= |lines[i].prefix| && lines[i].prefix[..|ch|] == ch
      && Gutter(lines[i].prefix[|ch|..])
      && |lines[i].prefix| == |ch| + 4 * (outline[i].1 - d)
  }

  lemma GutterBelow(y: string, g: string)
    requires y == "|   " || y == "    "
    requires Gutter(g)
    ensures Gutter(y + g)
  {
    assert (y + g)[..4] == y;
    assert (y + g)[4..] == g;
  }

  lemma FitsAppend(a: seq<Line>, oa: seq<(string, nat)>, b: seq<Line>, ob: seq<(string, nat)>, ch: string, d: nat)
    requires Fits(a, oa, ch, d) && Fits(b, ob, ch, d)
    ensures Fits(a + b, oa + ob, ch, d)
  {
    forall i | 0 <= i < |a + b|
      ensures (a + b)[i].desc == (oa + ob)[i].0 && (oa + ob)[i].1 > d
      ensures |ch| <= |(a + b)[i].prefix| && (a + b)[i].prefix[..|ch|] == ch
      ensures Gutter((a + b)[i].prefix[|ch|..])
      ensures |(a + b)[i].prefix| == |ch| + 4 * ((oa + ob)[i].1 - d)
    {
      if i < |a| {
        assert (a + b)[i] == a[i] && (oa + ob)[i] == oa[i];
      } else {
        assert (a + b)[i] == b[i - |a|] && (oa + ob)[i] == ob[i - |a|];
      }
    }
  }

  /** Lines fitted below `ch + y`, one level deeper, fit below `ch`. */
  lemma FitsLift(lines: seq<Line>, outline: seq<(string, nat)>, ch: string, y: string, d: nat)
    requires y == "|   " || y == "    "
    requires Fits(lines, outline, ch + y, d + 1)
    ensures Fits(lines, outline, ch, d)
  {
    forall i | 0 <= i < |lines|
      ensures |ch| <= |lines[i].prefix| && lines[i].prefix[..|ch|] == ch
      ensures Gutter(lines[i].prefix[|ch|..])
    {
      var p := lines[i].prefix;
      var g := p[|ch + y|..];
      assert p == (ch + y) + g;
      assert p[..|ch|] == ch;
      assert p[|ch|..] == y + g;
      GutterBelow(y, g);
    }
  }

  /** The line of a child, drawn with a branch after `ch`, fits below `ch`. */
  lemma FitsBranch(ch: string, x: string, desc: string, d: nat)
    requires x == "+-- " || x == "`-- "
    ensures Fits([Line(ch + x, desc)], [(desc, d + 1)], ch, d)
  {
    var p := ch + x;
    assert p[..|ch|] == ch;
    assert p[|ch|..] == x;
  }

  /**
   * `dumpDepTree` emits one line per node in pre-order: first the node with
   * its own prefix, then every descendant with the continuation indentation
   * followed by a gutter, each level of depth adding exactly four characters.
   */
  lemma {:induction false} DumpFits(t: DepTree, node: string, ch: string, d: nat)
    ensures |Dump(t, node, ch)| == |Outline(t, d)|
    ensures Dump(t, node, ch)[0] == Line(node, t.desc) && Outline(t, d)[0] == (t.desc, d)
    ensures Fits(Dump(t, node, ch)[1..], Outline(t, d)[1..], ch, d)
    decreases t
  {
    ChildrenFit(t.children, ch, d);
    assert Dump(t, node, ch)[1..] == DumpChildren(t.children, ch);
    assert Outline(t, d)[1..] == OutlineAll(t.children, d + 1);
  }

  /** The children of a node, drawn below `indent`, fit below it one level deeper than the node. */
  lemma {:induction false} ChildrenFit(cs: seq<DepTree>, indent: string, d: nat)
    ensures Fits(DumpChildren(cs, indent), OutlineAll(cs, d + 1), indent, d)
    decreases cs
  {
    if cs != [] {
      var more := |cs| > 1;
      var x := if more then "+-- " else "`-- ";
      var y := if more then "|   " else "    ";
      var lines := Dump(cs[0], indent + x, indent + y);
      var outline := Outline(cs[0], d + 1);
      DumpFits(cs[0], indent + x, indent + y, d + 1);
      FitsLift(lines[1..], outline[1..], indent, y, d);
      FitsBranch(indent, x, cs[0].desc, d);
      assert lines == [lines[0]] + lines[1..];
      assert outline == [outline[0]] + outline[1..];
      FitsAppend([lines[0]], [outline[0]], lines[1..], outline[1..], indent, d);
      ChildrenFit(cs[1..], indent, d);
      FitsAppend(lines, outline, DumpChildren(cs[1..], indent), OutlineAll(cs[1..], d + 1), indent, d);
    }
  }

  // ---------------------------------------------------------------------
  // target graph
  // ---------------------------------------------------------------------

  /** The body of `target graph`: each top-level dependency drawn with four spaces as both prefixes. */
  function GraphLines(cs: seq<DepTree>): seq<Line>
    decreases cs
  {
    if cs == [] then [] else Dump(cs[0], "    ", "    ") + GraphLines(cs[1..])
  }

  /** Lines in pre-order whose prefixes open with four spaces and are four characters per level deep. */
  predicate Aligned(lines: seq<Line>, outline: seq<(string, nat)>)
  {
    && |lines| == |outline|
    && forall i :: 0 <= i < |lines| ==>
      && lines[i].desc == outline[i].0
      && |lines[i].prefix| == 4 * outline[i].1
      && 4 <= |lines[i].prefix| && lines[i].prefix[..4] == "    "
  }

  /**
   * `target graph` lists every dependency below the folder's root in
   * pre-order; top-level ones (depth 1) are indented by four spaces and each
   * further level by four more.
   */
  lemma {:induction false} GraphAligned(cs: seq<DepTree>)
    ensures Aligned(GraphLines(cs), OutlineAll(cs, 1))
    decreases cs
  {
    if cs != [] {
      var lines := Dump(cs[0], "    ", "    ");
      var outline := Outline(cs[0], 1);
      DumpFits(cs[0], "    ", "    ", 1);
      assert Aligned(lines, outline) by {
        forall i | 0 <= i < |lines|
          ensures lines[i].desc == outline[i].0 && |lines[i].prefix| == 4 * outline[i].1
          ensures 4 <= |lines[i].prefix| && lines[i].prefix[..4] == "    "
        {
          if i > 0 {
            assert lines[i] == lines[1..][i - 1] && outline[i] == outline[1..][i - 1];
          }
        }
      }
      GraphAligned(cs[1..]);
      var rest, restOutline := GraphLines(cs[1..]), OutlineAll(cs[1..], 1);
      forall i | 0 <= i < |lines + rest|
        ensures (lines + rest)[i].desc == (outline + restOutline)[i].0
        ensures |(lines + rest)[i].prefix| == 4 * (outline + restOutline)[i].1
        ensures 4 <= |(lines + rest)[i].prefix| && (lines + rest)[i].prefix[..4] == "    "
      {
        if i < |lines| {
          assert (lines + rest)[i] == lines[i] && (outline + restOutline)[i] == outline[i];
        } else {
          assert (lines + rest)[i] == rest[i - |lines|] && (outline + restOutline)[i] == restOutline[i - |lines|];
        }
      }
    }
  }

  /** `target graph`: the heading, then the drawing of the current folder's dependency tree. */
  method Graph(env: ToolEnv, buildDepTree: FolderState -> DepTree) returns (r: Result<seq<string>, Failure>)
    ensures env.currentBuildFolder == null ==> r == Err(Fatal("Current build folder not set"))
    ensures env.currentBuildFolder != null ==>
      var lines := GraphLines(buildDepTree(env.currentBuildFolder.State()).children);
      && r.Ok? && |r.value| == |lines| + 1
      && r.value[0] == "Dependency graph for folder '" + env.currentBuildFolder.name + "':"
      && forall i :: 0 <= i < |lines| ==> r.value[i + 1] == LineText(lines[i])
  {
    if env.currentBuildFolder == null {
      return Err(Fatal("Current build folder not set"));
    }
    var folder := env.currentBuildFolder;
    var depTree := buildDepTree(folder.State());
    var lines := GraphLines(depTree.children);
    var out := ["Dependency graph for folder '" + folder.name + "':"];
    for i := 0 to |lines|
      invariant |out| == i + 1 && out[0] == "Dependency graph for folder '" + folder.name + "':"
      invariant forall j :: 0 <= j < i ==> out[j + 1] == LineText(lines[j])
    {
      out := out + [LineText(lines[i])];
    }
    r := Ok(out);
  }

  // ---------------------------------------------------------------------
  // target list
  // ---------------------------------------------------------------------

  /** One line of `target list`: an unknown name as written, a known one by its short name, marked when active. */
  function TargetLine(name: string, inst: Option<string>, shortName: string -> string, active: string): (r: string)
    ensures inst.None? ==> r == "    " + name + " (not found)"
    ensures inst.Some? && name == active ==> r == "    " + shortName(inst.value) + " (active)"
    ensures inst.Some? && name != active ==> r == "    " + shortName(inst.value)
  {
    match inst
    case None => "    " + name + " (not found)"
    case Some(fqn) => "    " + shortName(fqn) + (if name == active then " (active)" else "")
  }

  /** `target list`: the heading, then one line per root target of the current folder, in order. */
  method List(env: ToolEnv, findTarget: string -> Option<string>, shortName: string -> string)
      returns (r: Result<seq<string>, Failure>)
    ensures env.currentBuildFolder == null ==> r == Err(Fatal("Current build folder not set"))
    ensures env.currentBuildFolder != null ==>
      var folder := env.currentBuildFolder;
      && r.Ok? && |r.value| == |folder.rootTargets| + 1
      && r.value[0] == "List of root targets in build folder '" + folder.name + "':"
      && forall i :: 0 <= i < |folder.rootTargets| ==>
        r.value[i + 1] == TargetLine(folder.rootTargets[i], findTarget(folder.rootTargets[i]), shortName, folder.activeTarget)
  {
    if env.currentBuildFolder == null {
      return Err(Fatal("Current build folder not set"));
    }
    var folder := env.currentBuildFolder;
    var out := ["List of root targets in build folder '" + folder.name + "':"];
    for i := 0 to |folder.rootTargets|
      invariant |out| == i + 1 && out[0] == "List of root targets in build folder '" + folder.name + "':"
      invariant forall j :: 0 <= j < i ==>
        out[j + 1] == TargetLine(folder.rootTargets[j], findTarget(folder.rootTargets[j]), shortName, folder.activeTarget)
    {
      var targetName := folder.rootTargets[i];
      var targetInst := findTarget(targetName);
      if targetInst.None? {
        out := out + ["    " + targetName + " (not found)"];
      } else {
        var activeText := "";
        if targetName == folder.activeTarget {
          activeText := " (active)";
        }
        out := out + ["    " + shortName(targetInst.value) + activeText];
      }
    }
    r := Ok(out);
  }

  // ---------------------------------------------------------------------
  // target add / remove / set
  // ---------------------------------------------------------------------

  /**
   * `target add`: the named target must be known; it is added to the current
   * folder's root targets and becomes active. The options are not read, so
   * it never goes into the shared targets.
   */
  method Add(env: ToolEnv, targetName: string, findTarget: string -> Option<string>, shortName: string -> string)
      returns (r: Result<string, Failure>)
    modifies env.currentBuildFolder
    ensures env.currentBuildFolder == null ==> r == Err(Fatal("Current build folder not set"))
    ensures env.currentBuildFolder != null && findTarget(targetName).None? ==>
      r == Err(Fatal("Can't find target '" + targetName + "'")) && unchanged(env.currentBuildFolder)
    ensures env.currentBuildFolder != null && findTarget(targetName).Some? ==>
      var fqn := findTarget(targetName).value;
      && TargetsOf(env.currentBuildFolder) == AddTarget(old(TargetsOf(env.currentBuildFolder)), false, fqn)
      && env.currentBuildFolder.State() == WithTargetAdded(old(env.currentBuildFolder.State()), false, fqn)
      && r == Ok("Added root target '" + shortName(fqn) + "' to build folder '" + env.currentBuildFolder.name + "'.\n")
  {
    if env.currentBuildFolder == null {
      return Err(Fatal("Current build folder not set"));
    }
    var folder := env.currentBuildFolder;
    var addParams := new AddParams();
    var targetInst := findTarget(targetName);
    if targetInst.None? {
      return Err(Fatal("Can't find target '" + targetName + "'"));
    }
    var fullTargetName := targetInst.value;
    var _ := addParams.Exec(folder, fullTargetName);
    r := Ok("Added root target '" + shortName(fullTargetName) + "' to build folder '" + folder.name + "'.\n");
  }

  /** `findItem`: the index of the first occurrence of `x` in `s`, or -1. */
  function IndexOf(s: seq<string>, x: string): (r: int)
    ensures -1 <= r < |s|
    ensures r >= 0 ==> s[r] == x && x !in s[..r]
    ensures r < 0 <==> x !in s
  {
    if s == [] then -1
    else if s[0] == x then 0
    else
      var k := IndexOf(s[1..], x);
      assert s[1..][..k + 1] == s[1..k + 2] && s[..k + 2] == [s[0]] + s[1..k + 2] by {
        if k >= 0 {
          assert s[..k + 2] == [s[0]] + s[1..][..k + 1];
        }
      }
      if k < 0 then -1 else k + 1
  }

  /** A reference definition of removing an item: the list without the first occurrence of `x`. */
  function RemoveFirst(s: seq<string>, x: string): seq<string>
  {
    if s == [] then []
    else if s[0] == x then s[1..]
    else [s[0]] + RemoveFirst(s[1..], x)
  }

  /** `erase(findItem(...))` removes exactly the first occurrence: the reference definition. */
  lemma {:induction false} EraseFirst(s: seq<string>, x: string)
    requires x in s
    ensures s[..IndexOf(s, x)] + s[IndexOf(s, x) + 1..] == RemoveFirst(s, x)
  {
    if s[0] != x {
      EraseFirst(s[1..], x);
      var k := IndexOf(s[1..], x);
      assert s[..k + 1] == [s[0]] + s[1..][..k];
      assert s[k + 2..] == s[1..][k + 1..];
    }
  }

  /** Removing an item takes out exactly one occurrence and keeps every other item. */
  lemma {:induction false} RemoveFirstCount(s: seq<string>, x: string)
    requires x in s
    ensures multiset(RemoveFirst(s, x)) == multiset(s) - multiset{x}
    ensures |RemoveFirst(s, x)| == |s| - 1
  {
    if s[0] != x {
      RemoveFirstCount(s[1..], x);
      assert s == [s[0]] + s[1..];
    } else {
      assert s == [x] + s[1..];
    }
  }

  /** Removing a target that was just added to a list that lacked it gives the list back. */
  lemma {:induction false} RemoveUndoesAdd(s: seq<string>, x: string)
    requires x !in s
    ensures RemoveFirst(s + [x], x) == s
  {
    if s != [] {
      assert (s + [x])[1..] == s[1..] + [x];
      RemoveUndoesAdd(s[1..], x);
    }
  }

  /**
   * `target remove`: the named target must be known (otherwise `exit(1)`)
   * and among the current folder's root targets; its first occurrence is
   * erased and the other root targets keep their order.
   */
  method Remove(env: ToolEnv, targetName: string, findTarget: string -> Option<string>, shortName: string -> string)
      returns (r: Result<string, Failure>)
    modifies env.currentBuildFolder
    ensures env.currentBuildFolder == null ==> r == Err(Fatal("Current build folder not set"))
    ensures env.currentBuildFolder != null && findTarget(targetName).None? ==>
      r == Err(Exit(1)) && unchanged(env.currentBuildFolder)
    ensures env.currentBuildFolder != null && findTarget(targetName).Some? ==>
      var fqn := findTarget(targetName).value;
      var folder := env.currentBuildFolder;
      && (fqn !in old(folder.rootTargets) ==>
            r == Err(Fatal("Folder '" + folder.name + "' does not have root target '" + shortName(fqn) + "'"))
            && unchanged(folder))
      && (fqn in old(folder.rootTargets) ==>
            && folder.rootTargets == RemoveFirst(old(folder.rootTargets), fqn)
            && folder.State() == old(folder.State()).(rootTargets := folder.rootTargets)
            && r == Ok("Removed root target '" + shortName(fqn) + "' from build folder '" + folder.name + "'.\n"))
  {
    if env.currentBuildFolder == null {
      return Err(Fatal("Current build folder not set"));
    }
    var folder := env.currentBuildFolder;
    var targetInst := findTarget(targetName);
    if targetInst.None? {
      return Err(Exit(1));
    }
    var fullTargetName := targetInst.value;
    var j := IndexOf(folder.rootTargets, fullTargetName);
    if j < 0 {
      return Err(Fatal("Folder '" + folder.name + "' does not have root target '" + shortName(fullTargetName) + "'"));
    }
    EraseFirst(folder.rootTargets, fullTargetName);
    folder.rootTargets := folder.rootTargets[..j] + folder.rootTargets[j + 1..];
    r := Ok("Removed root target '" + shortName(fullTargetName) + "' from build folder '" + folder.name + "'.\n");
  }

  /**
   * `target set`: the folder's dependencies must instantiate, the named
   * target must be known (otherwise `exit(1)`) and instantiated; then it
   * becomes the active target, by its fully qualified name.
   */
  method Set(env: ToolEnv, targetName: string, findTarget: string -> Option<string>,
             instantiate: FolderState -> Option<Instantiation>, shortName: string -> string)
      returns (r: Result<string, Failure>)
    modifies env.currentBuildFolder
    ensures env.currentBuildFolder == null ==> r == Err(Fatal("Current build folder not set"))
    ensures env.currentBuildFolder != null ==>
      var folder := env.currentBuildFolder;
      var inst := instantiate(old(folder.State()));
      var fqn := findTarget(targetName);
      && (inst.None? ==>
            r == Err(Fatal("Can't instantiate dependencies for folder '" + folder.name + "'\n")))
      && (inst.Some? && fqn.None? ==> r == Err(Exit(1)))
      && (inst.Some? && fqn.Some? && fqn.value !in inst.value ==>
            r == Err(Fatal("Target '" + targetName + "' is not instantiated in folder '" + folder.name + "'\n")))
      && (r.Err? ==> unchanged(folder))
      && (r.Ok? <==> inst.Some? && fqn.Some? && fqn.value in inst.value)
      && (r.Ok? ==>
            && folder.State() == old(folder.State()).(activeTarget := fqn.value)
            && r.value == "Active target is now '" + shortName(fqn.value) + "' in folder '" + folder.name + "'.\n")
  {
    if env.currentBuildFolder == null {
      return Err(Fatal("Current build folder not set"));
    }
    var folder := env.currentBuildFolder;
    var instResult := instantiate(folder.State());
    if instResult.None? {
      return Err(Fatal("Can't instantiate dependencies for folder '" + folder.name + "'\n"));
    }
    var targetInst := findTarget(targetName);
    if targetInst.None? {
      return Err(Exit(1));
    }
    if targetInst.value !in instResult.value {
      return Err(Fatal("Target '" + targetName + "' is not instantiated in folder '" + folder.name + "'\n"));
    }
    folder.activeTarget := targetInst.value;
    r := Ok("Active target is now '" + shortName(targetInst.value) + "' in folder '" + folder.name + "'.\n");
  }
}
