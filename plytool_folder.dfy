/**
 * The state plytool's commands edit (build folders and the workspace that
 * names the current one) and the `folder` command's handlers
 * (`Command_Folder.cpp`). Saving to disk, printing and deleting the folder
 * tree are left to the caller; `fatalError` and `exit` become a `Failure`.
 */
module PlyFolder {
  import opened Common

  /** How a handler ends when it does not return: `fatalError(message)`, `exit(code)`, or a `PLY_ASSERT` that fails. */
  datatype Failure = Fatal(message: string) | Exit(code: int) | AssertionFailed

  /**
   * A build folder's CMake settings. A non-empty generator is what makes a
   * workspace default count as set; the other settings are carried along
   * unread.
   */
  datatype CMakeOptions = CMakeOptions(generator: string, settings: seq<string>)

  /** A snapshot of a build folder's settings. */
  datatype FolderState = FolderState(
    name: string, rootTargets: seq<string>, makeShared: seq<string>, activeTarget: string,
    activeConfig: string, cmakeOptions: CMakeOptions, externSelectors: seq<string>)

  /** A build folder: its name, root targets, shared targets, active target and config, toolchain and extern selections. */
  class BuildFolder {
    const name: string
    var rootTargets: seq<string>
    var makeShared: seq<string>
    var activeTarget: string
    var activeConfig: string
    var cmakeOptions: CMakeOptions
    var externSelectors: seq<string>

    /** The folder's settings as one value, which instantiating its targets reads. */
    function State(): FolderState
      reads this
    {
      FolderState(name, rootTargets, makeShared, activeTarget, activeConfig, cmakeOptions, externSelectors)
    }

    /** A folder that has no targets, selections or active target yet. */
    constructor (name: string, cmakeOptions: CMakeOptions, activeConfig: string)
      ensures this.name == name && this.cmakeOptions == cmakeOptions && this.activeConfig == activeConfig
      ensures rootTargets == [] && makeShared == [] && activeTarget == "" && externSelectors == []
    {
      this.name := name;
      this.cmakeOptions, this.activeConfig := cmakeOptions, activeConfig;
      rootTargets, makeShared, activeTarget, externSelectors := [], [], "", [];
    }
  }

  /** The workspace settings: the current folder's name and the defaults for new folders. */
  class Workspace {
    var currentBuildFolder: string
    var defaultCMakeOptions: CMakeOptions
    var defaultConfig: string

    constructor (current: string, defaultCMakeOptions: CMakeOptions, defaultConfig: string)
      ensures currentBuildFolder == current
      ensures this.defaultCMakeOptions == defaultCMakeOptions && this.defaultConfig == defaultConfig
    {
      currentBuildFolder := current;
      this.defaultCMakeOptions, this.defaultConfig := defaultCMakeOptions, defaultConfig;
    }
  }

  /** `PlyToolCommandEnv`: the workspace, the folders found in it, and the current one when it was found. */
  class ToolEnv {
    const workspace: Workspace
    var buildFolders: seq<BuildFolder>
    var currentBuildFolder: BuildFolder?

    /** The current folder, when one was found, is one of the folders found (it is looked up among them by name). */
    predicate Valid()
      reads this
    {
      currentBuildFolder != null ==> currentBuildFolder in buildFolders
    }

    constructor (workspace: Workspace, buildFolders: seq<BuildFolder>, current: BuildFolder?)
      ensures this.workspace == workspace && this.buildFolders == buildFolders && currentBuildFolder == current
    {
      this.workspace := workspace;
      this.buildFolders, currentBuildFolder := buildFolders, current;
    }
  }

  /** `find` over the folders by name: the first folder so named, or -1. */
  function FolderIndex(folders: seq<BuildFolder>, name: string): (r: int)
    ensures -1 <= r < |folders|
    ensures r >= 0 ==> folders[r].name == name
    ensures forall j :: 0 <= j < |folders| && (r < 0 || j < r) ==> folders[j].name != name
  {
    if folders == [] then -1
    else if folders[|folders| - 1].name == name && FolderIndex(folders[..|folders| - 1], name) < 0 then |folders| - 1
    else FolderIndex(folders[..|folders| - 1], name)
  }

  /** No two folders share a name. */
  predicate NamesDistinct(folders: seq<BuildFolder>)
  {
    forall i, j :: 0 <= i < j < |folders| ==> folders[i].name != folders[j].name
  }

  // ---------------------------------------------------------------------
  // Defaults of a new folder
  // ---------------------------------------------------------------------

  /** The workspace's default toolchain when it names a generator, the native toolchain otherwise. */
  function NewToolchain(ws: CMakeOptions, native: CMakeOptions): (r: CMakeOptions)
    ensures r == ws || r == native
    ensures r == ws <==> ws.generator != "" || ws == native
  {
    if ws.generator != "" then ws else native
  }

  /** The workspace's default config when it is set, the native default otherwise. */
  function NewConfig(ws: string, native: string): (r: string)
    ensures r == ws || r == native
    ensures r == ws <==> ws != "" || ws == native
  {
    if ws != "" then ws else native
  }

  /**
   * The toolchain and config every new folder gets, in `folder create` and
   * in `--auto`: the native ones, then the workspace's defaults over them
   * when those are set.
   */
  method ApplyDefaults(folder: BuildFolder, ws: Workspace, nativeToolchain: CMakeOptions, nativeConfig: string)
    modifies folder`cmakeOptions, folder`activeConfig
    ensures folder.cmakeOptions == NewToolchain(ws.defaultCMakeOptions, nativeToolchain)
    ensures folder.activeConfig == NewConfig(ws.defaultConfig, nativeConfig)
  {
    folder.cmakeOptions := nativeToolchain;
    if ws.defaultCMakeOptions.generator != "" {
      folder.cmakeOptions := ws.defaultCMakeOptions;
    }
    folder.activeConfig := nativeConfig;
    if ws.defaultConfig != "" {
      folder.activeConfig := ws.defaultConfig;
    }
  }

  // ---------------------------------------------------------------------
  // folder list / create / delete / set
  // ---------------------------------------------------------------------

  /** One line of `folder list`. */
  function FolderLine(name: string, active: bool): string
  {
    "    " + name + (if active then " (active)" else "")
  }

  /** `folder list`: a heading, then each folder, the one named current marked active. */
  method ListFolders(env: ToolEnv) returns (lines: seq<string>, marked: seq<bool>)
    requires forall i :: 0 <= i < |env.buildFolders| ==> env.buildFolders[i].name != ""
    ensures |lines| == |env.buildFolders| + 1 && lines[0] == "Build folders found:"
    ensures |marked| == |env.buildFolders|
    ensures forall i :: 0 <= i < |marked| ==> (marked[i] <==> env.buildFolders[i].name == env.workspace.currentBuildFolder)
    ensures forall i :: 0 <= i < |marked| ==> lines[i + 1] == FolderLine(env.buildFolders[i].name, marked[i])
  {
    var folders := env.buildFolders;
    lines, marked := ["Build folders found:"], [];
    for i := 0 to |folders|
      invariant |lines| == i + 1 && lines[0] == "Build folders found:" && |marked| == i
      invariant forall j :: 0 <= j < i ==> (marked[j] <==> folders[j].name == env.workspace.currentBuildFolder)
      invariant forall j :: 0 <= j < i ==> lines[j + 1] == FolderLine(folders[j].name, marked[j])
    {
      var isActive := folders[i].name == env.workspace.currentBuildFolder;
      lines := lines + [FolderLine(folders[i].name, isActive)];
      marked := marked + [isActive];
    }
  }

  /** With distinct names, `folder list` marks exactly one folder when the current name is among them, and none otherwise. */
  lemma {:induction false} ListMarksCurrent(folders: seq<BuildFolder>, current: string, marked: seq<bool>)
    requires NamesDistinct(folders) && |marked| == |folders|
    requires forall i :: 0 <= i < |marked| ==> (marked[i] <==> folders[i].name == current)
    ensures FolderIndex(folders, current) < 0 ==> forall i :: 0 <= i < |marked| ==> !marked[i]
    ensures FolderIndex(folders, current) >= 0 ==>
      forall i :: 0 <= i < |marked| ==> (marked[i] <==> i == FolderIndex(folders, current))
  {
    var k := FolderIndex(folders, current);
    if k >= 0 {
      forall i | 0 <= i < |marked|
        ensures marked[i] <==> i == k
      {
      }
    }
  }

  /**
   * `folder create`: an existing name is fatal; otherwise a new folder gets
   * the default toolchain and config and becomes the workspace's current
   * folder. The new folder is not added to the list of folders found.
   */
  method CreateFolder(env: ToolEnv, name: string, nativeToolchain: CMakeOptions, nativeConfig: string)
      returns (r: Result<BuildFolder, Failure>)
    modifies env.workspace`currentBuildFolder
    ensures FolderIndex(env.buildFolders, name) >= 0 ==>
      r == Err(Fatal("Folder \"" + name + "\" already exists")) && unchanged(env.workspace)
    ensures FolderIndex(env.buildFolders, name) < 0 ==>
      && r.Ok? && fresh(r.value) && r.value.name == name
      && r.value.cmakeOptions == NewToolchain(env.workspace.defaultCMakeOptions, nativeToolchain)
      && r.value.activeConfig == NewConfig(env.workspace.defaultConfig, nativeConfig)
      && r.value.rootTargets == [] && r.value.activeTarget == ""
      && env.workspace.currentBuildFolder == name
  {
    if FolderIndex(env.buildFolders, name) >= 0 {
      return Err(Fatal("Folder \"" + name + "\" already exists"));
    }
    var info := new BuildFolder(name, nativeToolchain, nativeConfig);
    ApplyDefaults(info, env.workspace, nativeToolchain, nativeConfig);
    env.workspace.currentBuildFolder := name;
    r := Ok(info);
  }

  /**
   * `folder delete`: an unknown name is fatal; otherwise the folder's
   * directory tree is removed (`removed` says whether that succeeded). The
   * workspace and the folder list are left as they are.
   */
  function DeleteFolder(folders: seq<BuildFolder>, name: string, removed: bool): (r: Result<string, Failure>)
    ensures FolderIndex(folders, name) < 0 ==> r == Err(Fatal("Folder \"" + name + "\" does not exist"))
    ensures FolderIndex(folders, name) >= 0 && !removed ==> r == Err(Fatal("Can't delete build folder '" + name + "'.\n"))
    ensures r.Ok? <==> FolderIndex(folders, name) >= 0 && removed
    ensures r.Ok? ==> r.value == "Deleted build folder '" + name + "'.\n"
  {
    var index := FolderIndex(folders, name);
    if index < 0 then Err(Fatal("Folder \"" + name + "\" does not exist"))
    else if removed then Ok("Deleted build folder '" + folders[index].name + "'.\n")
    else Err(Fatal("Can't delete build folder '" + folders[index].name + "'.\n"))
  }

  /** `folder set`: an unknown name is fatal; otherwise that folder becomes the current one. */
  method SetFolder(env: ToolEnv, name: string) returns (r: Result<(), Failure>)
    modifies env.workspace`currentBuildFolder
    ensures r.Err? <==> FolderIndex(env.buildFolders, name) < 0
    ensures r.Err? ==> r.error == Fatal("Folder \"" + name + "\" does not exist") && unchanged(env.workspace)
    ensures r.Ok? ==> env.workspace.currentBuildFolder == name
  {
    if FolderIndex(env.buildFolders, name) < 0 {
      return Err(Fatal("Folder \"" + name + "\" does not exist"));
    }
    env.workspace.currentBuildFolder := name;
    r := Ok(());
  }
}
