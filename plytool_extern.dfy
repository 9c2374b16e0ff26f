/**
 * The `extern` command's handlers (`Command_Extern.cpp`): installing a
 * provider and reporting its result code, listing externs and the
 * providers of one, selecting a provider for the current folder (at most
 * one per extern), and listing the selections. The repository registry and
 * the providers' `externFunc` callbacks are parameters.
 */
module PlyExtern {
  import opened Common
  import opened Text
  import opened PlyFolder

  /** The codes an `externFunc` call returns; `Other` stands for any value outside the named ones. */
  datatype Code =
    | Installed | SupportedButNotInstalled | BadArgs | UnsupportedHost | MissingPackageManager
    | UnsupportedToolchain | InstallFailed | Other(raw: int)

  /** What `externFunc` returns: a code and, possibly, details (empty when there are none). */
  datatype ExternResult = ExternResult(code: Code, details: string)

  /** What `externFunc` is asked to do. */
  datatype ExternCommand = Status | Install

  /** An extern provider: its fully qualified name and the extern it provides. */
  datatype Provider = Provider(fqn: string, extern_: string)

  /** A repository: its name, the externs it defines and the extern providers it holds, in order. */
  datatype Repo = Repo(name: string, externs: seq<string>, providers: seq<Provider>)

  /** A provider's callback: the provider, the command and the folder's toolchain give a result. */
  type ExternFunc = (Provider, ExternCommand, CMakeOptions) -> ExternResult

  // ---------------------------------------------------------------------
  // installProvider
  // ---------------------------------------------------------------------

  /** The details of a result as appended to an error message: ` (details)`, or nothing when there are none. */
  function DetailSuffix(details: string): (r: string)
    ensures r == "" <==> details == ""
    ensures r != "" ==> StartsWith(r, " (") && r[|r| - 1] == ')' && r[2..|r| - 1] == details
  {
    if details != "" then " (" + details + ")" else ""
  }

  /**
   * How `installProvider` ends for a result: `Installed` is the only
   * success; each of the five named failures has its own message, followed
   * by the details; any other code is an invalid one.
   */
  function InstallOutcome(er: ExternResult, shortName: string): (r: Result<string, Failure>)
    ensures r.Ok? <==> er.code == Installed
    ensures r.Ok? ==> r.value == "Successfully installed extern provider '" + shortName + "'.\n"
    ensures r.Err? ==> r.error.Fatal?
    ensures er.code == BadArgs ==> r.error.message == "bad provider arguments" + DetailSuffix(er.details) + "\n"
    ensures er.code == UnsupportedHost ==> r.error.message == "can't install on host" + DetailSuffix(er.details) + "\n"
    ensures er.code == MissingPackageManager ==> r.error.message == "missing package manager" + DetailSuffix(er.details) + "\n"
    ensures er.code == UnsupportedToolchain ==> r.error.message == "toolchain is not supported" + DetailSuffix(er.details) + "\n"
    ensures er.code == InstallFailed ==> r.error.message == "install failed" + DetailSuffix(er.details) + "\n"
    ensures er.code.Other? || er.code == SupportedButNotInstalled ==>
      r.error.message == "internal provider returned invalid code"
  {
    if er.code == Installed then Ok("Successfully installed extern provider '" + shortName + "'.\n")
    else Err(Fatal(FailureMessage(er.code, er.details)))
  }

  /** The message `installProvider` fails with for a code other than `Installed`. */
  function FailureMessage(c: Code, details: string): string
  {
    var errorDetails := DetailSuffix(details);
    match c
    case BadArgs => "bad provider arguments" + errorDetails + "\n"
    case UnsupportedHost => "can't install on host" + errorDetails + "\n"
    case MissingPackageManager => "missing package manager" + errorDetails + "\n"
    case UnsupportedToolchain => "toolchain is not supported" + errorDetails + "\n"
    case InstallFailed => "install failed" + errorDetails + "\n"
    case _ => "internal provider returned invalid code"
  }

  /** The five failures `installProvider` names. */
  predicate NamedFailure(c: Code)
  {
    c == BadArgs || c == UnsupportedHost || c == MissingPackageManager || c == UnsupportedToolchain || c == InstallFailed
  }

  /**
   * The first and last characters of the message `installProvider` fails
   * with for a code, which tell the codes apart: the named failures open
   * with different letters and end with a newline, the invalid-code message
   * does not.
   */
  function Key(c: Code): (char, char)
  {
    match c
    case BadArgs => ('b', '\n')
    case UnsupportedHost => ('c', '\n')
    case MissingPackageManager => ('m', '\n')
    case UnsupportedToolchain => ('t', '\n')
    case InstallFailed => ('i', '\n')
    case _ => ('i', 'e')
  }

  /** Every failure message carries its code's key. */
  lemma MessageKey(c: Code, details: string)
    ensures var m := FailureMessage(c, details);
      |m| >= 1 && (m[0], m[|m| - 1]) == Key(c)
  {
    var rest := DetailSuffix(details) + "\n";
    match c
    case BadArgs => StemKey("bad provider arguments", rest);
    case UnsupportedHost => StemKey("can't install on host", rest);
    case MissingPackageManager => StemKey("missing package manager", rest);
    case UnsupportedToolchain => StemKey("toolchain is not supported", rest);
    case InstallFailed => StemKey("install failed", rest);
    case _ => StemKey("i", "nternal provider returned invalid code");
  }

  lemma StemKey(stem: string, rest: string)
    requires |stem| >= 1 && |rest| >= 1
    ensures var m := stem + rest; |m| >= 1 && m[0] == stem[0] && m[|m| - 1] == rest[|rest| - 1]
  {
  }

  /**
   * Whatever the details, two different named failures never give the same
   * message, and no named failure gives the message of an invalid code.
   */
  lemma InstallMessagesDistinct(a: ExternResult, b: ExternResult, shortName: string)
    requires NamedFailure(a.code) && a.code != b.code
    ensures InstallOutcome(a, shortName) != InstallOutcome(b, shortName)
  {
    MessageKey(a.code, a.details);
    MessageKey(b.code, b.details);
  }

  /**
   * `installProvider`: the provider's `externFunc` is asked to install with
   * the current folder's toolchain, and its result decides the outcome.
   */
  method InstallProvider(folder: BuildFolder, provider: Provider, externFunc: ExternFunc, shortName: Provider -> string)
      returns (r: Result<string, Failure>)
    ensures r == InstallOutcome(externFunc(provider, Install, folder.cmakeOptions), shortName(provider))
  {
    var er := externFunc(provider, Install, folder.cmakeOptions);
    r := InstallOutcome(er, shortName(provider));
  }

  // ---------------------------------------------------------------------
  // extern list
  // ---------------------------------------------------------------------

  /** The heading of one repository in `extern list`. */
  function ListHeader(n: nat, repoName: string): (r: string)
    ensures |Decimal(n)| + 8 <= |r| && r[..|Decimal(n)|] == Decimal(n)
    ensures DecimalValue(r[..|Decimal(n)|]) == n
    ensures r[|Decimal(n)|..|Decimal(n)| + 7] == " extern"
    ensures r[|Decimal(n)| + 7] == 's' <==> n != 1
    ensures r[|r| - 1] == (if n == 0 then '.' else ':')
  {
    DecimalRoundTrip(n);
    var tail := HeaderTail(n, repoName);
    HeadThenTail(Decimal(n), tail);
    Decimal(n) + tail
  }

  /** What follows the count in the heading: the noun, plural unless one, and the closing mark. */
  function HeaderTail(n: nat, repoName: string): (t: string)
    ensures |t| >= 8 && t[..7] == " extern"
    ensures t[7] == 's' <==> n != 1
    ensures t[|t| - 1] == (if n == 0 then '.' else ':')
  {
    var noun := " extern" + (if n == 1 then "" else "s");
    var t := noun + " defined in repo '" + repoName + "'" + (if n == 0 then "." else ":");
    assert t[..7] == noun[..7];
    assert n == 1 ==> t[7] == ' ';
    assert n != 1 ==> t[7] == noun[7] == 's';
    t
  }

  /** The parts of a text made of a head and a tail of at least eight characters. */
  lemma HeadThenTail(head: string, tail: string)
    requires |tail| >= 8
    ensures (head + tail)[..|head|] == head
    ensures (head + tail)[|head|..|head| + 7] == tail[..7]
    ensures (head + tail)[|head| + 7] == tail[7]
    ensures (head + tail)[|head + tail| - 1] == tail[|tail| - 1]
  {
  }

  /** The lines `extern list` prints for one repository: the heading, then each extern by its short name. */
  function RepoLines(repo: Repo, shortName: string -> string): seq<string>
  {
    [ListHeader(|repo.externs|, repo.name)] + ExternLines(repo.externs, shortName)
  }

  /** One line per extern, by its short name. */
  function ExternLines(externs: seq<string>, shortName: string -> string): seq<string>
  {
    seq(|externs|, i requires 0 <= i < |externs| => "    " + shortName(externs[i]))
  }

  /** The lines of `extern list` for the repositories, in order. */
  function ListLines(repos: seq<Repo>, shortName: string -> string): seq<string>
  {
    if repos == [] then [] else ListLines(repos[..|repos| - 1], shortName) + RepoLines(repos[|repos| - 1], shortName)
  }

  /** `extern list` prints one heading per repository and one line per extern. */
  lemma {:induction false} ListLinesCount(repos: seq<Repo>, shortName: string -> string)
    ensures |ListLines(repos, shortName)| == |repos| + ExternCount(repos)
  {
    if repos != [] {
      ListLinesCount(repos[..|repos| - 1], shortName);
    }
  }

  /** The number of externs the repositories define. */
  function ExternCount(repos: seq<Repo>): nat
  {
    if repos == [] then 0 else ExternCount(repos[..|repos| - 1]) + |repos[|repos| - 1].externs|
  }

  /** The inner loop of `extern list`: one repository's heading, then each of its externs. */
  method RepoBlock(repo: Repo, shortName: string -> string) returns (block: seq<string>)
    ensures block == RepoLines(repo, shortName)
  {
    var n := |repo.externs|;
    block := [ListHeader(n, repo.name)];
    for e := 0 to n
      invariant |block| == e + 1 && block[0] == ListHeader(n, repo.name)
      invariant forall j :: 0 <= j < e ==> block[j + 1] == "    " + shortName(repo.externs[j])
    {
      block := block + ["    " + shortName(repo.externs[e])];
    }
  }

  /** `extern list`: for each repository, its heading and its externs. */
  method List(env: ToolEnv, repos: seq<Repo>, shortName: string -> string) returns (r: Result<seq<string>, Failure>)
    ensures env.currentBuildFolder == null ==> r == Err(Fatal("Current build folder not set"))
    ensures env.currentBuildFolder != null ==> r == Ok(ListLines(repos, shortName))
  {
    if env.currentBuildFolder == null {
      return Err(Fatal("Current build folder not set"));
    }
    var out := [];
    for k := 0 to |repos|
      invariant out == ListLines(repos[..k], shortName)
    {
      var block := RepoBlock(repos[k], shortName);
      assert repos[..k + 1][..k] == repos[..k];
      out := out + block;
    }
    assert repos[..|repos|] == repos;
    r := Ok(out);
  }

  // ---------------------------------------------------------------------
  // extern info
  // ---------------------------------------------------------------------

  /** The status `extern info` shows for a provider's status code. */
  function StatusText(c: Code): (r: string)
    ensures r == "installed" <==> c == Installed
    ensures r == "not installed" <==> c == SupportedButNotInstalled
    ensures r == "not supported on host system" <==> c == UnsupportedHost || c == MissingPackageManager
    ensures r == "not compatible with build folder" <==> c == UnsupportedToolchain
    ensures r == "???" <==> c == BadArgs || c == InstallFailed || c.Other?
  {
    match c
    case Installed => "installed"
    case SupportedButNotInstalled => "not installed"
    case UnsupportedHost => "not supported on host system"
    case MissingPackageManager => "not supported on host system"
    case UnsupportedToolchain => "not compatible with build folder"
    case _ => "???"
  }

  /** The providers in `ps` of the extern `ext`, in order. */
  function ProvidersIn(ps: seq<Provider>, ext: string): seq<Provider>
  {
    if ps == [] then []
    else ProvidersIn(ps[..|ps| - 1], ext) + (if ps[|ps| - 1].extern_ == ext then [ps[|ps| - 1]] else [])
  }

  /** The providers of the extern `ext` across the repositories: repository by repository, each in its own order. */
  function ProvidersOf(repos: seq<Repo>, ext: string): seq<Provider>
  {
    if repos == [] then []
    else ProvidersOf(repos[..|repos| - 1], ext) + ProvidersIn(repos[|repos| - 1].providers, ext)
  }

  lemma {:induction false} ProvidersInMembers(ps: seq<Provider>, ext: string)
    ensures forall p :: p in ProvidersIn(ps, ext) <==> p in ps && p.extern_ == ext
  {
    if ps != [] {
      ProvidersInMembers(ps[..|ps| - 1], ext);
      assert ps == ps[..|ps| - 1] + [ps[|ps| - 1]];
    }
  }

  /** `extern info` lists exactly the providers of the requested extern found in some repository. */
  lemma {:induction false} ProvidersOfMembers(repos: seq<Repo>, ext: string, p: Provider)
    ensures p in ProvidersOf(repos, ext) <==> p.extern_ == ext && exists k :: 0 <= k < |repos| && p in repos[k].providers
  {
    if repos != [] {
      var front := repos[..|repos| - 1];
      ProvidersOfMembers(front, ext, p);
      ProvidersInMembers(repos[|repos| - 1].providers, ext);
      if p.extern_ == ext && exists k :: 0 <= k < |repos| && p in repos[k].providers {
        var k :| 0 <= k < |repos| && p in repos[k].providers;
        if k < |repos| - 1 {
          assert front[k] == repos[k];
        }
      }
      if p in ProvidersOf(front, ext) {
        var k :| 0 <= k < |front| && p in front[k].providers;
        assert repos[k] == front[k];
      }
    }
  }

  /** A candidate line of `extern info`: the provider's short name and its status. */
  function CandidateLine(p: Provider, c: Code, shortName: Provider -> string): string
  {
    "    " + shortName(p) + " (" + StatusText(c) + ")"
  }

  /**
   * The candidate search of `extern info`: every provider of the extern,
   * repository by repository, paired with the status code its `externFunc`
   * reports for the folder's toolchain.
   */
  method Candidates(repos: seq<Repo>, ext: string, externFunc: ExternFunc, toolchain: CMakeOptions)
      returns (candidates: seq<(Provider, Code)>)
    ensures |candidates| == |ProvidersOf(repos, ext)|
    ensures forall i :: 0 <= i < |candidates| ==>
      candidates[i] == (ProvidersOf(repos, ext)[i], externFunc(ProvidersOf(repos, ext)[i], Status, toolchain).code)
  {
    candidates := [];
    for k := 0 to |repos|
      invariant |candidates| == |ProvidersOf(repos[..k], ext)|
      invariant forall i :: 0 <= i < |candidates| ==>
        candidates[i] == (ProvidersOf(repos[..k], ext)[i], externFunc(ProvidersOf(repos[..k], ext)[i], Status, toolchain).code)
    {
      ghost var before := ProvidersOf(repos[..k], ext);
      var ps := repos[k].providers;
      for j := 0 to |ps|
        invariant |candidates| == |before + ProvidersIn(ps[..j], ext)|
        invariant forall i :: 0 <= i < |candidates| ==>
          candidates[i] == ((before + ProvidersIn(ps[..j], ext))[i], externFunc((before + ProvidersIn(ps[..j], ext))[i], Status, toolchain).code)
      {
        assert ps[..j + 1][..j] == ps[..j];
        if ps[j].extern_ != ext {
          continue;
        }
        var er := externFunc(ps[j], Status, toolchain);
        candidates := candidates + [(ps[j], er.code)];
      }
      assert ps[..|ps|] == ps;
      assert repos[..k + 1][..k] == repos[..k];
    }
    assert repos[..|repos|] == repos;
  }

  /** The output of `extern info` after the extern is found: the heading, then one line per candidate. */
  method InfoLines(heading: string, candidates: seq<(Provider, Code)>, shortName: Provider -> string)
      returns (out: seq<string>)
    ensures |out| == |candidates| + 1 && out[0] == heading
    ensures forall j :: 0 <= j < |candidates| ==> out[j + 1] == CandidateLine(candidates[j].0, candidates[j].1, shortName)
  {
    out := [heading];
    for i := 0 to |candidates|
      invariant |out| == i + 1 && out[0] == heading
      invariant forall j :: 0 <= j < i ==> out[j + 1] == CandidateLine(candidates[j].0, candidates[j].1, shortName)
    {
      out := out + [CandidateLine(candidates[i].0, candidates[i].1, shortName)];
    }
  }

  /**
   * `extern info`: the extern must be known; then the heading with the
   * number of its providers, and one line per provider with its status.
   */
  method Info(env: ToolEnv, externName: string, repos: seq<Repo>, findExtern: string -> Option<string>,
              externFunc: ExternFunc, shortDepName: string -> string, shortProviderName: Provider -> string)
      returns (r: Result<seq<string>, Failure>)
    ensures env.currentBuildFolder == null ==> r == Err(Fatal("Current build folder not set"))
    ensures env.currentBuildFolder != null && findExtern(externName).None? ==>
      r == Err(Fatal("Can't find extern '" + externName + "'"))
    ensures env.currentBuildFolder != null && findExtern(externName).Some? ==>
      var ext := findExtern(externName).value;
      var ps := ProvidersOf(repos, ext);
      && r.Ok? && |r.value| == |ps| + 1
      && r.value[0] == "Found " + Decimal(|ps|) + " provider" + (if |ps| == 1 then "" else "s")
                       + " for extern '" + shortDepName(ext) + "':"
      && forall i :: 0 <= i < |ps| ==>
        r.value[i + 1] == CandidateLine(ps[i], externFunc(ps[i], Status, env.currentBuildFolder.cmakeOptions).code, shortProviderName)
  {
    if env.currentBuildFolder == null {
      return Err(Fatal("Current build folder not set"));
    }
    var extern_ := findExtern(externName);
    if extern_.None? {
      return Err(Fatal("Can't find extern '" + externName + "'"));
    }
    var candidates := Candidates(repos, extern_.value, externFunc, env.currentBuildFolder.cmakeOptions);
    var n := |candidates|;
    var out := InfoLines("Found " + Decimal(n) + " provider" + (if n == 1 then "" else "s")
                         + " for extern '" + shortDepName(extern_.value) + "':", candidates, shortProviderName);
    r := Ok(out);
  }

  // ---------------------------------------------------------------------
  // extern select / selected / install
  // ---------------------------------------------------------------------

  /** A selector that resolves to a provider of the extern `ext`. */
  predicate SelectsExtern(sel: string, ext: string, getProvider: string -> Option<Provider>)
  {
    getProvider(sel).Some? && getProvider(sel).value.extern_ == ext
  }

  /** The selectors that do not resolve to a provider of `ext`, in their original order. */
  function KeepOthers(sels: seq<string>, ext: string, getProvider: string -> Option<Provider>): (r: seq<string>)
    ensures |r| <= |sels|
    ensures forall i :: 0 <= i < |r| ==> !SelectsExtern(r[i], ext, getProvider)
  {
    if sels == [] then []
    else
      var last := sels[|sels| - 1];
      KeepOthers(sels[..|sels| - 1], ext, getProvider) + (if SelectsExtern(last, ext, getProvider) then [] else [last])
  }

  /** Exactly the selectors of other externs, or of no provider, are kept. */
  lemma {:induction false} KeepOthersMembers(sels: seq<string>, ext: string, getProvider: string -> Option<Provider>)
    ensures forall s :: s in KeepOthers(sels, ext, getProvider) <==> s in sels && !SelectsExtern(s, ext, getProvider)
  {
    if sels != [] {
      KeepOthersMembers(sels[..|sels| - 1], ext, getProvider);
      assert sels == sels[..|sels| - 1] + [sels[|sels| - 1]];
    }
  }

  /** Filtering keeps the relative order: filtering a concatenation concatenates the filtered parts. */
  lemma {:induction false} KeepOthersAppend(a: seq<string>, b: seq<string>, ext: string, getProvider: string -> Option<Provider>)
    ensures KeepOthers(a + b, ext, getProvider) == KeepOthers(a, ext, getProvider) + KeepOthers(b, ext, getProvider)
    decreases |b|
  {
    if b != [] {
      var b' := b[..|b| - 1];
      assert (a + b)[..|a + b| - 1] == a + b';
      KeepOthersAppend(a, b', ext, getProvider);
    } else {
      assert a + b == a;
    }
  }

  /**
   * After `extern select`, when the chosen provider's name resolves back to
   * it, exactly one selector picks its extern: the last one.
   */
  lemma {:induction false} SelectExclusive(sels: seq<string>, provider: Provider, getProvider: string -> Option<Provider>)
    requires getProvider(provider.fqn) == Some(provider)
    ensures var after := KeepOthers(sels, provider.extern_, getProvider) + [provider.fqn];
      && after[|after| - 1] == provider.fqn
      && SelectsExtern(after[|after| - 1], provider.extern_, getProvider)
      && forall i :: 0 <= i < |after| - 1 ==> !SelectsExtern(after[i], provider.extern_, getProvider)
  {
    var kept := KeepOthers(sels, provider.extern_, getProvider);
    var after := kept + [provider.fqn];
    forall i | 0 <= i < |after| - 1
      ensures !SelectsExtern(after[i], provider.extern_, getProvider)
    {
      assert after[i] == kept[i];
    }
  }

  /**
   * The erase loop of `extern select`: every selector that resolves to a
   * provider of `ext` is erased in place; the index only moves past a
   * selector that stays.
   */
  method RemoveSelectors(folder: BuildFolder, ext: string, getProvider: string -> Option<Provider>)
    modifies folder`externSelectors
    ensures folder.externSelectors == KeepOthers(old(folder.externSelectors), ext, getProvider)
  {
    ghost var original := folder.externSelectors;
    ghost var k := 0;
    var i := 0;
    while i < |folder.externSelectors|
      invariant 0 <= i <= |folder.externSelectors| && 0 <= k <= |original|
      invariant folder.externSelectors[..i] == KeepOthers(original[..k], ext, getProvider)
      invariant folder.externSelectors[i..] == original[k..]
      decreases |folder.externSelectors| - i
    {
      var sels := folder.externSelectors;
      assert sels[i] == original[k];
      assert original[..k + 1][..k] == original[..k];
      var other := getProvider(sels[i]);
      if other.Some? && other.value.extern_ == ext {
        folder.externSelectors := sels[..i] + sels[i + 1..];
        assert folder.externSelectors[..i] == sels[..i];
        assert folder.externSelectors[i..] == sels[i + 1..];
      } else {
        assert sels[..i + 1] == sels[..i] + [sels[i]];
        i := i + 1;
      }
      k := k + 1;
    }
    assert original[k..] == [];
    assert original[..k] == original;
  }

  /**
   * `extern select`: the provider must be known; it is installed first when
   * asked (a failed install ends the command); then every selector of the
   * same extern is removed and the provider's name is appended.
   */
  method Select(env: ToolEnv, qualifiedName: string, shouldInstall: bool, getProvider: string -> Option<Provider>,
                externFunc: ExternFunc, shortName: Provider -> string) returns (r: Result<string, Failure>)
    modifies env.currentBuildFolder
    ensures env.currentBuildFolder == null ==> r == Err(Fatal("Current build folder not set"))
    ensures env.currentBuildFolder != null ==>
      var folder := env.currentBuildFolder;
      var provider := getProvider(qualifiedName);
      var install := if provider.Some? then InstallOutcome(externFunc(provider.value, Install, folder.cmakeOptions), shortName(provider.value)) else Ok("");
      && (provider.None? ==> r == Err(Fatal("Provider not found")))
      && (provider.Some? && shouldInstall && install.Err? ==> r == Err(install.error))
      && (r.Err? ==> unchanged(folder))
      && (r.Ok? <==> provider.Some? && (!shouldInstall || install.Ok?))
      && (r.Ok? ==>
            && folder.externSelectors
               == KeepOthers(old(folder.externSelectors), provider.value.extern_, getProvider) + [provider.value.fqn]
            && folder.State() == old(folder.State()).(externSelectors := folder.externSelectors)
            && r.value == "Selected extern provider '" + shortName(provider.value) + "' in build folder '" + folder.name + "'.\n")
  {
    if env.currentBuildFolder == null {
      return Err(Fatal("Current build folder not set"));
    }
    var folder := env.currentBuildFolder;
    var provider := getProvider(qualifiedName);
    if provider.None? {
      return Err(Fatal("Provider not found"));
    }
    if shouldInstall {
      var installed := InstallProvider(folder, provider.value, externFunc, shortName);
      if installed.Err? {
        return Err(installed.error);
      }
    }
    RemoveSelectors(folder, provider.value.extern_, getProvider);
    folder.externSelectors := folder.externSelectors + [provider.value.fqn];
    r := Ok("Selected extern provider '" + shortName(provider.value) + "' in build folder '" + folder.name + "'.\n");
  }

  /** `extern selected`: the heading, then each selector of the current folder, in order. */
  method Selected(env: ToolEnv) returns (r: Result<seq<string>, Failure>)
    ensures env.currentBuildFolder == null ==> r == Err(Fatal("Current build folder not set"))
    ensures env.currentBuildFolder != null ==>
      var folder := env.currentBuildFolder;
      && r.Ok? && |r.value| == |folder.externSelectors| + 1
      && r.value[0] == "The following extern providers are selected in build folder '" + folder.name + "':"
      && forall i :: 0 <= i < |folder.externSelectors| ==> r.value[i + 1] == "    " + folder.externSelectors[i]
  {
    if env.currentBuildFolder == null {
      return Err(Fatal("Current build folder not set"));
    }
    var folder := env.currentBuildFolder;
    var out := ["The following extern providers are selected in build folder '" + folder.name + "':"];
    for i := 0 to |folder.externSelectors|
      invariant |out| == i + 1
      invariant out[0] == "The following extern providers are selected in build folder '" + folder.name + "':"
      invariant forall j :: 0 <= j < i ==> out[j + 1] == "    " + folder.externSelectors[j]
    {
      out := out + ["    " + folder.externSelectors[i]];
    }
    r := Ok(out);
  }

  /** `extern install`: the provider must be known; then it is installed into the current folder's toolchain. */
  method InstallCommand(env: ToolEnv, qualifiedName: string, getProvider: string -> Option<Provider>,
                        externFunc: ExternFunc, shortName: Provider -> string) returns (r: Result<string, Failure>)
    ensures env.currentBuildFolder == null ==> r == Err(Fatal("Current build folder not set"))
    ensures env.currentBuildFolder != null && getProvider(qualifiedName).None? ==> r == Err(Fatal("Provider not found"))
    ensures env.currentBuildFolder != null && getProvider(qualifiedName).Some? ==>
      var p := getProvider(qualifiedName).value;
      r == InstallOutcome(externFunc(p, Install, env.currentBuildFolder.cmakeOptions), shortName(p))
  {
    if env.currentBuildFolder == null {
      return Err(Fatal("Current build folder not set"));
    }
    var provider := getProvider(qualifiedName);
    if provider.None? {
      return Err(Fatal("Provider not found"));
    }
    r := InstallProvider(env.currentBuildFolder, provider.value, externFunc, shortName);
  }
}
