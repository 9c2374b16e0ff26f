/**
 * The documentation web server's request routing (`myRequestHandler` in
 * `WebServer.cpp`) and its small argv reader (`CommandLine::readToken`).
 * The handlers a route leads to (file system, source code, echo, docs)
 * are not part of this model: a route names the handler and the path it
 * is given.
 */
module WebRoutes {
  import opened Common
  import opened Text
  import WebServer

  /** The handler a request path is sent to, with the path that handler receives. */
  datatype Route =
    | StaticFiles(path: string)
    | SourceCode(path: string)
    | Echo(path: string)
    | Docs(path: string)
    | NotFound

  /** `rtrim` of the `/` characters at the end of a path. */
  function TrimSlashes(s: string): (r: string)
    ensures |r| <= |s| && r == s[..|r|]
    ensures r == [] || r[|r| - 1] != '/'
    ensures forall i :: |r| <= i < |s| ==> s[i] == '/'
  {
    if s == [] || s[|s| - 1] != '/' then s else TrimSlashes(s[..|s| - 1])
  }

  /**
   * `myRequestHandler`: the prefixes are tried in order and the first that
   * matches decides; `/file/` and `/docs/` strip six characters, the root
   * path is the docs index, and anything else is not found.
   */
  function RouteOf(path: string): Route
  {
    if StartsWith(path, "/static/") then StaticFiles(path)
    else if StartsWith(path, "/file/") then SourceCode(path[6..])
    else if TrimSlashes(path) == "/echo" then Echo(path)
    else if StartsWith(path, "/docs/") then Docs(path[6..])
    else if path == "/" then Docs("")
    else NotFound
  }

  /** Every path under `/static/` is served from the file system, whole. */
  lemma StaticRoute(rest: string)
    ensures RouteOf("/static/" + rest) == StaticFiles("/static/" + rest)
  {
    assert ("/static/" + rest)[..8] == "/static/";
  }

  /** Every path under `/file/` is shown as source code, without the prefix. */
  lemma SourceRoute(rest: string)
    ensures RouteOf("/file/" + rest) == SourceCode(rest)
  {
    var path := "/file/" + rest;
    assert !StartsWith(path, "/static/") by { assert path[1] == 'f'; }
    assert path[..6] == "/file/";
    assert path[6..] == rest;
  }

  /** Every path under `/docs/` is a documentation page, without the prefix. */
  lemma DocsRoute(rest: string)
    ensures RouteOf("/docs/" + rest) == Docs(rest)
  {
    var path := "/docs/" + rest;
    assert !StartsWith(path, "/static/") by { assert path[1] == 'd'; }
    assert !StartsWith(path, "/file/") by { assert path[1] == 'd'; }
    assert TrimSlashes(path) != "/echo" by {
      var t := TrimSlashes(path);
      if |t| == 5 {
        assert t[1] == path[1] == 'd';
      }
    }
    assert path[..6] == "/docs/";
    assert path[6..] == rest;
  }

  /** The root path is the documentation index. */
  lemma RootRoute()
    ensures RouteOf("/") == Docs("")
  {
    assert TrimSlashes("/") == [];
  }

  /** `/echo` followed by any number of slashes, and nothing else, reaches the echo handler. */
  lemma EchoRoute(path: string)
    ensures RouteOf(path).Echo? <==> exists n :: path == "/echo" + Repeat('/', n)
  {
    if RouteOf(path).Echo? {
      var t := TrimSlashes(path);
      var n := |path| - 5;
      assert path == "/echo" + Repeat('/', n) by {
        assert path[..5] == "/echo";
        assert path == path[..5] + path[5..];
        assert path[5..] == Repeat('/', n);
      }
    }
    if exists n :: path == "/echo" + Repeat('/', n) {
      var n :| path == "/echo" + Repeat('/', n);
      EchoTrim(n);
      assert !StartsWith(path, "/static/") by { assert path[1] == 'e'; }
      assert !StartsWith(path, "/file/") by { assert path[1] == 'e'; }
    }
  }

  lemma {:induction false} EchoTrim(n: nat)
    ensures TrimSlashes("/echo" + Repeat('/', n)) == "/echo"
  {
    if n > 0 {
      var path := "/echo" + Repeat('/', n);
      assert path[..|path| - 1] == "/echo" + Repeat('/', n - 1);
      EchoTrim(n - 1);
    } else {
      assert "/echo" + Repeat('/', 0) == "/echo";
    }
  }

  /** Only the not-found route answers by itself, and it answers 404. */
  function Answer(path: string, serve: Route -> Option<WebServer.ResponseCode>): (r: Option<WebServer.ResponseCode>)
    ensures RouteOf(path) == NotFound ==> r == Some(WebServer.NotFound)
    ensures RouteOf(path) != NotFound ==> r == serve(RouteOf(path))
  {
    match RouteOf(path)
    case NotFound => Some(WebServer.NotFound)
    case route => serve(route)
  }

  /** A path the routes do not know is answered 404 whatever the handlers would do. */
  lemma UnknownAnswered(path: string, serve: Route -> Option<WebServer.ResponseCode>)
    requires !StartsWith(path, "/static/") && !StartsWith(path, "/file/") && !StartsWith(path, "/docs/")
    requires path != "/" && TrimSlashes(path) != "/echo"
    ensures WebServer.Description(Answer(path, serve).value).0 == "404"
  {
  }

  /**
   * The program's argv reader: a cursor that starts past the program name
   * and hands out one argument per call until they run out.
   */
  class CommandLine {
    const args: seq<string>
    var index: nat

    /** The cursor never points at the program name. */
    predicate Valid()
      reads this
    {
      index >= 1
    }

    constructor (args: seq<string>)
      ensures this.args == args && index == 1 && Valid()
    {
      this.args := args;
      index := 1;
    }

    /** `readToken`: the next argument, or the empty view once every argument has been read. */
    method ReadToken() returns (token: string)
      requires Valid()
      modifies this
      ensures Valid()
      ensures old(index) >= |args| ==> token == [] && index == old(index)
      ensures old(index) < |args| ==> 1 <= old(index) && token == args[old(index)] && index == old(index) + 1
    {
      if index >= |args| {
        return [];
      }
      token := args[index];
      index := index + 1;
    }
  }
}
