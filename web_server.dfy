/**
 * The per-connection part of web-common's HTTP/1.1 server (`Server.cpp`):
 * reading the request head up to the first blank line, splitting the
 * request-line (section 3.1.1 of RFC 7230) and the header fields (section
 * 3.2 of RFC 7230), calling the request handler with the request-target,
 * and answering 500 when the handler did not respond. The socket streams
 * are values: the lines the input stream yields, and the text written out.
 */
module WebServer {
  import opened Common
  import opened Text

  /** The response codes the server knows. */
  datatype ResponseCode = OK | BadRequest | NotFound | InternalError

  /** `getResponseDescription`: the status code and the reason phrase of section 6 of RFC 7231. */
  function Description(code: ResponseCode): (r: (string, string))
    ensures |r.0| == 3 && forall i :: 0 <= i < 3 ==> '0' <= r.0[i] <= '9'
    ensures r.0[0] == '2' <==> code == OK
    ensures r.0[0] == '4' <==> code == BadRequest || code == NotFound
    ensures r.0[0] == '5' <==> code == InternalError
  {
    match code
    case OK => ("200", "OK")
    case BadRequest => ("400", "Bad Request")
    case NotFound => ("404", "Not Found")
    case InternalError => ("500", "Internal Server Error")
  }

  /** Different codes are sent with different status codes. */
  lemma DescriptionInjective(a: ResponseCode, b: ResponseCode)
    requires a != b
    ensures Description(a).0 != Description(b).0
  {
    if Description(a).0[0] == Description(b).0[0] {
      assert {a, b} == {BadRequest, NotFound};
      assert Description(a).0[2] != Description(b).0[2];
    }
  }

  /** The status line `respondWithStream` writes. */
  function StatusLine(code: ResponseCode): string
  {
    "HTTP/1.1 " + Description(code).0 + " " + Description(code).1 + "\r\n"
  }

  /** The headers and page `respondGeneric` writes after the status line. */
  function GenericPage(code: ResponseCode): string
  {
    var (num, reason) := Description(code);
    "Content-Type: text/html\r\n\r\n"
      + "<html>\n<head><title>" + num + " " + reason + "</title></head>\n<body>\n<center><h1>"
      + num + " " + reason + "</h1></center>\n<hr>\n</body>\n</html>\n"
  }

  /** A parsed request: the request-line's three tokens and the header fields in order. */
  datatype Request = Request(verb: string, target: string, version: string, headerFields: seq<(string, string)>)

  /** The response side of a connection: what has been written, and whether a response was started. */
  class Responder {
    var output: seq<string>
    var gotResponse: bool

    constructor ()
      ensures output == [] && !gotResponse
    {
      output, gotResponse := [], false;
    }

    /** `respondWithStream`: marks the response started and writes its status line. */
    method RespondWithStream(code: ResponseCode)
      modifies this
      ensures gotResponse && output == old(output) + [StatusLine(code)]
    {
      gotResponse := true;
      output := output + [StatusLine(code)];
    }

    /** `respondGeneric`: the status line, then a page naming the status. */
    method RespondGeneric(code: ResponseCode)
      modifies this
      ensures gotResponse && output == old(output) + [StatusLine(code), GenericPage(code)]
    {
      RespondWithStream(code);
      output := output + [GenericPage(code)];
    }

    /**
     * `handleMissingResponse`: a 500 page when nothing was sent, nothing
     * otherwise; either way a response has been started afterwards, so a
     * second call writes nothing.
     */
    method HandleMissingResponse()
      modifies this
      ensures gotResponse
      ensures old(gotResponse) ==> output == old(output)
      ensures !old(gotResponse) ==> output == old(output) + [StatusLine(InternalError), GenericPage(InternalError)]
    {
      if !gotResponse {
        RespondGeneric(InternalError);
      }
    }
  }

  // ---------------------------------------------------------------------
  // Reading the request head
  // ---------------------------------------------------------------------

  /** A line with no character other than white space (an empty line included). */
  predicate Blank(line: string)
  {
    forall i :: 0 <= i < |line| ==> IsWhite(line[i])
  }

  /**
   * Lines as read from the connection: each keeps its line end, so none is
   * empty; the empty read that signals the end of the stream is the end of
   * the sequence.
   */
  predicate LinesRead(input: seq<string>)
  {
    forall i :: 0 <= i < |input| ==> input[i] != ""
  }

  /** The result of reading lines up to the first blank one. */
  datatype Head = EndOfStream | Lines(lines: seq<string>)

  /**
   * The reading loop of `serverThreadEntry`: lines are taken from the input
   * up to the first blank one; running out of input first is the end of
   * the stream.
   */
  method ReadHead(input: seq<string>) returns (r: Head)
    requires LinesRead(input)
    ensures r.EndOfStream? <==> forall j :: 0 <= j < |input| ==> !Blank(input[j])
    ensures r.Lines? ==>
      && |r.lines| < |input| && r.lines == input[..|r.lines|] && Blank(input[|r.lines|])
      && forall j :: 0 <= j < |r.lines| ==> !Blank(r.lines[j])
  {
    var lines := [];
    var pos := 0;
    while true
      invariant 0 <= pos <= |input| && lines == input[..pos]
      invariant forall j :: 0 <= j < pos ==> !Blank(input[j])
      decreases |input| - pos
    {
      if pos == |input| {
        return EndOfStream;
      }
      var line := input[pos];
      pos := pos + 1;
      if Blank(line) {
        break;
      }
      lines := lines + [line];
    }
    r := Lines(lines);
  }

  /** A header field line: the name left of the first colon, right-trimmed; the value after it, trimmed. */
  function ParseField(line: string): (r: Option<(string, string)>)
    ensures r.None? <==> ':' !in line
    ensures r.Some? ==> ':' !in r.value.0 && (r.value.0 == [] || !IsWhite(r.value.0[|r.value.0| - 1]))
    ensures r.Some? ==> r.value.1 == [] || (!IsWhite(r.value.1[0]) && !IsWhite(r.value.1[|r.value.1| - 1]))
  {
    var colon := FindByte(line, ':', 0);
    if colon < 0 then
      NoColonAnywhere(line);
      None
    else
      NameHasNoColon(line, colon);
      Some((RTrim(line[..colon]), Trim(line[colon + 1..])))
  }

  /** `findByte` finding no colon means the line holds none. */
  lemma NoColonAnywhere(line: string)
    requires FindByte(line, ':', 0) < 0
    ensures ':' !in line
  {
    assert forall i :: 0 <= i < |line| ==> line[i] != ':';
  }

  /** The text before the first colon, right-trimmed, holds no colon. */
  lemma NameHasNoColon(line: string, colon: int)
    requires 0 <= colon < |line| && colon == FindByte(line, ':', 0)
    ensures ':' !in RTrim(line[..colon])
  {
    var name := RTrim(line[..colon]);
    assert forall i :: 0 <= i < |name| ==> name[i] == line[i] && i < colon;
  }

  /** A folded continuation line (obs-fold, section 3.2.4 of RFC 7230), which is skipped. */
  predicate Folded(line: string)
  {
    line != [] && IsWhite(line[0])
  }

  /** The header fields of the lines after the request-line, in order; `None` when a line has no colon. */
  function ParseFields(lines: seq<string>): Option<seq<(string, string)>>
  {
    if lines == [] then Some([])
    else
      var front := ParseFields(lines[..|lines| - 1]);
      var last := lines[|lines| - 1];
      if front.None? then None
      else if Folded(last) then front
      else if ParseField(last).None? then None
      else Some(front.value + [ParseField(last).value])
  }

  /** A line the fields loop accepts: a continuation, or a line with a colon. */
  predicate Acceptable(line: string)
  {
    Folded(line) || ':' in line
  }

  /** Every line after the request-line is accepted by the fields loop. */
  predicate AllAcceptable(lines: seq<string>)
  {
    forall j :: 0 <= j < |lines| ==> Acceptable(lines[j])
  }

  /** The fields parse exactly when every line that is not a continuation has a colon. */
  lemma {:induction false} ParseFieldsDefined(lines: seq<string>)
    ensures ParseFields(lines).Some? <==> AllAcceptable(lines)
  {
    if lines != [] {
      ParseFieldsDefined(lines[..|lines| - 1]);
      ParseFieldsSnoc(lines);
      AllAcceptableSnoc(lines);
    }
  }

  lemma ParseFieldsSnoc(lines: seq<string>)
    requires lines != []
    ensures ParseFields(lines).Some? <==> ParseFields(lines[..|lines| - 1]).Some? && Acceptable(lines[|lines| - 1])
  {
  }

  lemma AllAcceptableSnoc(lines: seq<string>)
    requires lines != []
    ensures AllAcceptable(lines) <==> AllAcceptable(lines[..|lines| - 1]) && Acceptable(lines[|lines| - 1])
  {
    assert forall j :: 0 <= j < |lines| - 1 ==> lines[..|lines| - 1][j] == lines[j];
  }

  /** A line with its first colon after `name` is split there. */
  lemma FieldAtColon(name: string, rest: string)
    requires ':' !in name
    ensures ParseField(name + ":" + rest) == Some((RTrim(name), Trim(rest)))
  {
    var line := name + ":" + rest;
    assert forall i :: 0 <= i < |name| ==> line[i] == name[i];
    assert line[|name|] == ':';
    assert FindByte(line, ':', 0) == |name|;
    assert line[..|name|] == name;
    assert line[|name| + 1..] == rest;
  }

  /** A well-formed field written as `name: value` with a line ending reads back as that name and value. */
  lemma FieldRoundTrip(name: string, value: string)
    requires ':' !in name && (name == [] || !IsWhite(name[|name| - 1]))
    requires value == [] || (!IsWhite(value[0]) && !IsWhite(value[|value| - 1]))
    ensures ParseField(name + ": " + value + "\r\n") == Some((name, value))
  {
    assert name + ": " + value + "\r\n" == name + ":" + (" " + value + "\r\n");
    FieldAtColon(name, " " + value + "\r\n");
    TrimPadded(value);
  }

  /**
   * The fields loop of `serverThreadEntry`: continuation lines are
   * skipped, a line without a colon is a bad request, every other line
   * gives a field.
   */
  method SplitFields(lines: seq<string>) returns (r: Option<seq<(string, string)>>)
    requires |lines| >= 1
    ensures r == ParseFields(lines[1..])
  {
    var fields := [];
    for i := 1 to |lines|
      invariant ParseFields(lines[1..i]) == Some(fields)
    {
      FieldsStep(lines, i, fields);
      var line := lines[i];
      if Folded(line) {
        continue;
      }
      var colonPos := FindByte(line, ':', 0);
      if colonPos < 0 {
        return None;
      }
      FieldAtFirstColon(line, colonPos);
      fields := fields + [(RTrim(line[..colonPos]), Trim(line[colonPos + 1..]))];
    }
    assert lines[1..|lines|] == lines[1..];
    r := Some(fields);
  }

  /** The last line's part in the fields of a list of lines. */
  lemma ParseFieldsLast(lines: seq<string>)
    requires lines != []
    ensures var front := ParseFields(lines[..|lines| - 1]); var last := lines[|lines| - 1];
      ParseFields(lines) ==
        if front.None? then None
        else if Folded(last) then front
        else if ParseField(last).None? then None
        else Some(front.value + [ParseField(last).value])
  {
  }

  /** What one more line does to the fields the loop has gathered. */
  lemma FieldsStep(lines: seq<string>, i: nat, fields: seq<(string, string)>)
    requires 1 <= i < |lines| && ParseFields(lines[1..i]) == Some(fields)
    ensures Folded(lines[i]) ==> ParseFields(lines[1..i + 1]) == Some(fields)
    ensures !Folded(lines[i]) && ':' !in lines[i] ==> ParseFields(lines[1..]) == None
    ensures !Folded(lines[i]) && ':' in lines[i] ==> ParseFields(lines[1..i + 1]) == Some(fields + [ParseField(lines[i]).value])
  {
    ParseFieldsNext(lines, i);
    if !Folded(lines[i]) && ':' !in lines[i] {
      assert lines[1..][..i] == lines[1..i + 1];
      ParseFieldsStop(lines[1..], i);
    }
  }

  /** The field the loop computes at the first colon is the parsed one. */
  lemma FieldAtFirstColon(line: string, colon: int)
    requires 0 <= colon && colon == FindByte(line, ':', 0)
    ensures ':' in line && ParseField(line) == Some((RTrim(line[..colon]), Trim(line[colon + 1..])))
  {
    assert line[colon] == ':';
  }

  /** One more line after the request-line in the fields loop. */
  lemma ParseFieldsNext(lines: seq<string>, i: nat)
    requires 1 <= i < |lines|
    ensures var front := ParseFields(lines[1..i]); var last := lines[i];
      ParseFields(lines[1..i + 1]) ==
        if front.None? then None
        else if Folded(last) then front
        else if ParseField(last).None? then None
        else Some(front.value + [ParseField(last).value])
  {
    var s := lines[1..i + 1];
    assert s[..|s| - 1] == lines[1..i];
    assert s[|s| - 1] == lines[i];
    ParseFieldsLast(s);
  }

  /** Once a prefix of the lines fails to parse, every longer one fails too. */
  lemma {:induction false} ParseFieldsStop(lines: seq<string>, k: nat)
    requires 1 <= k <= |lines| && ParseFields(lines[..k]) == None
    ensures ParseFields(lines) == None
    decreases |lines|
  {
    if k < |lines| {
      var front := lines[..|lines| - 1];
      assert front[..k] == lines[..k];
      ParseFieldsStop(front, k);
      ParseFieldsLast(lines);
    } else {
      assert lines[..k] == lines;
    }
  }

  /** What the head of a request amounts to. */
  datatype Parsed = NoRequest | Malformed | Parsed(request: Request)

  /**
   * A request head: no lines is no request at all; the request-line,
   * right-trimmed, must split on single spaces into exactly three tokens;
   * then the header fields.
   */
  function ParseHead(lines: seq<string>): Parsed
  {
    if lines == [] then NoRequest
    else
      var tokens := SplitByte(RTrim(lines[0]), ' ');
      if |tokens| != 3 then Malformed
      else
        var fields := ParseFields(lines[1..]);
        if fields.None? then Malformed
        else Parsed(Request(tokens[0], tokens[1], tokens[2], fields.value))
  }

  /** A request-line written as method, target and version with a line ending reads back as those tokens. */
  lemma RequestLineRoundTrip(verb: string, target: string, version: string)
    requires verb != [] && ' ' !in verb
    requires target != [] && ' ' !in target
    requires version != [] && ' ' !in version && !IsWhite(version[|version| - 1])
    ensures SplitByte(RTrim(verb + " " + target + " " + version + "\r\n"), ' ') == [verb, target, version]
  {
    var line := verb + " " + target + " " + version;
    assert line[|line| - 1] == version[|version| - 1];
    RTrimLineEnd(line);
    SplitByteThree(verb, target, version, ' ');
  }

  /**
   * `serverThreadEntry` for one connection: the head is read and parsed; a
   * stream that ends first and a malformed head are answered 400, an empty
   * head gets no answer; otherwise the handler is given the request-target
   * (it answers with a code, or not at all) and a missing answer becomes a
   * 500 page.
   */
  method Serve(input: seq<string>, handler: (string, Request) -> Option<ResponseCode>) returns (responder: Responder)
    requires LinesRead(input)
    ensures fresh(responder)
    ensures (forall j :: 0 <= j < |input| ==> !Blank(input[j])) ==>
      responder.output == [StatusLine(BadRequest), GenericPage(BadRequest)]
    ensures (exists k :: 0 <= k < |input| && Blank(input[k])) ==>
      var k := FirstBlank(input);
      match ParseHead(input[..k])
      case NoRequest => responder.output == [] && !responder.gotResponse
      case Malformed => responder.output == [StatusLine(BadRequest), GenericPage(BadRequest)]
      case Parsed(request) =>
        responder.gotResponse &&
        responder.output == match handler(request.target, request)
          case Some(code) => [StatusLine(code)]
          case None => [StatusLine(InternalError), GenericPage(InternalError)]
  {
    responder := new Responder();
    var head := ReadHead(input);
    if head.EndOfStream? {
      responder.RespondGeneric(BadRequest);
      return;
    }
    var lines := head.lines;
    FirstBlankIs(input, |lines|);
    if |lines| == 0 {
      return;
    }
    var tokens := SplitByte(RTrim(lines[0]), ' ');
    if |tokens| != 3 {
      responder.RespondGeneric(BadRequest);
      return;
    }
    var fields := SplitFields(lines);
    if fields.None? {
      responder.RespondGeneric(BadRequest);
      return;
    }
    var request := Request(tokens[0], tokens[1], tokens[2], fields.value);
    var answer := handler(tokens[1], request);
    if answer.Some? {
      responder.RespondWithStream(answer.value);
    }
    responder.HandleMissingResponse();
  }

  /** The index of the first blank line of the input. */
  function FirstBlank(input: seq<string>): (k: nat)
    requires exists k :: 0 <= k < |input| && Blank(input[k])
    ensures k < |input| && Blank(input[k]) && forall j :: 0 <= j < k ==> !Blank(input[j])
  {
    if Blank(input[0]) then 0
    else
      assert exists k :: 0 <= k < |input[1..]| && Blank(input[1..][k]) by {
        var k :| 0 <= k < |input| && Blank(input[k]);
        assert input[1..][k - 1] == input[k];
      }
      1 + FirstBlank(input[1..])
  }

  lemma FirstBlankIs(input: seq<string>, n: nat)
    requires n < |input| && Blank(input[n]) && forall j :: 0 <= j < n ==> !Blank(input[j])
    ensures FirstBlank(input) == n
  {
    var k := FirstBlank(input);
    assert !(k < n) && !(n < k);
  }
}
