/** The HTTP client of the admin front end (front/src/http.ts): the verb helpers build
    a request, `sendRequest` prefixes its path with the root, converts the body (setting
    the JSON content type for objects) and passes everything to an XMLHttpRequest; the
    response headers are parsed from the raw header block. The XMLHttpRequest itself and
    JSON parsing are collaborators whose outcomes are passed in. */
module Http {
  import opened Wrappers
  import opened Strings

  /** A request body: `typeof body === 'object'` holds for `null` and for objects (given
      with their `JSON.stringify` text); strings are sent as they are. */
  datatype Body = NullBody | ObjectBody(json: string) | TextBody(text: string)

  /** `typeof data === 'object'` (true for null too). */
  predicate IsObject(b: Body)
  {
    b.NullBody? || b.ObjectBody?
  }

  /** What `convertForXhr` returns: the JSON text of an object (`"null"` for null), a string as is. */
  function Payload(b: Body): string
  {
    match b
    case NullBody => "null"
    case ObjectBody(json) => json
    case TextBody(text) => text
  }

  /** The headers after `convertForXhr`: objects (null included) set the JSON content type. */
  function ConvertedHeaders(headers: map<string, string>, b: Body): (r: map<string, string>)
    ensures IsObject(b) ==> r.Keys == headers.Keys + {"Content-Type"} && r["Content-Type"] == "application/json"
    ensures IsObject(b) ==> forall k | k in headers && k != "Content-Type" :: r[k] == headers[k]
    ensures !IsObject(b) ==> r == headers
  {
    if IsObject(b) then headers["Content-Type" := "application/json"] else headers
  }

  /** One line of the raw header block, cut at its first ':' (`indexOf`), both halves
      trimmed; without a ':' the name is `substring(0, -1)`, the empty string. */
  function HeaderPair(line: string): (string, string)
  {
    var index := IndexOf(line, ':');
    (Trim(Substring(line, 0, index)), Trim(SubstringFrom(line, index + 1)))
  }

  /** A line with a ':' at `i` and none before it gives the trimmed text before `i` as
      the name and the trimmed text after it as the value. */
  lemma HeaderPairAtFirstColon(line: string, i: nat)
    requires i < |line| && line[i] == ':' && ':' !in line[..i]
    ensures HeaderPair(line) == (Trim(line[..i]), Trim(line[i + 1..]))
  {
  }

  /** A line without ':' has the empty name, so it is dropped. */
  lemma HeaderPairWithoutColon(line: string)
    requires ':' !in line
    ensures HeaderPair(line).0 == ""
  {
  }

  /** `parseHeaders(rawHeaders)`: the raw block split on '\n', each line cut into its
      pair, pairs with an empty name dropped, and the rest assigned in order to an empty
      object, so a later line with the same name overwrites an earlier one. */
  function ParseHeaders(raw: string): map<string, string>
  {
    AssignLines(Split(raw, '\n'))
  }

  /** The `map`, `filter` and `reduce` of `parseHeaders` over `lines`, as one left fold. */
  function AssignLines(lines: seq<string>): map<string, string>
  {
    if |lines| == 0 then map[]
    else
      var acc := AssignLines(lines[..|lines| - 1]);
      var pair := HeaderPair(lines[|lines| - 1]);
      if pair.0 != "" then acc[pair.0 := pair.1] else acc
  }

  /** The names the lines of `lines` carry, empty names left out. */
  ghost function LineNames(lines: seq<string>): set<string>
  {
    set i | 0 <= i < |lines| && HeaderPair(lines[i]).0 != "" :: HeaderPair(lines[i]).0
  }

  /** The fold binds exactly the non-empty names of the lines. */
  lemma {:induction false} AssignLinesKeys(lines: seq<string>)
    ensures AssignLines(lines).Keys == LineNames(lines)
  {
    if |lines| > 0 {
      var init, last := lines[..|lines| - 1], lines[|lines| - 1];
      AssignLinesKeys(init);
      forall n | n in LineNames(lines) ensures n in AssignLines(lines) {
        var i :| 0 <= i < |lines| && HeaderPair(lines[i]).0 != "" && HeaderPair(lines[i]).0 == n;
        if i < |lines| - 1 {
          assert init[i] == lines[i];
          assert n in LineNames(init);
        }
      }
      forall n | n in AssignLines(lines) ensures n in LineNames(lines) {
        if n in LineNames(init) {
          var i :| 0 <= i < |init| && HeaderPair(init[i]).0 != "" && HeaderPair(init[i]).0 == n;
          assert lines[i] == init[i];
        } else {
          assert HeaderPair(lines[|lines| - 1]).0 == n;
        }
      }
    }
  }

  /** A line with a non-empty name that no later line repeats gives that name its value. */
  lemma {:induction false} AssignLinesValue(lines: seq<string>, i: nat)
    requires i < |lines| && HeaderPair(lines[i]).0 != ""
    requires forall j | i < j < |lines| :: HeaderPair(lines[j]).0 != HeaderPair(lines[i]).0
    ensures HeaderPair(lines[i]).0 in AssignLines(lines)
    ensures AssignLines(lines)[HeaderPair(lines[i]).0] == HeaderPair(lines[i]).1
  {
    if i < |lines| - 1 {
      var init := lines[..|lines| - 1];
      assert init[i] == lines[i];
      assert forall j | i < j < |init| :: init[j] == lines[j];
      AssignLinesValue(init, i);
    }
  }

  /** The parsed headers have exactly the non-empty names of the lines as keys, and each
      name holds the value of the last line carrying it. */
  lemma {:induction false} ParseHeadersMeaning(raw: string)
    ensures ParseHeaders(raw).Keys == LineNames(Split(raw, '\n'))
    ensures forall i | 0 <= i < |Split(raw, '\n')| && HeaderPair(Split(raw, '\n')[i]).0 != ""
                       && (forall j | i < j < |Split(raw, '\n')| :: HeaderPair(Split(raw, '\n')[j]).0 != HeaderPair(Split(raw, '\n')[i]).0) ::
              ParseHeaders(raw)[HeaderPair(Split(raw, '\n')[i]).0] == HeaderPair(Split(raw, '\n')[i]).1
  {
    var lines := Split(raw, '\n');
    AssignLinesKeys(lines);
    forall i | 0 <= i < |lines| && HeaderPair(lines[i]).0 != ""
               && (forall j | i < j < |lines| :: HeaderPair(lines[j]).0 != HeaderPair(lines[i]).0)
      ensures ParseHeaders(raw)[HeaderPair(lines[i]).0] == HeaderPair(lines[i]).1
    {
      AssignLinesValue(lines, i);
    }
  }

  /** `status < 200 && status >= 400`, the rejection test of `sendRequest`: no status meets it. */
  function StatusRejected(status: int): (r: bool)
    ensures !r
  {
    status < 200 && status >= 400
  }

  /** What the XMLHttpRequest reports once `readyState` is 4: the status, the raw header
      block, the response text and, when `JSON.parse` accepts that text, its value. */
  datatype XhrResult<T> = XhrResult(status: int, rawHeaders: string, responseText: string, parsed: Option<T>)

  /** What the client handed to the XMLHttpRequest: `open(method, path)`, one
      `setRequestHeader` per header, and `send(payload)`. */
  datatype XhrSent = XhrSent(methodName: string, url: string, headers: map<string, string>, payload: string)

  /** The request as the response refers to it, after `sendRequest` changed it. */
  datatype RequestView = RequestView(methodName: string, path: string, headers: map<string, string>, body: Body)

  /** The response data: the parsed JSON, or the raw text when it does not parse. */
  datatype Data<T> = Parsed(value: T) | Unparsed(text: string)

  datatype Response<T> = Response(request: RequestView, status: int, headers: map<string, string>, data: Data<T>)

  function DataOf<T>(xhr: XhrResult<T>): Data<T>
  {
    match xhr.parsed
    case Some(v) => Parsed(v)
    case None => Unparsed(xhr.responseText)
  }

  /** The mutable request object (`IHttpRequest`). */
  class HttpRequest {
    var methodName: string
    var path: string
    var headers: map<string, string>
    var body: Body

    constructor (methodName: string, path: string, headers: map<string, string>, body: Body)
      ensures this.methodName == methodName && this.path == path && this.headers == headers && this.body == body
    {
      this.methodName := methodName;
      this.path := path;
      this.headers := headers;
      this.body := body;
    }
  }

  class Http {
    const root: string

    constructor (root: string)
      ensures this.root == root
    {
      this.root := root;
    }

    /** `convertForXhr(request.headers, request.body)`: for an object (or null) sets the
        JSON content type on the request's headers and returns the JSON text; returns a
        string body unchanged, headers untouched. */
    method ConvertForXhr(request: HttpRequest) returns (payload: string)
      modifies request`headers
      ensures IsObject(request.body) ==> request.headers == old(request.headers)["Content-Type" := "application/json"]
      ensures !IsObject(request.body) ==> request.headers == old(request.headers)
      ensures payload == Payload(request.body)
    {
      if IsObject(request.body) {
        request.headers := request.headers["Content-Type" := "application/json"];
        payload := Payload(request.body);
      } else {
        payload := request.body.text;
      }
    }

    /** `sendRequest(request)`: prefixes the path with the root, converts the body, sends,
        and resolves with the response whatever its status. */
    method SendRequest<T>(request: HttpRequest, xhr: XhrResult<T>) returns (sent: XhrSent, r: Result<Response<T>, Response<T>>)
      modifies request
      ensures request.methodName == old(request.methodName) && request.body == old(request.body)
      ensures request.path == root + old(request.path)
      ensures request.headers == ConvertedHeaders(old(request.headers), request.body)
      ensures sent == XhrSent(request.methodName, request.path, request.headers, Payload(request.body))
      ensures r == Ok(Response(RequestView(request.methodName, request.path, request.headers, request.body),
                               xhr.status, ParseHeaders(xhr.rawHeaders), DataOf(xhr)))
    {
      request.path := root + request.path;
      var requestBody := ConvertForXhr(request);
      sent := XhrSent(request.methodName, request.path, request.headers, requestBody);
      var response := Response(RequestView(request.methodName, request.path, request.headers, request.body),
                               xhr.status, ParseHeaders(xhr.rawHeaders), DataOf(xhr));
      if StatusRejected(response.status) {
        r := Err(response);
      } else {
        r := Ok(response);
      }
    }

    /** `get(path)`: a GET with empty headers and a null body, which counts as an object,
        so the JSON content type is set and "null" is sent. */
    method Get<T>(path: string, xhr: XhrResult<T>) returns (sent: XhrSent, r: Result<Response<T>, Response<T>>)
      ensures sent == XhrSent("GET", root + path, map["Content-Type" := "application/json"], "null")
      ensures r.Ok? && r.value.status == xhr.status && r.value.headers == ParseHeaders(xhr.rawHeaders)
      ensures r.Ok? && r.value.data == DataOf(xhr)
    {
      var request := new HttpRequest("GET", path, map[], NullBody);
      sent, r := SendRequest(request, xhr);
    }

    /** `put(path, body)`: a PUT with empty headers and the given body. */
    method Put<T>(path: string, body: Body, xhr: XhrResult<T>) returns (sent: XhrSent, r: Result<Response<T>, Response<T>>)
      ensures sent == XhrSent("PUT", root + path, ConvertedHeaders(map[], body), Payload(body))
      ensures r.Ok? && r.value.status == xhr.status && r.value.headers == ParseHeaders(xhr.rawHeaders)
      ensures r.Ok? && r.value.data == DataOf(xhr)
    {
      var request := new HttpRequest("PUT", path, map[], body);
      sent, r := SendRequest(request, xhr);
    }

    /** `post(path, body)`: a POST with empty headers and the given body. */
    method Post<T>(path: string, body: Body, xhr: XhrResult<T>) returns (sent: XhrSent, r: Result<Response<T>, Response<T>>)
      ensures sent == XhrSent("POST", root + path, ConvertedHeaders(map[], body), Payload(body))
      ensures r.Ok? && r.value.status == xhr.status && r.value.headers == ParseHeaders(xhr.rawHeaders)
      ensures r.Ok? && r.value.data == DataOf(xhr)
    {
      var request := new HttpRequest("POST", path, map[], body);
      sent, r := SendRequest(request, xhr);
    }

    /** `delete(path)`: a DELETE with empty headers and a null body (sent as "null" JSON). */
    method Delete<T>(path: string, xhr: XhrResult<T>) returns (sent: XhrSent, r: Result<Response<T>, Response<T>>)
      ensures sent == XhrSent("DELETE", root + path, map["Content-Type" := "application/json"], "null")
      ensures r.Ok? && r.value.status == xhr.status && r.value.headers == ParseHeaders(xhr.rawHeaders)
      ensures r.Ok? && r.value.data == DataOf(xhr)
    {
      var request := new HttpRequest("DELETE", path, map[], NullBody);
      sent, r := SendRequest(request, xhr);
    }
  }
}
