/** The NUL-separated frames between the HTTP parser and the HTTP transport, and the device id that travels in
  the URL of a request and is read back from the URL of its response.  Bytes are modelled as characters. */
module HttpFraming {
  import opened Basics
  import opened Decimal

  const NUL := '\0'
  const POCO_ERROR := 599

  datatype Route = Route(method_: string, url: string)

  datatype Request = Request(kind: string, resourceId: string, payload: string)

  datatype Task = Task(method_: string, uri: string, body: string, resourceId: string)

  /** `status` is absent when the parser never set it. */
  datatype Response = Response(source: string, status: Option<int>, url: string, resourceId: string, payload: string)

  // ------------------------------------------------------------- text search

  function Find(s: string, pattern: string): Option<nat> {
    if |s| < |pattern| then None
    else if s[..|pattern|] == pattern then Some(0)
    else if s == "" then None
    else
      var r := Find(s[1..], pattern);
      if r.None? then None else Some(r.value + 1)
  }

  function ReplaceIdInUrl(url: string, placeholder: string, id: string): string
  {
    var pos := Find(url, placeholder);
    if pos.None? || pos.value + |placeholder| > |url| then url
    else url[..pos.value] + id + url[pos.value + |placeholder|..]
  }

  function GetIdFromUrl(url: string, marker: string): string {
    var pos := Find(url, marker);
    if pos.None? || pos.value + |marker| > |url| then ""
    else
      var rest := url[pos.value + |marker|..];
      rest[..IndexOf(rest, '/')]
  }

  predicate OccursAt(s: string, pattern: string, j: nat) {
    j + |pattern| <= |s| && s[j..j + |pattern|] == pattern
  }

  lemma {:induction false} FindAt(s: string, pattern: string, k: nat)
    requires pattern != "" && OccursAt(s, pattern, k)
    requires forall j: nat :: j < k ==> !OccursAt(s, pattern, j)
    ensures Find(s, pattern) == Some(k)
  {
    if k == 0 {
      assert s[..|pattern|] == s[0..0 + |pattern|];
    } else {
      assert !OccursAt(s, pattern, 0);
      assert s[0..0 + |pattern|] == s[..|pattern|];
      forall j: nat | j + |pattern| <= |s[1..]| ensures OccursAt(s[1..], pattern, j) == OccursAt(s, pattern, j + 1) {
        assert s[1..][j..j + |pattern|] == s[j + 1..j + 1 + |pattern|];
      }
      assert OccursAt(s[1..], pattern, k - 1);
      FindAt(s[1..], pattern, k - 1);
    }
  }

  lemma {:induction false} FindNone(s: string, pattern: string)
    requires pattern != "" && forall j: nat :: !OccursAt(s, pattern, j)
    ensures Find(s, pattern) == None
  {
    if |s| >= |pattern| {
      assert !OccursAt(s, pattern, 0);
      assert s[0..0 + |pattern|] == s[..|pattern|];
      forall j: nat | j + |pattern| <= |s[1..]| ensures !OccursAt(s[1..], pattern, j) {
        assert !OccursAt(s, pattern, j + 1);
        assert s[1..][j..j + |pattern|] == s[j + 1..j + 1 + |pattern|];
      }
      FindNone(s[1..], pattern);
    }
  }

  /** `to` is `from` with the first placeholder, if there is one, replaced by the id. */
  ghost predicate Substituted(from: string, placeholder: string, id: string, to: string) {
    if forall j: nat :: !OccursAt(from, placeholder, j) then to == from
    else exists before, after :: FirstPlaceholder(from, before, placeholder, after) && to == before + id + after
  }

  ghost predicate FirstPlaceholder(from: string, before: string, placeholder: string, after: string) {
    from == before + placeholder + after && forall j: nat :: j < |before| ==> !OccursAt(from, placeholder, j)
  }

  lemma {:induction false} FirstOccurrence(s: string, pattern: string, j: nat) returns (k: nat)
    requires OccursAt(s, pattern, j)
    ensures OccursAt(s, pattern, k) && forall i: nat :: i < k ==> !OccursAt(s, pattern, i)
    decreases j
  {
    if i: nat :| i < j && OccursAt(s, pattern, i) {
      k := FirstOccurrence(s, pattern, i);
    } else {
      k := j;
    }
  }

  /** The id takes the place of the first placeholder in the URL, and of no other. */
  lemma ReplacesFirst(url: string, placeholder: string, id: string)
    requires placeholder != ""
    ensures Substituted(url, placeholder, id, ReplaceIdInUrl(url, placeholder, id))
  {
    hide Find;
    if j: nat :| OccursAt(url, placeholder, j) {
      var k := FirstOccurrence(url, placeholder, j);
      FindAt(url, placeholder, k);
      var before, after := url[..k], url[k + |placeholder|..];
      assert url == before + placeholder + after;
      assert FirstPlaceholder(url, before, placeholder, after);
    } else {
      FindNone(url, placeholder);
    }
  }

  // --------------------------------------------------------- request framing

  predicate NulFree(s: string) {
    NUL !in s
  }

  function Join(a: string, b: string, c: string, body: string): string {
    a + [NUL] + (b + [NUL] + (c + [NUL] + body))
  }

  datatype Cut = NoCut | Cut(head: string, tail: string)

  function CutAtNul(s: string): Cut {
    var i := IndexOf(s, NUL);
    if i == |s| then NoCut else Cut(s[..i], s[i + 1..])
  }

  /** The first `c` is where it is said to be. */
  lemma FirstIs(s: string, c: char, k: nat)
    requires k <= |s| && (k < |s| ==> s[k] == c)
    requires forall j :: 0 <= j < k ==> s[j] != c
    ensures IndexOf(s, c) == k
  {
  }

  lemma CutJoined(a: string, b: string)
    ensures var cut := CutAtNul(a + [NUL] + b);
            cut.Cut? && (cut.head == a <==> NulFree(a)) && (NulFree(a) ==> cut.tail == b)
  {
    var s := a + [NUL] + b;
    assert s[|a|] == NUL;
    if NulFree(a) {
      forall j | 0 <= j < |a| ensures s[j] != NUL {
        assert s[j] == a[j] && a[j] in a;
      }
      FirstIs(s, NUL, |a|);
      assert s[..|a|] == a && s[|a| + 1..] == b;
    } else {
      var j :| 0 <= j < |a| && a[j] == NUL;
      assert s[j] == NUL;
    }
  }

  function Serialize(routes: map<string, Route>, m: Request): string {
    if m.kind !in routes then ""
    else
      var r := routes[m.kind];
      var url := if m.resourceId == "" then r.url else ReplaceIdInUrl(r.url, "ID", m.resourceId);
      Join(r.method_, url, m.resourceId, if r.method_ != "GET" then m.payload else "")
  }

  function SplitRequest(data: string): Option<Task> {
    var a := CutAtNul(data);
    if a.NoCut? then None
    else
      var b := CutAtNul(a.tail);
      if b.NoCut? then None
      else
        var c := CutAtNul(b.tail);
        if c.NoCut? then None else Some(Task(a.head, b.head, c.tail, c.head))
  }

  /** The transport recovers method, URL, resource id and body exactly when the first three hold no NUL. */
  lemma SplitInvertsJoinIff(method_: string, url: string, id: string, body: string)
    ensures SplitRequest(Join(method_, url, id, body)) == Some(Task(method_, url, body, id)) <==>
            NulFree(method_) && NulFree(url) && NulFree(id)
  {
    var c := id + [NUL] + body;
    var b := url + [NUL] + c;
    CutJoined(method_, b);
    CutJoined(url, c);
    CutJoined(id, body);
  }

  class HttpParser {
    var routes: map<string, Route>

    constructor ()
      ensures routes == map[]
    {
      routes := map[];
    }

    method AddRoute(kind: string, method_: string, url: string)
      modifies this
      ensures routes == old(routes)[kind := Route(method_, url)]
    {
      routes := routes[kind := Route(method_, url)];
    }

    method SerializeMessage(m: Request) returns (raw: string)
      ensures raw == Serialize(routes, m)
    {
      raw := "";
      if m.kind !in routes {
        return;
      }
      var route := routes[m.kind];
      var url := route.url;
      if m.resourceId != "" {
        url := ReplaceIdInUrl(url, "ID", m.resourceId);
      }
      raw := route.method_;
      raw := raw + [NUL];
      raw := raw + url;
      raw := raw + [NUL];
      raw := raw + m.resourceId;
      raw := raw + [NUL];
      JoinLeft(route.method_, url, m.resourceId, "");
      JoinLeft(route.method_, url, m.resourceId, m.payload);
      if m.payload != "" && route.method_ != "GET" {
        raw := raw + m.payload;
      }
    }

    method ParseResponse(input: string, source: string) returns (messages: seq<Response>)
      ensures messages == Parse(source, input)
    {
      messages := [];
      if input == "" {
        return;
      }
      var status: Option<int>, url, resourceId, payload := None, "", "", "";
      var afterStatus := CutAtNul(input);
      if afterStatus.Cut? {
        var parsed := ParseInt(afterStatus.head);
        if parsed.Failed? {
          return;
        }
        status := Some(parsed.value);
        var afterUrl := CutAtNul(afterStatus.tail);
        if afterUrl.Cut? {
          url := afterUrl.head;
          var afterId := CutAtNul(afterUrl.tail);
          if afterId.Cut? {
            resourceId := afterId.head;
            payload := afterId.tail;
          } else {
            payload := afterUrl.tail;
          }
        }
      }
      messages := [Response(source, status, url, resourceId, payload)];
    }
  }

  /** The transport's request queue, served in order by its worker. */
  class HttpTransport {
    var running: bool
    var queue: seq<Task>

    constructor ()
      ensures !running && queue == []
    {
      running, queue := false, [];
    }

    method Send(data: string)
      modifies this
      ensures running == old(running)
      ensures queue == old(queue) + if running && SplitRequest(data).Some? then [SplitRequest(data).value] else []
    {
      if !running || data == "" {
        return;
      }
      var afterMethod := CutAtNul(data);
      if afterMethod.NoCut? {
        return;
      }
      var afterUri := CutAtNul(afterMethod.tail);
      if afterUri.NoCut? {
        return;
      }
      var afterId := CutAtNul(afterUri.tail);
      if afterId.NoCut? {
        return;
      }
      queue := queue + [Task(afterMethod.head, afterUri.head, afterId.tail, afterId.head)];
    }

    /** One turn of the worker: the response frame for the oldest task, whatever the server answers. */
    method Work(answer: Answer) returns (frame: string)
      requires queue != []
      modifies this
      ensures running == old(running) && queue == old(queue)[1..]
      ensures frame == ResponseFrame(old(queue)[0], answer)
    {
      var task := queue[0];
      queue := queue[1..];
      if answer.Answered? {
        frame := BuildFrame(answer.status, task, answer.body);
      } else {
        frame := BuildFrame(POCO_ERROR, task, "{\"error\": \"" + answer.text + "\"}");
      }
    }

    method BuildFrame(status: nat, task: Task, body: string) returns (frame: string)
      ensures frame == Join(ToString(status), task.uri, task.resourceId, body)
    {
      var statusText := ToString(status);
      frame := statusText;
      frame := frame + [NUL];
      frame := frame + task.uri;
      frame := frame + [NUL];
      frame := frame + task.resourceId;
      frame := frame + [NUL];
      frame := frame + body;
      JoinLeft(statusText, task.uri, task.resourceId, body);
    }
  }

  lemma JoinLeft(a: string, b: string, c: string, body: string)
    ensures a + [NUL] + b + [NUL] + c + [NUL] + body == Join(a, b, c, body)
  {
  }

  /** The text of a request, as the parser frames it and the transport takes it apart, is the route's: its method, its
      URL with the id in place, and the payload as the body except with GET.  Requests without a route are not
      framed. */
  lemma RequestArrives(routes: map<string, Route>, m: Request)
    requires m.kind in routes ==>
               NulFree(routes[m.kind].method_) && NulFree(routes[m.kind].url) && NulFree(m.resourceId)
    ensures m.kind !in routes ==> Serialize(routes, m) == "" && SplitRequest(Serialize(routes, m)) == None
    ensures m.kind in routes ==>
              var task := SplitRequest(Serialize(routes, m));
              && task.Some? && task.value.method_ == routes[m.kind].method_
              && task.value.resourceId == m.resourceId
              && task.value.body == (if routes[m.kind].method_ == "GET" then "" else m.payload)
              && (if m.resourceId == "" then task.value.uri == routes[m.kind].url
                  else Substituted(routes[m.kind].url, "ID", m.resourceId, task.value.uri))
  {
    hide Substituted, ReplaceIdInUrl;
    if m.kind in routes {
      var r := routes[m.kind];
      var url := if m.resourceId == "" then r.url else ReplaceIdInUrl(r.url, "ID", m.resourceId);
      ReplacesFirst(r.url, "ID", m.resourceId);
      ReplacedIsNulFree(r.url, m.resourceId);
      SplitInvertsJoinIff(r.method_, url, m.resourceId, if r.method_ != "GET" then m.payload else "");
    }
  }

  /** Frames with fewer than three marks hold no request. */
  lemma ShortRequestsAreDropped(a: string, b: string, c: string)
    requires NulFree(a) && NulFree(b) && NulFree(c)
    ensures SplitRequest(a) == None && SplitRequest(a + [NUL] + b) == None
    ensures SplitRequest(a + [NUL] + (b + [NUL] + c)) == None
  {
    NoNulNoCut(a);
    NoNulNoCut(b);
    NoNulNoCut(c);
    CutJoined(a, b);
    CutJoined(a, b + [NUL] + c);
    CutJoined(b, c);
  }

  lemma ReplacedIsNulFree(url: string, id: string)
    requires NulFree(url) && NulFree(id)
    ensures NulFree(ReplaceIdInUrl(url, "ID", id))
  {
  }

  // -------------------------------------------------------- response framing

  /** What the server or the network answers to a request. */
  datatype Answer = Answered(status: nat, body: string) | NetworkError(text: string)

  function AnswerStatus(a: Answer): nat {
    if a.Answered? then a.status else POCO_ERROR
  }

  function AnswerBody(a: Answer): string {
    if a.Answered? then a.body else "{\"error\": \"" + a.text + "\"}"
  }

  function ResponseFrame(task: Task, a: Answer): string {
    Join(ToString(AnswerStatus(a)), task.uri, task.resourceId, AnswerBody(a))
  }

  /** `std::stoi`. */
  function ParseInt(s: string): Parsed {
    var p := ParseLong(s);
    if p.Parsed? && -0x8000_0000 <= p.value < 0x8000_0000 then p else Failed
  }

  function Parse(source: string, data: string): seq<Response> {
    if data == "" then []
    else
      var a := CutAtNul(data);
      if a.NoCut? then [Response(source, None, "", "", "")]
      else
        var status := ParseInt(a.head);
        if status.Failed? then []
        else
          var b := CutAtNul(a.tail);
          if b.NoCut? then [Response(source, Some(status.value), "", "", "")]
          else
            var c := CutAtNul(b.tail);
            if c.NoCut? then [Response(source, Some(status.value), b.head, "", b.tail)]
            else [Response(source, Some(status.value), b.head, c.head, c.tail)]
  }

  lemma DigitsHaveNoNul(s: string)
    requires Digits(s)
    ensures NulFree(s)
  {
    assert forall i :: 0 <= i < |s| ==> IsDigit(s[i]);
  }

  /** A response frame parses back to its status, URL, id and body exactly when URL and id hold no NUL. */
  lemma ParseInvertsFrameIff(source: string, task: Task, a: Answer)
    requires AnswerStatus(a) < 0x8000_0000
    ensures Parse(source, ResponseFrame(task, a)) ==
            [Response(source, Some(AnswerStatus(a)), task.uri, task.resourceId, AnswerBody(a))] <==>
            NulFree(task.uri) && NulFree(task.resourceId)
  {
    var status := ToString(AnswerStatus(a));
    ToStringIsCanonical(AnswerStatus(a));
    ParseDigits(status);
    DigitsHaveNoNul(status);
    var c := task.resourceId + [NUL] + AnswerBody(a);
    var b := task.uri + [NUL] + c;
    CutJoined(status, b);
    CutJoined(task.uri, c);
    CutJoined(task.resourceId, AnswerBody(a));
  }

  /** Frames without all three marks: without any, nothing is known; with one, only the status; with two, the rest is
      the body; and a status that is no number is no message at all. */
  lemma ShortFramesParse(source: string, status: nat, url: string, body: string, word: string)
    requires status < 0x8000_0000 && NulFree(url) && NulFree(body) && NulFree(word)
    ensures word != "" ==> Parse(source, word) == [Response(source, None, "", "", "")]
    ensures Parse(source, ToString(status) + [NUL] + url) == [Response(source, Some(status), "", "", "")]
    ensures Parse(source, ToString(status) + [NUL] + (url + [NUL] + body)) ==
            [Response(source, Some(status), url, "", body)]
    ensures ParseInt(word).Failed? ==> Parse(source, word + [NUL] + body) == []
    ensures Parse(source, "") == []
  {
    ToStringIsCanonical(status);
    ParseDigits(ToString(status));
    DigitsHaveNoNul(ToString(status));
    CutJoined(ToString(status), url);
    CutJoined(ToString(status), url + [NUL] + body);
    CutJoined(url, body);
    CutJoined(word, body);
    NoNulNoCut(url);
    NoNulNoCut(body);
    NoNulNoCut(word);
  }

  lemma NoNulNoCut(s: string)
    requires NulFree(s)
    ensures CutAtNul(s) == NoCut
  {
    FirstIs(s, NUL, |s|);
  }

  // ------------------------------------------------------ the id in the URL

  const DEVICES := "/api/v3/devices/"
  const MARKER := "/devices/"

  lemma PlaceholderPosition(suffix: string)
    ensures Find(DEVICES + "ID" + suffix, "ID") == Some(|DEVICES|)
  {
    var s := DEVICES + "ID" + suffix;
    assert s[|DEVICES|..|DEVICES| + 2] == "ID";
    forall j: nat | j < |DEVICES| ensures !OccursAt(s, "ID", j) {
      assert s[j..j + 2][0] == s[j] == DEVICES[j] && DEVICES[j] != 'I';
      assert "ID"[0] == 'I';
    }
    FindAt(s, "ID", |DEVICES|);
  }

  lemma MarkerPosition(rest: string)
    ensures Find(DEVICES + rest, MARKER) == Some(7)
  {
    var s := DEVICES + rest;
    assert s[7..7 + |MARKER|] == MARKER;
    assert DEVICES[1] == 'a' && DEVICES[2] == 'p' && DEVICES[3] == 'i' && DEVICES[4] == '/';
    assert DEVICES[5] == 'v' && DEVICES[6] == '3' && DEVICES[7] == '/';
    forall j: nat | j < 7 ensures !OccursAt(s, MARKER, j) {
      assert s[j + 1] == DEVICES[j + 1];
      assert s[j..j + |MARKER|][1] == s[j + 1] && MARKER[1] == 'd';
    }
    FindAt(s, MARKER, 7);
  }

  function DeviceUrl(id: string, suffix: string): string {
    ReplaceIdInUrl(DEVICES + "ID" + suffix, "ID", id)
  }

  /** The id put into a device URL is the id read back from it exactly when it holds no slash. */
  lemma DeviceIdReadBackIff(id: string, suffix: string)
    requires suffix == "" || suffix[0] == '/'
    ensures DeviceUrl(id, suffix) == DEVICES + id + suffix
    ensures GetIdFromUrl(DeviceUrl(id, suffix), MARKER) == id <==> '/' !in id
  {
    PlaceholderPosition(suffix);
    var s := DEVICES + "ID" + suffix;
    assert s[..|DEVICES|] == DEVICES && s[|DEVICES| + 2..] == suffix;
    var rest := id + suffix;
    assert DEVICES + id + suffix == DEVICES + rest;
    MarkerPosition(rest);
    assert (DEVICES + rest)[7 + |MARKER|..] == rest;
    if '/' in id {
      var j :| 0 <= j < |id| && id[j] == '/';
      assert rest[j] == '/';
    } else {
      forall j | 0 <= j < |id| ensures rest[j] != '/' {
        assert rest[j] == id[j] && id[j] in id;
      }
      FirstIs(rest, '/', |id|);
      assert rest[..|id|] == id;
    }
  }

  /** The routes of the fuel controller that concern one device. */
  function DeviceRoutes(): map<string, Route> {
    map["get_io_parameters" := Route("GET", DEVICES + "ID" + "/parameters"),
        "get_dispenser_status" := Route("GET", DEVICES + "ID" + "/status"),
        "create_order" := Route("POST", DEVICES + "ID" + "/order"),
        "set_command" := Route("POST", DEVICES + "ID" + "/command")]
  }

  /** What follows the device's id in the URL of a request about it. */
  function DevicePath(kind: string): string
    requires kind in DeviceRoutes()
  {
    if kind == "get_io_parameters" then "/parameters"
    else if kind == "get_dispenser_status" then "/status"
    else if kind == "create_order" then "/order" else "/command"
  }

  lemma DeviceTask(m: Request)
    requires m.kind in DeviceRoutes() && m.resourceId != "" && NulFree(m.resourceId)
    ensures var url := "/api/v3/devices/" + m.resourceId + DevicePath(m.kind);
            var body := if m.kind == "create_order" || m.kind == "set_command" then m.payload else "";
            NulFree(url) &&
            SplitRequest(Serialize(DeviceRoutes(), m)) ==
            Some(Task(DeviceRoutes()[m.kind].method_, url, body, m.resourceId))
  {
    hide SplitRequest, Find, GetIdFromUrl, IndexOf, Join, ReplaceIdInUrl;
    var r := DeviceRoutes()[m.kind];
    var suffix := SuffixOf(m.kind);
    DeviceIdReadBackIff(m.resourceId, suffix);
    var url, body := DeviceUrl(m.resourceId, suffix), if r.method_ != "GET" then m.payload else "";
    assert NulFree(url);
    SplitInvertsJoinIff(r.method_, url, m.resourceId, body);
  }

  /** A request about a device, framed, split, performed and answered in any way, comes back as one message that
      names the device both in its resource id and in its URL; only orders and commands carry a body. */
  lemma DeviceRoundTrip(source: string, m: Request, a: Answer)
    requires m.kind in DeviceRoutes() && m.resourceId != "" && '/' !in m.resourceId && NulFree(m.resourceId)
    requires AnswerStatus(a) < 0x8000_0000
    ensures var task := SplitRequest(Serialize(DeviceRoutes(), m));
            && task.Some? && task.value.resourceId == m.resourceId
            && task.value.method_ == DeviceRoutes()[m.kind].method_
            && task.value.uri == "/api/v3/devices/" + m.resourceId + DevicePath(m.kind)
            && task.value.body == (if m.kind == "create_order" || m.kind == "set_command" then m.payload else "")
            && var messages := Parse(source, ResponseFrame(task.value, a));
               |messages| == 1 && messages[0].resourceId == m.resourceId &&
               GetIdFromUrl(messages[0].url, MARKER) == m.resourceId &&
               messages[0].status == Some(if a.Answered? then a.status else 599) &&
               messages[0].payload == if a.Answered? then a.body else "{\"error\": \"" + a.text + "\"}"
  {
    hide SplitRequest, Serialize, Parse, ResponseFrame, Find, GetIdFromUrl, IndexOf, DevicePath, ReplaceIdInUrl;
    DeviceTask(m);
    var task := SplitRequest(Serialize(DeviceRoutes(), m)).value;
    var suffix := SuffixOf(m.kind);
    DeviceIdReadBackIff(m.resourceId, suffix);
    ParseInvertsFrameIff(source, task, a);
  }

  lemma SuffixOf(kind: string) returns (suffix: string)
    requires kind in DeviceRoutes()
    ensures suffix == DevicePath(kind) && suffix != "" && suffix[0] == '/' && NulFree(suffix)
    ensures NulFree(DeviceRoutes()[kind].method_)
    ensures DeviceRoutes()[kind].url == DEVICES + "ID" + suffix
  {
    suffix := DevicePath(kind);
  }
}
