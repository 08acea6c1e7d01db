/** The vocabulary shared by both invoice clients: the request a command
    method builds before any I/O (a URL and an ordered list of JSON fields),
    the `/billogram/{id}/command/{action}` URL template, and the way a
    method turns the outcome of its POST into a result or nothing. */
module Wire {

  datatype Option<+T> = None | Some(value: T)

  /** A C# `double` as its 64 raw bits. Amounts are carried into the payload
      unchanged; the model never interprets or renders them. */
  datatype Double = Double(bits: bv64)

  /** A value of one field of the anonymous object handed to the JSON serializer. */
  datatype FieldValue = Text(text: string) | Number(number: Double)

  datatype Field = Field(name: string, value: FieldValue)

  /** The fields of the JSON body, in declaration order. */
  type Payload = seq<Field>

  /** Everything a command method computes before it calls the transport. */
  datatype Request = Request(url: string, payload: Payload)

  /** What the POST produced: either the transport threw (connection failure,
      or reading the body failed), or an HTTP status and the body text. */
  datatype Exchange = TransportFailure | Answered(status: int, body: string)

  /** `HttpResponseMessage.IsSuccessStatusCode`: a status in 200..299.
      `EnsureSuccessStatusCode` throws exactly when this is false. */
  predicate IsSuccessStatus(status: int) {
    200 <= status <= 299
  }

  function FieldNames(p: Payload): seq<string> {
    seq(|p|, i requires 0 <= i < |p| => p[i].name)
  }

  predicate NoSlash(s: string) {
    forall i :: 0 <= i < |s| ==> s[i] != '/'
  }

  const BillogramSegment: string := "/billogram/"
  const CommandSegment: string := "/command/"

  /** The interpolated string `{base}/billogram/{id}/command/{action}`; the
      id is inserted verbatim, without any escaping: the URL starts with the
      base, carries the id unchanged after `/billogram/`, ends with the
      action and is longer than base, id and action
      together by exactly the two fixed segments. */
  function CommandUrl(baseUrl: string, id: string, action: string): (url: string)
    ensures |url| == |baseUrl| + |BillogramSegment| + |id| + |CommandSegment| + |action|
    ensures url[..|baseUrl|] == baseUrl
    ensures url[|baseUrl| + |BillogramSegment|..|baseUrl| + |BillogramSegment| + |id|] == id
    ensures url[|url| - |action|..] == action
  {
    baseUrl + BillogramSegment + id + CommandSegment + action
  }

  /** Splits `s` before its first '/', if any. */
  function SplitAtSlash(s: string): (r: (string, string))
    ensures r.0 + r.1 == s
    ensures NoSlash(r.0)
    ensures r.1 == [] || r.1[0] == '/'
  {
    if s == [] then ([], [])
    else if s[0] == '/' then ([], s)
    else
      var (head, tail) := SplitAtSlash(s[1..]);
      ([s[0]] + head, tail)
  }

  /** The route a server would read back out of a command URL: the resource
      id (up to the next '/') and the action after `/command/`. */
  function ParseCommandUrl(baseUrl: string, url: string): (r: Option<(string, string)>)
    ensures r.Some? ==> NoSlash(r.value.0) && url == CommandUrl(baseUrl, r.value.0, r.value.1)
  {
    var prefix := baseUrl + BillogramSegment;
    if |url| < |prefix| || url[..|prefix|] != prefix then None
    else
      var (id, tail) := SplitAtSlash(url[|prefix|..]);
      if |tail| < |CommandSegment| || tail[..|CommandSegment|] != CommandSegment then None
      else
        assert url == prefix + url[|prefix|..];
        assert tail == CommandSegment + tail[|CommandSegment|..];
        Some((id, tail[|CommandSegment|..]))
  }

  /** A string without '/' followed by nothing or by a '/' splits exactly there. */
  lemma {:induction false} SplitAtSlashUnique(head: string, tail: string)
    requires NoSlash(head)
    requires tail == [] || tail[0] == '/'
    ensures SplitAtSlash(head + tail) == (head, tail)
  {
    if head == [] {
      assert head + tail == tail;
    } else {
      var s := head + tail;
      assert s[0] == head[0] && s[0] != '/';
      assert s[1..] == head[1..] + tail;
      SplitAtSlashUnique(head[1..], tail);
      assert [head[0]] + head[1..] == head;
    }
  }

  /** A string ending in '/' followed by a string without '/' splits
      there and nowhere else. */
  lemma SplitAfterLastSlash(p1: string, a1: string, p2: string, a2: string)
    requires p1 + a1 == p2 + a2
    requires |p1| > 0 && p1[|p1| - 1] == '/' && |p2| > 0 && p2[|p2| - 1] == '/'
    requires NoSlash(a1) && NoSlash(a2)
    ensures p1 == p2 && a1 == a2
  {
    var u := p1 + a1;
    assert u[|p1| - 1] == '/' && u[|p2| - 1] == '/';
    assert forall k :: |p1| <= k < |u| ==> u[k] == a1[k - |p1|] != '/';
    assert forall k :: |p2| <= k < |u| ==> u[k] == a2[k - |p2|] != '/';
    if |p1| < |p2| {
      assert false;
    } else if |p2| < |p1| {
      assert false;
    }
    assert p1 == u[..|p1|] == p2;
    assert a1 == u[|p1|..] == a2;
  }

  /** The URL determines the id and the action whenever the action has no
      '/', whatever the id holds: the action is what follows the last '/'. */
  lemma UrlInjective(baseUrl: string, id1: string, action1: string, id2: string, action2: string)
    requires NoSlash(action1) && NoSlash(action2)
    requires CommandUrl(baseUrl, id1, action1) == CommandUrl(baseUrl, id2, action2)
    ensures id1 == id2 && action1 == action2
  {
    var head := baseUrl + BillogramSegment;
    var u1 := head + id1 + CommandSegment;
    var u2 := head + id2 + CommandSegment;
    SplitAfterLastSlash(u1, action1, u2, action2);
    assert id1 == u1[|head|..|head| + |id1|] == id2;
  }

  /** For an id without '/', the URL gives back the id and the action. */
  lemma UrlRoundTrip(baseUrl: string, id: string, action: string)
    requires NoSlash(id)
    ensures ParseCommandUrl(baseUrl, CommandUrl(baseUrl, id, action)) == Some((id, action))
  {
    var prefix := baseUrl + BillogramSegment;
    var url := CommandUrl(baseUrl, id, action);
    assert url == prefix + (id + (CommandSegment + action));
    assert url[..|prefix|] == prefix;
    assert url[|prefix|..] == id + (CommandSegment + action);
    SplitAtSlashUnique(id, CommandSegment + action);
    assert (CommandSegment + action)[..|CommandSegment|] == CommandSegment;
    assert (CommandSegment + action)[|CommandSegment|..] == action;
  }

  /** The id is not escaped, so an id holding a '/' no longer reads back as
      one resource: the route of `a/b` stops at `a`, and what follows is
      not a command segment. */
  lemma SlashInIdBreaksRoute(baseUrl: string, action: string)
    ensures ParseCommandUrl(baseUrl, CommandUrl(baseUrl, "a/b", action)) == None
  {
    var prefix := baseUrl + BillogramSegment;
    var url := CommandUrl(baseUrl, "a/b", action);
    var rest := "/b" + CommandSegment + action;
    assert url == prefix + ("a" + rest);
    assert url[|prefix|..] == "a" + rest;
    SplitAtSlashUnique("a", rest);
    assert rest[1] == 'b' != CommandSegment[1];
  }

  /** The body of every command method after the POST: a transport exception,
      or (when `checkStatus`) a non-success status, gives nothing; otherwise
      the body goes to the deserializer and its answer is returned whole. */
  function Dispatch<T>(checkStatus: bool, exchange: Exchange, parse: string -> Option<T>): (r: Option<T>)
    ensures r.Some? ==> exchange.Answered? && r == parse(exchange.body)
    ensures exchange.TransportFailure? ==> r == None
    ensures exchange.Answered? && checkStatus && !IsSuccessStatus(exchange.status) ==> r == None
    ensures exchange.Answered? && (!checkStatus || IsSuccessStatus(exchange.status)) ==> r == parse(exchange.body)
  {
    match exchange
    case TransportFailure => None
    case Answered(status, body) =>
      if checkStatus && !IsSuccessStatus(status) then None else parse(body)
  }
}
