/** BinanceBusException and the classification branch of https_response:
    the three message formats, the choice among returning the decoded body,
    raising a classified error or letting a Python error escape, and the
    stack capture of the exception constructor with its shared default
    trace list. */
module Errors {
  import opened PyModel

  /** What the transport delivered: a connection failure, or a response with
      its `ok` flag, its status code and its body as decoded JSON (None when
      the body is not valid JSON). */
  datatype Reply = ConnectionFailed | Response(ok: bool, status: int, body: Option<Json>)

  /** The decision https_response takes after the transport call. */
  datatype Verdict =
    | Body(json: Json)          // returned to the caller
    | Fail(message: string)     // raised as BinanceBusException(message)
    | Crash(error: PyError)     // a Python error escapes unclassified

  const ApiPrefix: string := "ERROR: <Binance API>: Code "
  const StatusPrefix: string := "ERROR: <HTTPS_P >: Code "
  const ConnectionMessage: string := "ERROR: <HTTP_T>: MSG Connection error"

  function ApiMessage(code: string, msg: string): string {
    ApiPrefix + code + " MSG " + msg
  }

  function StatusMessage(status: int): string {
    StatusPrefix + IntStr(status)
  }

  /** A non-ok body that passes the `'code' in js_error and 'msg' in
      js_error` test and can then be indexed by those keys: a JSON object
      holding both. */
  predicate Structured(j: Json) {
    j.JObject? && HasKey(j.members, "code") && HasKey(j.members, "msg")
  }

  /** The branch of https_response after the transport call. */
  function Classify(reply: Reply, repr: Json -> string): Verdict {
    match reply
    case ConnectionFailed => Fail(ConnectionMessage)
    case Response(ok, status, body) =>
      if body.None? then Crash(JsonDecodeError)
      else if ok then Body(body.value)
      else
        var j := body.value;
        var hasCode := JsonContains(j, "code");
        if hasCode.None? then Crash(TypeError)
        else if !hasCode.value then Fail(StatusMessage(status))
        else if !JsonContains(j, "msg").value then Fail(StatusMessage(status))
        else if !j.JObject? then Crash(TypeError)   // js_error['code'] on a list or a string
        else Fail(ApiMessage(JsonStr(Get(j.members, "code").value, repr),
                             JsonStr(Get(j.members, "msg").value, repr)))
  }

  // ---------------------------------------------------------------------
  // What each reply turns into

  /** A response the transport marks ok returns its decoded body unchanged;
      one whose body does not decode lets the decoder's error escape. */
  lemma ClassifyOk(status: int, body: Option<Json>, repr: Json -> string)
    ensures Classify(Response(true, status, body), repr) ==
      if body.Some? then Body(body.value) else Crash(JsonDecodeError)
  {
  }

  /** A non-ok response raises a classified error exactly when its body
      decodes and is neither a number, a boolean or null, nor a list or
      string that mentions both `code` and `msg`; it is the exchange's
      error message exactly when the body is an object with both keys. */
  lemma ClassifyNotOk(status: int, body: Option<Json>, repr: Json -> string)
    ensures var v := Classify(Response(false, status, body), repr);
      && (v.Fail? <==>
            body.Some? && (Structured(body.value) || (JsonContains(body.value, "code").Some? &&
              !(JsonContains(body.value, "code").value && JsonContains(body.value, "msg").value))))
      && (v.Fail? && Structured(body.value) ==>
            v.message == ApiMessage(JsonStr(Get(body.value.members, "code").value, repr),
                                    JsonStr(Get(body.value.members, "msg").value, repr)))
      && (v.Fail? && !Structured(body.value) ==> v.message == StatusMessage(status))
      && !v.Body?
  {
  }

  /** A classified error never escapes as anything but the connection
      message when the transport fails. */
  lemma ClassifyConnection(repr: Json -> string)
    ensures Classify(ConnectionFailed, repr) == Fail("ERROR: <HTTP_T>: MSG Connection error")
  {
  }

  // ---------------------------------------------------------------------
  // Reading a message back: the three formats cannot be confused, and the
  // status code of the unstructured failure is recoverable.

  datatype Category = ApiError | HttpStatus(status: int) | Transport | Unknown

  function CategoryOf(message: string): Category {
    if ApiPrefix <= message then ApiError
    else if StatusPrefix <= message then HttpStatus(ParseInt(message[|StatusPrefix|..]))
    else if message == ConnectionMessage then Transport
    else Unknown
  }

  lemma {:induction false} CategoryOfStatus(status: int)
    ensures CategoryOf(StatusMessage(status)) == HttpStatus(status)
  {
    var m := StatusMessage(status);
    assert m[..|StatusPrefix|] == StatusPrefix;
    assert m[|StatusPrefix|..] == IntStr(status);
    assert !(ApiPrefix <= m) by {
      assert m[8] != ApiPrefix[8];
    }
    IntStrRoundTrip(status);
  }

  /** The message of every classified error tells which of the three
      failures happened, and for an HTTP failure without the exchange's
      error body it carries the status code. */
  lemma ClassifiedCategory(reply: Reply, repr: Json -> string)
    requires Classify(reply, repr).Fail?
    ensures var c := CategoryOf(Classify(reply, repr).message);
      && (c == Transport <==> reply.ConnectionFailed?)
      && (c == ApiError <==> reply.Response? && Structured(reply.body.value))
      && (c.HttpStatus? <==> reply.Response? && !Structured(reply.body.value))
      && (c.HttpStatus? ==> c.status == reply.status)
  {
    var m := Classify(reply, repr).message;
    if reply.ConnectionFailed? {
      assert !(ApiPrefix <= m) by { assert m[8] != ApiPrefix[8]; }
      assert !(StatusPrefix <= m) by { assert m[12] != StatusPrefix[12]; }
    } else if Structured(reply.body.value) {
      assert m[..|ApiPrefix|] == ApiPrefix;
    } else {
      CategoryOfStatus(reply.status);
    }
  }

  /** HTTP 400 with the exchange's error object raises exactly this message. */
  lemma InvalidSymbolReply(repr: Json -> string)
    ensures Classify(Response(false, 400, Some(JObject([("code", JInt(-1121)), ("msg", JStr("Invalid symbol."))]))), repr)
      == Fail("ERROR: <Binance API>: Code -1121 MSG Invalid symbol.")
  {
    var j := JObject([("code", JInt(-1121)), ("msg", JStr("Invalid symbol."))]);
    assert Structured(j) by {
      assert j.members[0].0 == "code";
      assert j.members[1].0 == "msg";
    }
    assert Get(j.members, "code") == Some(JInt(-1121));
    assert Get(j.members, "msg") == Some(JStr("Invalid symbol."));
    ClassifyNotOk(400, Some(j), repr);
    var v := Classify(Response(false, 400, Some(j)), repr);
    assert v == Fail(ApiMessage(JsonStr(JInt(-1121), repr), JsonStr(JStr("Invalid symbol."), repr)));
    Digits1121();
    ApiMessageExample();
    assert JsonStr(JInt(-1121), repr) == "-1121";
    assert v == Fail(ApiMessage("-1121", "Invalid symbol."));
  }

  lemma ApiMessageExample()
    ensures ApiMessage("-1121", "Invalid symbol.") == "ERROR: <Binance API>: Code -1121 MSG Invalid symbol."
  {
    var a := ApiPrefix + "-1121";
    assert a == "ERROR: <Binance API>: Code -1121";
    var b := a + " MSG ";
    assert b == "ERROR: <Binance API>: Code -1121 MSG ";
  }

  lemma Digits1121()
    ensures IntStr(-1121) == "-1121"
  {
    assert NatDigits(1) == "1";
    assert NatDigits(11) == "11";
    assert NatDigits(112) == "112";
  }

  /** HTTP 500 whose body is a JSON object lacking `code` or `msg` raises
      the status message; an empty body is not JSON, so it escapes from the
      decoder instead. */
  lemma ServerErrorReply(members: seq<(string, Json)>, repr: Json -> string)
    requires !HasKey(members, "code") || !HasKey(members, "msg")
    ensures Classify(Response(false, 500, Some(JObject(members))), repr) == Fail("ERROR: <HTTPS_P >: Code 500")
    ensures Classify(Response(false, 500, None), repr) == Crash(JsonDecodeError)
  {
    ClassifyNotOk(500, Some(JObject(members)), repr);
    assert NatDigits(5) == "5";
    assert NatDigits(50) == "50";
    assert NatDigits(500) == "500";
  }

  /** A non-ok body that decodes to a number, a boolean or null is not
      classified: the `in` test raises TypeError, which escapes. */
  lemma ScalarErrorBody(status: int, j: Json, repr: Json -> string)
    requires j.JNull? || j.JBool? || j.JInt? || j.JReal?
    ensures Classify(Response(false, status, Some(j)), repr) == Crash(TypeError)
  {
    assert JsonContains(j, "code").None?;
  }

  // ---------------------------------------------------------------------
  // BinanceBusException

  /** One frame of `traceback.extract_stack()`. */
  datatype TraceNode = TraceNode(fileName: string, codeLine: int, funcName: string, text: string)

  /** A Python list of trace nodes; a reference, so that the default
      argument `trace = []` can be one list shared by every exception. */
  class TraceList {
    var items: seq<TraceNode>

    constructor ()
      ensures items == []
    {
      items := [];
    }
  }

  /** Every frame but the last (the constructor's own), in stack order. */
  function Captured(stack: seq<TraceNode>): seq<TraceNode> {
    if |stack| == 0 then [] else stack[..|stack| - 1]
  }

  /** The trace list's contents after the constructor ran on it. */
  function InitTrace(items: seq<TraceNode>, stack: seq<TraceNode>): seq<TraceNode> {
    if |items| == 0 then Captured(stack) else items
  }

  /** Once an exception has captured a stack of two or more frames into the
      shared default list, a later exception built on that list keeps the
      first trace and captures nothing. */
  lemma CapturedOnce(first: seq<TraceNode>, later: seq<TraceNode>)
    requires |first| >= 2
    ensures InitTrace(InitTrace([], first), later) == first[..|first| - 1]
  {
  }

  class BusException {
    const what: string
    const traceback: TraceList

    /** `BinanceBusException(msg, trace)`, with `stack` the frames
        `traceback.extract_stack()` would report. */
    constructor (msg: string, trace: TraceList, stack: seq<TraceNode>)
      modifies trace
      ensures what == msg && traceback == trace
      ensures trace.items == InitTrace(old(trace.items), stack)
    {
      what := msg;
      traceback := trace;
      new;
      if |trace.items| == 0 {
        var n := if |stack| == 0 then 0 else |stack| - 1;
        var i := 0;
        while i < n
          invariant 0 <= i <= n
          invariant trace.items == stack[..i]
        {
          trace.items := trace.items + [stack[i]];
          i := i + 1;
        }
      }
    }
  }
}
