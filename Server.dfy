/** The server side of a review session: the module-level result slot and
    completion flag that `do_POST` writes, the session start that resets them,
    the choice of what a session returns once the wait is over, the two fast
    failures, the scratch directory's cleanup, and the `call_tool` dispatch.
    The HTTP server, threads and the clock are replaced by the sequence of
    requests the handler serves and by the point at which the wait returns. */
module Server {
  import opened Wrappers
  import opened Text
  import opened Json
  import opened Segmenter
  import MarkdownParser
  import CommentPage
  import ReviewPage

  /** A POST body as `json.loads(post_data.decode('utf-8'))` sees it: a value, or
      the message of the exception it raises. */
  datatype Body = Parsed(value: Json) | Malformed(reason: string)

  /** One POST request: its path and its body. */
  datatype Request = Request(path: string, body: Body)

  /** The status code and, when one is written, the JSON body of a response. */
  datatype Response = Response(status: int, body: Option<Json>)

  /** `_result` and `_result_event`: `JNull` stands for `None`, which is also
      what `json.loads` makes of the body `null`. */
  datatype Slot = Slot(result: Json, signalled: bool)

  /** The state right after a session start. */
  const Fresh := Slot(JNull, false)

  const SubmitPath := "/submit"

  /** `{"status": "ok"}` */
  function OkBody(): Json {
    JObject([("status", JStr("ok"))])
  }

  /** `{"error": str(e)}` */
  function ErrorBody(reason: string): Json {
    JObject([("error", JStr(reason))])
  }

  /** A request that `do_POST` accepts: the submit path with a parseable body. */
  predicate IsSubmit(req: Request) {
    req.path == SubmitPath && req.body.Parsed?
  }

  /** `do_POST`: on `/submit` a parseable body replaces the slot and sets the
      flag, answered 200 `{"status": "ok"}`; a malformed body is answered 500
      with the error and changes nothing, because the assignment comes after
      the parse; any other path is answered 404 and changes nothing. */
  function Post(s: Slot, req: Request): (r: (Slot, Response))
    ensures IsSubmit(req) ==> r == (Slot(req.body.value, true), Response(200, Some(OkBody())))
    ensures req.path == SubmitPath && req.body.Malformed? ==> r == (s, Response(500, Some(ErrorBody(req.body.reason))))
    ensures req.path != SubmitPath ==> r == (s, Response(404, None))
  {
    if req.path == SubmitPath then
      match req.body
      case Parsed(v) => (Slot(v, true), Response(200, Some(OkBody())))
      case Malformed(e) => (s, Response(500, Some(ErrorBody(e))))
    else
      (s, Response(404, None))
  }

  /** The slot after the handler has served `reqs` in order. */
  function SlotAfter(s: Slot, reqs: seq<Request>): Slot
    decreases |reqs|
  {
    if reqs == [] then s else Post(SlotAfter(s, reqs[..|reqs| - 1]), reqs[|reqs| - 1]).0
  }

  /** The flag is set after a run of requests exactly when it was set before or
      one of them was accepted. */
  lemma {:induction false} SignalledAfter(s: Slot, reqs: seq<Request>)
    ensures SlotAfter(s, reqs).signalled <==> s.signalled || exists i :: 0 <= i < |reqs| && IsSubmit(reqs[i])
    decreases |reqs|
  {
    if reqs != [] {
      var n := |reqs| - 1;
      SignalledAfter(s, reqs[..n]);
      if exists i :: 0 <= i < n && IsSubmit(reqs[..n][i]) {
        var i :| 0 <= i < n && IsSubmit(reqs[..n][i]);
        assert reqs[i] == reqs[..n][i];
      }
      if exists i :: 0 <= i < |reqs| && IsSubmit(reqs[i]) {
        var i :| 0 <= i < |reqs| && IsSubmit(reqs[i]);
        if i < n {
          assert reqs[..n][i] == reqs[i];
        }
      }
    }
  }

  /** Requests none of which is accepted leave the slot as it was. */
  lemma {:induction false} NoSubmitKeepsSlot(s: Slot, reqs: seq<Request>)
    requires forall i :: 0 <= i < |reqs| ==> !IsSubmit(reqs[i])
    ensures SlotAfter(s, reqs) == s
    decreases |reqs|
  {
    if reqs != [] {
      var n := |reqs| - 1;
      assert forall i :: 0 <= i < n ==> reqs[..n][i] == reqs[i];
      NoSubmitKeepsSlot(s, reqs[..n]);
    }
  }

  /** Every accepted POST overwrites the slot: once one is accepted, the slot
      holds the body of the last accepted one. */
  lemma {:induction false} LastSubmitWins(s: Slot, reqs: seq<Request>)
    requires exists i :: 0 <= i < |reqs| && IsSubmit(reqs[i])
    ensures exists i :: && 0 <= i < |reqs| && IsSubmit(reqs[i])
                        && SlotAfter(s, reqs).result == reqs[i].body.value
                        && forall j :: i < j < |reqs| ==> !IsSubmit(reqs[j])
    decreases |reqs|
  {
    var n := |reqs| - 1;
    if IsSubmit(reqs[n]) {
      assert SlotAfter(s, reqs).result == reqs[n].body.value;
    } else {
      var k :| 0 <= k < |reqs| && IsSubmit(reqs[k]);
      assert k < n && reqs[..n][k] == reqs[k];
      LastSubmitWins(s, reqs[..n]);
      var i :| && 0 <= i < n && IsSubmit(reqs[..n][i])
               && SlotAfter(s, reqs[..n]).result == reqs[..n][i].body.value
               && forall j :: i < j < n ==> !IsSubmit(reqs[..n][j]);
      assert reqs[i] == reqs[..n][i];
      forall j | i < j < |reqs| ensures !IsSubmit(reqs[j]) {
        if j < n {
          assert reqs[j] == reqs[..n][j];
        }
      }
    }
  }

  /** What a finished wait returns: a timeout when the flag was not set in
      time, an error when the slot holds `None`, and otherwise the slot itself,
      whatever its status says. */
  function SelectOutcome(received: bool, result: Json, timeoutMessage: string): (r: Json)
    ensures !received ==> Get(r, "status") == Some(JStr("timeout")) && Get(r, "message") == Some(JStr(timeoutMessage))
    ensures received && result == JNull ==>
      Get(r, "status") == Some(JStr("error")) && Get(r, "message") == Some(JStr("No result received"))
    ensures received && result != JNull ==> r == result
    ensures !received || result == JNull ==> r.JObject? && |r.members| == 2
  {
    if !received then
      GetObject2("status", JStr("timeout"), "message", JStr(timeoutMessage));
      Object2("status", JStr("timeout"), "message", JStr(timeoutMessage))
    else if result == JNull then
      GetObject2("status", JStr("error"), "message", JStr("No result received"));
      Object2("status", JStr("error"), "message", JStr("No result received"))
    else result
  }

  /** The outcome of a session that started fresh, whose wait returned after
      the handler served `beforeWake`, and whose server was shut down after it
      also served `afterWake`. */
  function Outcome(beforeWake: seq<Request>, afterWake: seq<Request>, timeoutMessage: string): Json {
    SelectOutcome(SlotAfter(Fresh, beforeWake).signalled, SlotAfter(Fresh, beforeWake + afterWake).result, timeoutMessage)
  }

  /** A session in which no POST was accepted before the wait ended times out. */
  lemma TimesOutWithoutSubmit(beforeWake: seq<Request>, afterWake: seq<Request>, timeoutMessage: string)
    requires forall i :: 0 <= i < |beforeWake| ==> !IsSubmit(beforeWake[i])
    ensures Get(Outcome(beforeWake, afterWake, timeoutMessage), "status") == Some(JStr("timeout"))
  {
    NoSubmitKeepsSlot(Fresh, beforeWake);
  }

  /** Once a POST was accepted before the wait ended, the session returns the
      last accepted body, unless that body was `null`, which reads as no result. */
  lemma ReturnsLastSubmit(beforeWake: seq<Request>, afterWake: seq<Request>, timeoutMessage: string)
    requires exists i :: 0 <= i < |beforeWake| && IsSubmit(beforeWake[i])
    ensures var reqs := beforeWake + afterWake;
      exists i :: && 0 <= i < |reqs| && IsSubmit(reqs[i])
                  && (forall j :: i < j < |reqs| ==> !IsSubmit(reqs[j]))
                  && (reqs[i].body.value != JNull ==> Outcome(beforeWake, afterWake, timeoutMessage) == reqs[i].body.value)
                  && (reqs[i].body.value == JNull ==>
                        Get(Outcome(beforeWake, afterWake, timeoutMessage), "message") == Some(JStr("No result received")))
  {
    var reqs := beforeWake + afterWake;
    SignalledAfter(Fresh, beforeWake);
    var k :| 0 <= k < |beforeWake| && IsSubmit(beforeWake[k]);
    assert reqs[k] == beforeWake[k];
    LastSubmitWins(Fresh, reqs);
  }

  /** A session whose only accepted POST is `body` returns `body`, or the
      no-result error for `null`. */
  lemma SingleSubmit(body: Json, afterWake: seq<Request>, timeoutMessage: string)
    requires forall i :: 0 <= i < |afterWake| ==> !IsSubmit(afterWake[i])
    ensures var o := Outcome([Request(SubmitPath, Parsed(body))], afterWake, timeoutMessage);
      && (body != JNull ==> o == body)
      && (body == JNull ==> Get(o, "status") == Some(JStr("error")))
  {
    var before := [Request(SubmitPath, Parsed(body))];
    assert before[..0] == [];
    assert SlotAfter(Fresh, before) == Slot(body, true);
    NoSubmitKeepsSlot(Slot(body, true), afterWake);
    SlotAfterAppend(Fresh, before, afterWake);
  }

  /** The responses to `reqs`, in order: each is `do_POST`'s answer in the
      state the earlier requests left. */
  function Responses(s: Slot, reqs: seq<Request>): (r: seq<Response>)
    ensures |r| == |reqs|
    decreases |reqs|
  {
    if reqs == [] then [] else
      var n := |reqs| - 1;
      Responses(s, reqs[..n]) + [Post(SlotAfter(s, reqs[..n]), reqs[n]).1]
  }

  /** A request's response depends only on its own path and body: 200 for an
      accepted one, 500 for a malformed body on the submit path, 404 elsewhere. */
  lemma {:induction false} ResponseCodes(s: Slot, reqs: seq<Request>)
    ensures forall i :: 0 <= i < |reqs| ==>
      && (IsSubmit(reqs[i]) ==> Responses(s, reqs)[i] == Response(200, Some(OkBody())))
      && (reqs[i].path == SubmitPath && reqs[i].body.Malformed? ==>
            Responses(s, reqs)[i] == Response(500, Some(ErrorBody(reqs[i].body.reason))))
      && (reqs[i].path != SubmitPath ==> Responses(s, reqs)[i] == Response(404, None))
    decreases |reqs|
  {
    if reqs != [] {
      var n := |reqs| - 1;
      ResponseCodes(s, reqs[..n]);
      forall i | 0 <= i < n ensures Responses(s, reqs)[i] == Responses(s, reqs[..n])[i] && reqs[i] == reqs[..n][i] {
      }
    }
  }

  /** Serving one more request of a run. */
  lemma SlotAfterPrefix(s: Slot, reqs: seq<Request>, i: nat)
    requires i < |reqs|
    ensures SlotAfter(s, reqs[..i + 1]) == Post(SlotAfter(s, reqs[..i]), reqs[i]).0
    ensures Responses(s, reqs[..i + 1]) == Responses(s, reqs[..i]) + [Post(SlotAfter(s, reqs[..i]), reqs[i]).1]
  {
    assert reqs[..i + 1][..i] == reqs[..i];
  }

  /** Serving two runs of requests is serving their concatenation. */
  lemma {:induction false} SlotAfterAppend(s: Slot, a: seq<Request>, b: seq<Request>)
    ensures SlotAfter(s, a + b) == SlotAfter(SlotAfter(s, a), b)
    decreases |b|
  {
    if b == [] {
      assert a + b == a;
    } else {
      var n := |b| - 1;
      assert (a + b)[..|a + b| - 1] == a + b[..n];
      assert (a + b)[|a + b| - 1] == b[n];
      SlotAfterAppend(s, a, b[..n]);
    }
  }

  /** A page's cancel body passes through the session unchanged. */
  lemma CancelPassesThrough(afterWake: seq<Request>, timeoutMessage: string)
    requires forall i :: 0 <= i < |afterWake| ==> !IsSubmit(afterWake[i])
    ensures Outcome([Request(SubmitPath, Parsed(CommentPage.CancelPayload()))], afterWake, timeoutMessage)
         == CommentPage.CancelPayload()
    ensures Outcome([Request(SubmitPath, Parsed(ReviewPage.CancelPayload()))], afterWake, timeoutMessage)
         == ReviewPage.CancelPayload()
  {
    SingleSubmit(CommentPage.CancelPayload(), afterWake, timeoutMessage);
    SingleSubmit(ReviewPage.CancelPayload(), afterWake, timeoutMessage);
  }

  /** `_serve_and_wait`'s timeout message: whole minutes, rounded down. Python's
      `//` and Dafny's `/` agree for the positive divisor 60. */
  function TimeoutMessage(timeout: int): string {
    "Timed out after " + IntToString(timeout / 60) + " minutes"
  }

  const DefaultTimeout := 7200

  /** The two inline flows wait the same 7200 seconds and say so in hours. */
  const TwoHoursMessage := "Timed out after 2 hours"

  /** With the default wait, `_serve_and_wait` reports 120 minutes. */
  lemma DefaultTimeoutMessage()
    ensures TimeoutMessage(DefaultTimeout) == "Timed out after 120 minutes"
  {
    assert DefaultTimeout / 60 == 120;
    assert NatToString(120) == NatToString(12) + NatToString(0);
    assert NatToString(12) == NatToString(1) + NatToString(2);
  }

  /** Where a session's setup can raise: creating the scratch directory (before
      the `try`), or any later step up to the wait (inside it). */
  datatype Failure = NoFailure | MkdirFails | SetupFails

  /** How a call ends: with a returned value or with an exception. */
  datatype Completion = Returned(value: Json) | Raised

  /** `{"status": "error", "message": msg}` */
  function ErrorResult(msg: string): (j: Json)
    ensures Get(j, "status") == Some(JStr("error")) && Get(j, "message") == Some(JStr(msg))
    ensures j.JObject? && |j.members| == 2
  {
    GetObject2("status", JStr("error"), "message", JStr(msg));
    Object2("status", JStr("error"), "message", JStr(msg))
  }

  /** The process-wide state the sessions share: the slot, and whether the
      current session's scratch directory exists. */
  class EditorServer {
    var result: Json
    var signalled: bool
    ghost var scratchExists: bool

    function State(): Slot
      reads this
    {
      Slot(result, signalled)
    }

    constructor ()
      ensures State() == Fresh && !scratchExists
    {
      result := JNull;
      signalled := false;
      scratchExists := false;
    }

    /** The session start: `_result = None` and `_result_event.clear()`. */
    method Reset()
      modifies this
      ensures State() == Fresh && scratchExists == old(scratchExists)
    {
      result := JNull;
      signalled := false;
    }

    /** `EditorHTTPHandler.do_POST` on one request. */
    method DoPost(req: Request) returns (resp: Response)
      modifies this
      ensures (State(), resp) == Post(old(State()), req)
      ensures scratchExists == old(scratchExists)
    {
      if req.path == SubmitPath {
        match req.body {
          case Parsed(v) =>
            result := v;
            signalled := true;
            resp := Response(200, Some(OkBody()));
          case Malformed(e) =>
            resp := Response(500, Some(ErrorBody(e)));
        }
      } else {
        resp := Response(404, None);
      }
    }

    /** The handler serving `reqs` one after another. */
    method Serve(reqs: seq<Request>) returns (resps: seq<Response>)
      modifies this
      ensures State() == SlotAfter(old(State()), reqs)
      ensures resps == Responses(old(State()), reqs)
      ensures scratchExists == old(scratchExists)
    {
      ghost var start := State();
      resps := [];
      var i := 0;
      while i < |reqs|
        invariant 0 <= i <= |reqs| && |resps| == i
        invariant State() == SlotAfter(start, reqs[..i])
        invariant resps == Responses(start, reqs[..i])
        invariant scratchExists == old(scratchExists)
      {
        SlotAfterPrefix(start, reqs, i);
        var resp := DoPost(reqs[i]);
        resps := resps + [resp];
        i := i + 1;
      }
      assert reqs[..|reqs|] == reqs;
    }

    /** A session from its start to its return: reset, scratch directory,
        setup, the wait, shutdown, outcome, and the removal of the directory on
        every path out of the `try`. */
    method RunSession(failure: Failure, beforeWake: seq<Request>, afterWake: seq<Request>, timeoutMessage: string)
      returns (c: Completion)
      modifies this
      ensures failure == NoFailure ==> c == Returned(Outcome(beforeWake, afterWake, timeoutMessage))
      ensures failure != NoFailure ==> c == Raised
      ensures State() == if failure == NoFailure then SlotAfter(Fresh, beforeWake + afterWake) else Fresh
      ensures failure != MkdirFails ==> !scratchExists
      ensures failure == MkdirFails ==> scratchExists == old(scratchExists)
    {
      Reset();
      if failure == MkdirFails {
        return Raised;
      }
      scratchExists := true;
      if failure == SetupFails {
        scratchExists := false;
        return Raised;
      }
      var _ := Serve(beforeWake);
      var received := signalled;
      var _ := Serve(afterWake);
      SlotAfterAppend(Fresh, beforeWake, afterWake);
      c := Returned(SelectOutcome(received, result, timeoutMessage));
      scratchExists := false;
    }

    /** `_serve_and_wait(html_content, timeout)`; the page itself is not modelled. */
    method ServeAndWait(timeout: int, failure: Failure, beforeWake: seq<Request>, afterWake: seq<Request>)
      returns (c: Completion)
      modifies this
      ensures failure == NoFailure ==> c == Returned(Outcome(beforeWake, afterWake, TimeoutMessage(timeout)))
      ensures failure != NoFailure ==> c == Raised
      ensures failure == NoFailure ==> State() == SlotAfter(Fresh, beforeWake + afterWake)
      ensures failure != MkdirFails ==> !scratchExists
    {
      c := RunSession(failure, beforeWake, afterWake, TimeoutMessage(timeout));
    }

    /** `collect_comments_impl`: content without paragraphs fails at once,
        before the slot is reset or a directory exists; otherwise a session. */
    method CollectComments(content: string, failure: Failure, beforeWake: seq<Request>, afterWake: seq<Request>)
      returns (c: Completion)
      modifies this
      ensures AllBlank(content) ==>
        && c == Returned(ErrorResult("No paragraphs found in the content"))
        && State() == old(State()) && scratchExists == old(scratchExists)
      ensures !AllBlank(content) ==>
        && (failure == NoFailure ==> c == Returned(Outcome(beforeWake, afterWake, TwoHoursMessage)))
        && (failure == NoFailure ==> State() == SlotAfter(Fresh, beforeWake + afterWake))
        && (failure != NoFailure ==> c == Raised)
        && (failure != MkdirFails ==> !scratchExists)
    {
      var paragraphs := MarkdownParser.ParseMarkdownParagraphs(content);
      if paragraphs == [] {
        return Returned(ErrorResult("No paragraphs found in the content"));
      }
      c := RunSession(failure, beforeWake, afterWake, TwoHoursMessage);
    }

    /** `review_changes_impl`: a falsy change list fails at once, before the
        slot is reset or a directory exists; otherwise a session. */
    method ReviewChanges(changes: Json, failure: Failure, beforeWake: seq<Request>, afterWake: seq<Request>)
      returns (c: Completion)
      modifies this
      ensures !Truthy(changes) ==>
        && c == Returned(ErrorResult("No changes provided"))
        && State() == old(State()) && scratchExists == old(scratchExists)
      ensures Truthy(changes) ==>
        && (failure == NoFailure ==> c == Returned(Outcome(beforeWake, afterWake, TwoHoursMessage)))
        && (failure == NoFailure ==> State() == SlotAfter(Fresh, beforeWake + afterWake))
        && (failure != NoFailure ==> c == Raised)
        && (failure != MkdirFails ==> !scratchExists)
    {
      if !Truthy(changes) {
        return Returned(ErrorResult("No changes provided"));
      }
      c := RunSession(failure, beforeWake, afterWake, TwoHoursMessage);
    }

    /** `call_tool(name, arguments)`: the call `Dispatch` chooses, run. Content
        that is not a string makes `content.split` raise. */
    method CallTool(name: string, arguments: map<string, Json>, failure: Failure,
                    beforeWake: seq<Request>, afterWake: seq<Request>)
      returns (c: Completion)
      modifies this
      ensures Dispatch(name, arguments).Unknown? ==>
        c == Returned(UnknownToolError(name)) && State() == old(State()) && scratchExists == old(scratchExists)
      ensures Dispatch(name, arguments).Collect? && !Dispatch(name, arguments).content.JStr? ==>
        c == Raised && State() == old(State()) && scratchExists == old(scratchExists)
      ensures Dispatch(name, arguments).Collect? && Dispatch(name, arguments).content.JStr? ==>
        var content := Dispatch(name, arguments).content.s;
        && (AllBlank(content) ==>
              c == Returned(ErrorResult("No paragraphs found in the content")) && State() == old(State())
              && scratchExists == old(scratchExists))
        && (!AllBlank(content) && failure == NoFailure ==> c == Returned(Outcome(beforeWake, afterWake, TwoHoursMessage)))
        && (!AllBlank(content) && failure == NoFailure ==> State() == SlotAfter(Fresh, beforeWake + afterWake))
        && (!AllBlank(content) && failure != NoFailure ==> c == Raised)
        && (!AllBlank(content) && failure != MkdirFails ==> !scratchExists)
      ensures Dispatch(name, arguments).Review? ==>
        var changes := Dispatch(name, arguments).changes;
        && (!Truthy(changes) ==>
              c == Returned(ErrorResult("No changes provided")) && State() == old(State())
              && scratchExists == old(scratchExists))
        && (Truthy(changes) && failure == NoFailure ==> c == Returned(Outcome(beforeWake, afterWake, TwoHoursMessage)))
        && (Truthy(changes) && failure == NoFailure ==> State() == SlotAfter(Fresh, beforeWake + afterWake))
        && (Truthy(changes) && failure != NoFailure ==> c == Raised)
        && (Truthy(changes) && failure != MkdirFails ==> !scratchExists)
    {
      var call := Dispatch(name, arguments);
      match call {
        case Collect(content, _) =>
          if !content.JStr? {
            return Raised;
          }
          c := CollectComments(content.s, failure, beforeWake, afterWake);
        case Review(changes) =>
          c := ReviewChanges(changes, failure, beforeWake, afterWake);
        case Unknown(_) =>
          c := Returned(UnknownToolError(name));
      }
    }
  }

  /** The call `call_tool` makes, with its arguments after the defaults. */
  datatype ToolCall = Collect(content: Json, title: Json) | Review(changes: Json) | Unknown(name: string)

  /** `arguments.get(key, default)` */
  function GetOr(arguments: map<string, Json>, key: string, default: Json): (v: Json)
    ensures key in arguments ==> v == arguments[key]
    ensures key !in arguments ==> v == default
  {
    if key in arguments then arguments[key] else default
  }

  /** `call_tool`'s dispatch on the tool name. */
  function Dispatch(name: string, arguments: map<string, Json>): (call: ToolCall)
    ensures call.Collect? <==> name == "collect_comments"
    ensures call.Review? <==> name == "review_changes"
    ensures call.Unknown? ==> call.name == name
    ensures call.Collect? ==>
      && (call.content == if "content" in arguments then arguments["content"] else JStr(""))
      && (call.title == if "title" in arguments then arguments["title"] else JStr("Document"))
    ensures call.Review? ==> call.changes == if "changes" in arguments then arguments["changes"] else JArray([])
  {
    if name == "collect_comments" then
      Collect(GetOr(arguments, "content", JStr("")), GetOr(arguments, "title", JStr("Document")))
    else if name == "review_changes" then
      Review(GetOr(arguments, "changes", JArray([])))
    else
      Unknown(name)
  }

  /** `{"error": f"Unknown tool: {name}"}` */
  function UnknownToolError(name: string): (j: Json)
    ensures Get(j, "error") == Some(JStr("Unknown tool: " + name))
    ensures j.JObject? && |j.members| == 1
  {
    JObject([("error", JStr("Unknown tool: " + name))])
  }

  /** `collect_comments` without content gets `""`, which has no paragraphs. */
  lemma MissingContentHasNoParagraphs()
    ensures Dispatch("collect_comments", map[]) == Collect(JStr(""), JStr("Document"))
    ensures AllBlank("")
  {
    assert Split("") == [""];
    assert IsBlank("") by { StripFacts(""); }
  }

  /** `review_changes` without changes gets `[]`, which is falsy. */
  lemma MissingChangesIsFalsy()
    ensures Dispatch("review_changes", map[]) == Review(JArray([]))
    ensures !Truthy(Dispatch("review_changes", map[]).changes)
  {
  }
}
