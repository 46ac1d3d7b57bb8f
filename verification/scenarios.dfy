/**
 * Clients of the bridge: each method drives a fresh bridge through one
 * interleaving of calls, reader steps and timeouts, and states what every
 * caller ends up with. Their proofs use only the contracts of the steps.
 */
module Scenarios {
  import opened Wrappers
  import opened Json
  import opened Text
  import opened Protocol
  import opened Dto
  import opened Commands
  import opened Bridge

  /**
   * A line that starts with `{` is not blank. Where a scenario's reply or
   * event is any value, the line it reads is written `nonBlank`: its text
   * only decides blankness, and its parse is passed beside it.
   */
  lemma ObjectLineNotBlank(line: string)
    requires |line| > 0 && line[0] == '{'
    ensures !IsBlank(line)
  {
    assert !IsWhitespace(line[0]);
  }

  /** `getStatus` answered by `{"id":1,"result":status}` resolves to that status. */
  method GetStatusAnswered(s: ServiceStatus) returns (r: Result<ServiceStatus>)
    ensures r == Ok(s)
  {
    var b := new NodeBridge();
    var call := b.Register(MethodName(GetStatus), Params(GetStatus));
    var sent := b.Write(call.value, true);
    var nonBlank := "{";
    ObjectLineNotBlank(nonBlank);
    ResponseRoundTrip(nonBlank, 1, Ok(StatusToValue(s)));
    b.HandleLine(nonBlank, Parsed(ResponseMessage(1, Ok(StatusToValue(s)))));
    var reply := b.Receive(1);
    assert b.delivered == [Delivery(1, Ok(StatusToValue(s)))];
    StatusRoundTrip(s);
    r := StatusReply(reply);
  }

  /**
   * `toggleRunning` answered by `{"id":2,"error":"disk full"}` fails with
   * that text, and the other call in flight keeps its slot.
   */
  method ToggleRunningRejected() returns (r: Result<Value>, otherStillPending: bool)
    ensures r == Err("disk full")
    ensures otherStillPending
  {
    var b := new NodeBridge();
    var first := b.Register(MethodName(GetStatus), Params(GetStatus));
    var second := b.Register(MethodName(ToggleRunning(None)), Params(ToggleRunning(None)));
    var sent1 := b.Write(first.value, true);
    var sent2 := b.Write(second.value, true);
    var line := "{\"id\":2,\"error\":\"disk full\"}";
    ObjectLineNotBlank(line);
    ResponseRoundTrip(line, 2, Err("disk full"));
    b.HandleLine(line, Parsed(ResponseMessage(2, Err("disk full"))));
    r := b.Receive(2);
    assert b.delivered == [Delivery(2, Err("disk full"))];
    otherStillPending := 1 in b.pending;
  }

  /**
   * End of stream with two calls waiting: both fail with "Bridge sidecar
   * disconnected", the fuse is set, and a later call fails at once without
   * writing anything.
   */
  method EndOfStream() returns (r1: Result<Value>, r2: Result<Value>, later: Result<Envelope>,
                                writes: nat, fuse: bool)
    ensures r1 == Err(SIDECAR_DISCONNECTED) && r2 == Err(SIDECAR_DISCONNECTED)
    ensures later == Err(DISCONNECTED)
    ensures writes == 2 && fuse
  {
    var b := new NodeBridge();
    var c1 := b.Register("getStatus", Null);
    var c2 := b.Register("undo", Null);
    var s1 := b.Write(c1.value, true);
    var s2 := b.Write(c2.value, true);
    b.ReaderExit();
    assert b.delivered[0..] == b.delivered;
    r1 := b.Receive(1);
    r2 := b.Receive(2);
    later := b.Register("getStatus", Null);
    writes := |b.written|;
    fuse := b.dead;
  }

  /**
   * A line that does not parse fails the call in flight with the parser's
   * message, leaves the fuse alone, and the next call is accepted.
   */
  method ParseFault(error: string) returns (r: Result<Value>, next: Result<Envelope>, fuse: bool)
    ensures r == Err(PARSE_ERROR_PREFIX + error)
    ensures next.Ok? && next.value.id == 2
    ensures !fuse
  {
    var b := new NodeBridge();
    var c1 := b.Register("getStatus", Null);
    var s1 := b.Write(c1.value, true);
    var line := "{not json";
    ObjectLineNotBlank(line);
    b.HandleLine(line, Unparsable(error));
    assert b.delivered[0..] == b.delivered;
    r := b.Receive(1);
    next := b.Register("getStatus", Null);
    fuse := b.dead;
  }

  /**
   * Call 1 times out; its reply arriving afterwards is dropped and does not
   * touch call 2, which still gets its own reply.
   */
  method LateReplyDropped(v: Value, w: Value) returns (r1: Result<Value>, r2: Result<Value>)
    ensures r1 == Err(TIMED_OUT)
    ensures r2 == Ok(w)
  {
    var b := new NodeBridge();
    var c1 := b.Register("getStatus", Null);
    var c2 := b.Register("listDirectories", Null);
    var s1 := b.Write(c1.value, true);
    var s2 := b.Write(c2.value, true);
    r1 := b.Timeout(1);
    var nonBlank := "{";
    ObjectLineNotBlank(nonBlank);
    ResponseRoundTrip(nonBlank, 1, Ok(v));
    b.HandleLine(nonBlank, Parsed(ResponseMessage(1, Ok(v))));
    assert b.delivered == [] && b.pending == {2};
    ResponseRoundTrip(nonBlank, 2, Ok(w));
    b.HandleLine(nonBlank, Parsed(ResponseMessage(2, Ok(w))));
    assert b.delivered == [Delivery(2, Ok(w))];
    r2 := b.Receive(2);
  }

  /**
   * A failed write blows the fuse and fails only its own call: the call
   * already waiting is not drained and can still be answered.
   */
  method WriteFailure(v: Value) returns (failed: Result<nat>, waitingReply: Result<Value>, later: Result<Envelope>)
    ensures failed == Err(DISCONNECTED)
    ensures waitingReply == Ok(v)
    ensures later == Err(DISCONNECTED)
  {
    var b := new NodeBridge();
    var c1 := b.Register("getStatus", Null);
    var c2 := b.Register("undo", Null);
    var s1 := b.Write(c1.value, true);
    failed := b.Write(c2.value, false);
    assert b.pending == {1} && b.delivered == [Delivery(2, Err(DISCONNECTED))];
    var nonBlank := "{";
    ObjectLineNotBlank(nonBlank);
    ResponseRoundTrip(nonBlank, 1, Ok(v));
    b.HandleLine(nonBlank, Parsed(ResponseMessage(1, Ok(v))));
    assert b.delivered == [Delivery(2, Err(DISCONNECTED)), Delivery(1, Ok(v))];
    waitingReply := b.Receive(1);
    later := b.Register("getStatus", Null);
  }

  /**
   * The reader ends between a call's registration and its write. The call
   * passed the fuse before it was set, so it still writes. A failed write
   * fails the call with the disconnect text. A successful write waits and
   * finds its slot already failed by the drain.
   */
  method ReaderBetweenRegisterAndWrite(ok: bool) returns (sent: Result<nat>, reply: Option<Result<Value>>, fuse: bool)
    ensures ok ==> sent == Ok(1) && reply == Some(Err(SIDECAR_DISCONNECTED))
    ensures !ok ==> sent == Err(DISCONNECTED) && reply == None
    ensures fuse
  {
    var b := new NodeBridge();
    var c := b.Register("getStatus", Null);
    b.ReaderExit();
    assert b.delivered[0..] == b.delivered;
    sent := b.Write(c.value, ok);
    if ok {
      var r := b.Receive(1);
      reply := Some(r);
    } else {
      reply := None;
    }
    fuse := b.dead;
  }

  /** A receiver sees the events published after it subscribed, and none before. */
  method NoReplay(first: BridgeEvent, second: BridgeEvent) returns (seen: seq<BridgeEvent>)
    ensures seen == [second]
  {
    var b := new NodeBridge();
    var nonBlank := "{";
    ObjectLineNotBlank(nonBlank);
    EventRoundTrip(nonBlank, first);
    b.HandleLine(nonBlank, Parsed(EventMessage(first)));
    var cursor := b.Subscribe();
    EventRoundTrip(nonBlank, second);
    b.HandleLine(nonBlank, Parsed(EventMessage(second)));
    seen := b.Received(cursor);
  }
}
