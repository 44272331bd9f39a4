/** The server-side adapter that turns one accepted WebSocket into a
    transport for the protocol runtime (src/websocket-transport.ts). */
module Transport {
  import opened Wrappers
  import opened Js
  import opened Sockets

  /** A registered callback, known only by its identity. */
  type HandlerId = nat

  /** What a handler is called with. */
  datatype Event = MessageEvent(message: Json) | CloseEvent | ErrorEvent(reason: string)

  /** One invocation of a handler. */
  datatype Call = Call(handler: HandlerId, event: Event)

  /** `handlers.forEach(h => h(ev))`: every handler once, in registration order. */
  function Fanout(hs: seq<HandlerId>, ev: Event): (r: seq<Call>)
    ensures |r| == |hs|
    ensures forall i :: 0 <= i < |hs| ==> r[i].handler == hs[i] && r[i].event == ev
  {
    if hs == [] then [] else Fanout(hs[..|hs| - 1], ev) + [Call(hs[|hs| - 1], ev)]
  }

  /** A handler registered later is called after the earlier ones, and the
      earlier ones are called exactly as before. */
  lemma {:induction false} FanoutAppend(a: seq<HandlerId>, b: seq<HandlerId>, ev: Event)
    ensures Fanout(a + b, ev) == Fanout(a, ev) + Fanout(b, ev)
  {
    if b != [] {
      assert (a + b)[..|a + b| - 1] == a + b[..|b| - 1];
      FanoutAppend(a, b[..|b| - 1], ev);
    } else {
      assert a + b == a;
    }
  }

  /** The walk over a handler list, as the `forEach` loop does it. */
  method Notify(hs: seq<HandlerId>, ev: Event) returns (calls: seq<Call>)
    ensures calls == Fanout(hs, ev)
  {
    calls := [];
    var i := 0;
    while i < |hs|
      invariant 0 <= i <= |hs|
      invariant calls == Fanout(hs[..i], ev)
    {
      assert hs[..i + 1][..i] == hs[..i];
      calls := calls + [Call(hs[i], ev)];
      i := i + 1;
    }
    assert hs[..i] == hs;
  }

  /** The prefix the `catch` of the 'message' listener puts before what it caught. */
  const ParseFailurePrefix: string := "Failed to parse message: "

  /** Where the walk over `hs` stops: the first handler whose call throws,
      or `|hs|` when none does. `throws(h)` is the text of what `h` throws
      for the event at hand, if it throws. */
  function FirstThrow(hs: seq<HandlerId>, throws: HandlerId -> Option<string>): (k: nat)
    ensures k <= |hs|
    ensures forall i :: 0 <= i < k ==> throws(hs[i]).None?
    ensures k < |hs| ==> throws(hs[k]).Some?
  {
    if hs == [] then 0
    else if throws(hs[0]).Some? then 0
    else 1 + FirstThrow(hs[1..], throws)
  }

  /** The calls a `forEach` makes when a handler may throw: every handler up
      to and including the first that throws, and what that one threw. */
  method NotifyUntilThrow(hs: seq<HandlerId>, ev: Event, throws: HandlerId -> Option<string>)
    returns (calls: seq<Call>, thrown: Option<string>)
    ensures var k := FirstThrow(hs, throws);
      && (k == |hs| ==> calls == Fanout(hs, ev) && thrown.None?)
      && (k < |hs| ==> calls == Fanout(hs[..k + 1], ev) && thrown == throws(hs[k]))
  {
    ghost var k := FirstThrow(hs, throws);
    calls, thrown := [], None;
    var i := 0;
    while i < |hs| && thrown.None?
      invariant 0 <= i <= |hs|
      invariant calls == Fanout(hs[..i], ev)
      invariant thrown.None? ==> i <= k
      invariant thrown.Some? ==> i == k + 1 && thrown == throws(hs[k])
    {
      assert hs[..i + 1][..i] == hs[..i];
      calls := calls + [Call(hs[i], ev)];
      thrown := throws(hs[i]);
      i := i + 1;
    }
    assert thrown.None? ==> hs[..i] == hs;
  }

  /** Which handlers an inbound frame reaches. A frame that does not parse
      reaches the error handlers. One that parses reaches the message
      handlers in order; if one of them throws, the rest are skipped and the
      error handlers are told about the throw, with the same prefix as a
      parse failure. */
  function FrameCalls(c: Codec, messageHandlers: seq<HandlerId>, errorHandlers: seq<HandlerId>,
                      data: string, throws: HandlerId -> Option<string>): (r: seq<Call>)
    ensures c.parse(data).Failure? ==>
      r == Fanout(errorHandlers, ErrorEvent(ParseFailurePrefix + c.parse(data).error))
    ensures c.parse(data).Success? && FirstThrow(messageHandlers, throws) == |messageHandlers| ==>
      r == Fanout(messageHandlers, MessageEvent(c.parse(data).value))
    ensures c.parse(data).Success? && FirstThrow(messageHandlers, throws) < |messageHandlers| ==>
      var k := FirstThrow(messageHandlers, throws);
      r == Fanout(messageHandlers[..k + 1], MessageEvent(c.parse(data).value))
           + Fanout(errorHandlers, ErrorEvent(ParseFailurePrefix + throws(messageHandlers[k]).value))
  {
    match c.parse(data)
    case Failure(e) => Fanout(errorHandlers, ErrorEvent(ParseFailurePrefix + e))
    case Success(m) =>
      var k := FirstThrow(messageHandlers, throws);
      if k == |messageHandlers| then Fanout(messageHandlers, MessageEvent(m))
      else Fanout(messageHandlers[..k + 1], MessageEvent(m))
           + Fanout(errorHandlers, ErrorEvent(ParseFailurePrefix + throws(messageHandlers[k]).value))
  }

  /** A message a peer wrote with `send` reaches every message handler
      unchanged and no error handler, as long as no message handler throws. */
  lemma SentMessageArrives(c: Codec, m: Json, messageHandlers: seq<HandlerId>, errorHandlers: seq<HandlerId>,
                           throws: HandlerId -> Option<string>)
    requires Reparses(c, m)
    requires forall i :: 0 <= i < |messageHandlers| ==> throws(messageHandlers[i]).None?
    ensures FrameCalls(c, messageHandlers, errorHandlers, c.stringify(m), throws)
            == Fanout(messageHandlers, MessageEvent(m))
  {
    assert c.parse(c.stringify(m)) == Success(m);
  }

  /** A message handler that throws on a frame that parsed: the handlers
      before it and the thrower itself got the message, no later message
      handler did, and then every error handler got a "Failed to parse
      message: " error carrying what was thrown, although the frame parsed. */
  lemma HandlerThrowIsReported(c: Codec, messageHandlers: seq<HandlerId>, errorHandlers: seq<HandlerId>,
                               data: string, throws: HandlerId -> Option<string>, k: nat)
    requires c.parse(data).Success?
    requires k < |messageHandlers| && throws(messageHandlers[k]).Some?
    requires forall i :: 0 <= i < k ==> throws(messageHandlers[i]).None?
    ensures var r := FrameCalls(c, messageHandlers, errorHandlers, data, throws);
      && |r| == k + 1 + |errorHandlers|
      && (forall i :: 0 <= i <= k ==> r[i] == Call(messageHandlers[i], MessageEvent(c.parse(data).value)))
      && (forall j :: 0 <= j < |errorHandlers| ==>
            r[k + 1 + j] == Call(errorHandlers[j], ErrorEvent(ParseFailurePrefix + throws(messageHandlers[k]).value)))
  {
    var a := Fanout(messageHandlers[..k + 1], MessageEvent(c.parse(data).value));
    var b := Fanout(errorHandlers, ErrorEvent(ParseFailurePrefix + throws(messageHandlers[k]).value));
    assert FrameCalls(c, messageHandlers, errorHandlers, data, throws) == a + b;
  }

  class WebSocketTransport {
    const codec: Codec
    /** `ws.readyState`. */
    var ready: ReadyState
    var messageHandlers: seq<HandlerId>
    var closeHandlers: seq<HandlerId>
    var errorHandlers: seq<HandlerId>
    /** Every handler invocation, in the order they happened. */
    var calls: seq<Call>
    /** Every frame handed to `ws.send`. */
    var written: seq<string>
    /** How many times `ws.close()` was called. */
    var closeRequests: nat
    /** The promises returned by `start()` and by `close()`, in call order. */
    var starts: seq<Settlement>
    var closes: seq<Settlement>

    /** No `start()` is still waiting once the socket is open, and every
        `close()` is settled once the socket is closed. */
    ghost predicate Valid()
      reads this
    {
      && (ready == Open ==> NoPending(starts))
      && (ready == Closed ==> NoPending(closes))
    }

    /** `new WebSocketTransport(ws)`: no handlers yet; `setupEventHandlers`
        is what the event methods below carry out. */
    constructor (c: Codec, state: ReadyState)
      ensures Valid()
      ensures codec == c && ready == state
      ensures messageHandlers == [] && closeHandlers == [] && errorHandlers == []
      ensures calls == [] && written == [] && closeRequests == 0 && starts == [] && closes == []
    {
      codec := c;
      ready := state;
      messageHandlers, closeHandlers, errorHandlers := [], [], [];
      calls, written, closeRequests := [], [], 0;
      starts, closes := [], [];
    }

    method OnMessage(h: HandlerId)
      modifies this
      ensures messageHandlers == old(messageHandlers) + [h]
      ensures closeHandlers == old(closeHandlers) && errorHandlers == old(errorHandlers)
      ensures ready == old(ready) && calls == old(calls) && written == old(written)
      ensures closeRequests == old(closeRequests) && starts == old(starts) && closes == old(closes)
    {
      messageHandlers := messageHandlers + [h];
    }

    method OnClose(h: HandlerId)
      modifies this
      ensures closeHandlers == old(closeHandlers) + [h]
      ensures messageHandlers == old(messageHandlers) && errorHandlers == old(errorHandlers)
      ensures ready == old(ready) && calls == old(calls) && written == old(written)
      ensures closeRequests == old(closeRequests) && starts == old(starts) && closes == old(closes)
    {
      closeHandlers := closeHandlers + [h];
    }

    method OnError(h: HandlerId)
      modifies this
      ensures errorHandlers == old(errorHandlers) + [h]
      ensures messageHandlers == old(messageHandlers) && closeHandlers == old(closeHandlers)
      ensures ready == old(ready) && calls == old(calls) && written == old(written)
      ensures closeRequests == old(closeRequests) && starts == old(starts) && closes == old(closes)
    {
      errorHandlers := errorHandlers + [h];
    }

    /** The socket's 'message' event. `ws` emits it while the socket is open
        or closing. `throws` says which message handlers throw for this
        frame's message, and what. */
    method ReceiveFrame(data: string, throws: HandlerId -> Option<string>)
      requires ready == Open || ready == Closing
      modifies this`calls
      ensures calls == old(calls) + FrameCalls(codec, messageHandlers, errorHandlers, data, throws)
    {
      var fired;
      match codec.parse(data) {
        case Failure(e) =>
          fired := Notify(errorHandlers, ErrorEvent(ParseFailurePrefix + e));
        case Success(m) =>
          var thrown;
          fired, thrown := NotifyUntilThrow(messageHandlers, MessageEvent(m), throws);
          if thrown.Some? {
            var reported := Notify(errorHandlers, ErrorEvent(ParseFailurePrefix + thrown.value));
            fired := fired + reported;
          }
      }
      calls := calls + fired;
    }

    /** The socket's 'close' event, emitted once: each close handler runs
        once, then every `close()` still waiting resolves. `ws` emits it only
        after the socket has left CONNECTING. */
    method SocketClosed()
      requires Valid()
      requires ready == Open || ready == Closing
      modifies this`calls, this`ready, this`closes
      ensures Valid() && Advances(old(ready), ready)
      ensures ready == Closed
      ensures calls == old(calls) + Fanout(closeHandlers, CloseEvent)
      ensures closes == SettleAll(old(closes), Resolved)
    {
      var fired := Notify(closeHandlers, CloseEvent);
      calls := calls + fired;
      ready := Closed;
      closes := SettleAll(closes, Resolved);
    }

    /** The socket's 'error' event: each error handler runs once with the
        error; a `start()` still waiting rejects. `ws` moves the socket to
        CLOSING, and a 'close' event follows. */
    method SocketError(message: string)
      requires Valid()
      requires ready != Closed
      modifies this`calls, this`ready, this`starts
      ensures Valid() && Advances(old(ready), ready)
      ensures ready == Closing
      ensures calls == old(calls) + Fanout(errorHandlers, ErrorEvent(message))
      ensures starts == SettleAll(old(starts), Rejected(message))
    {
      var fired := Notify(errorHandlers, ErrorEvent(message));
      calls := calls + fired;
      ready := Closing;
      starts := SettleAll(starts, Rejected(message));
    }

    /** The socket's 'open' event: a `start()` still waiting resolves. */
    method SocketOpened()
      requires ready == Connecting
      modifies this`ready, this`starts
      ensures Valid() && Advances(old(ready), ready)
      ensures ready == Open
      ensures starts == SettleAll(old(starts), Resolved)
    {
      ready := Open;
      starts := SettleAll(starts, Resolved);
    }

    /** `start()`: waits only while the socket is CONNECTING; otherwise it
        resolves at once. It never changes the socket's state. */
    method Start() returns (p: nat)
      requires Valid()
      modifies this`starts
      ensures Valid()
      ensures p == |old(starts)| && |starts| == p + 1 && starts[..p] == old(starts)
      ensures starts[p] == (if ready == Connecting then Pending else Resolved)
    {
      p := |starts|;
      if ready == Connecting {
        starts := starts + [Pending];
      } else {
        starts := starts + [Resolved];
      }
    }

    /** `send(message)`: rejected with "WebSocket is not open" unless the
        socket is OPEN; otherwise writes `JSON.stringify(message)` and
        settles as the write callback reports. */
    method Send(message: Json, writeError: Option<string>) returns (r: Settlement)
      modifies this`written
      ensures ready != Open ==> r == Rejected("WebSocket is not open") && written == old(written)
      ensures ready == Open ==> written == old(written) + [codec.stringify(message)]
      ensures ready == Open ==> (r == Resolved <==> writeError.None?)
      ensures ready == Open && writeError.Some? ==> r == Rejected(writeError.value)
    {
      if ready != Open {
        return Rejected("WebSocket is not open");
      }
      written := written + [codec.stringify(message)];
      if writeError.Some? {
        r := Rejected(writeError.value);
      } else {
        r := Resolved;
      }
    }

    /** `close()`: resolves at once on a CLOSED socket without touching it;
        otherwise calls `ws.close()` once and waits for the 'close' event. */
    method Close() returns (p: nat)
      requires Valid()
      modifies this`closes, this`closeRequests, this`ready
      ensures Valid() && Advances(old(ready), ready)
      ensures p == |old(closes)| && |closes| == p + 1 && closes[..p] == old(closes)
      ensures old(ready) == Closed ==> closes[p] == Resolved && closeRequests == old(closeRequests) && ready == Closed
      ensures old(ready) != Closed ==> closes[p] == Pending && closeRequests == old(closeRequests) + 1 && ready == Closing
    {
      p := |closes|;
      if ready == Closed {
        closes := closes + [Resolved];
        return;
      }
      closes := closes + [Pending];
      closeRequests := closeRequests + 1;
      ready := Closing;
    }
  }
}
