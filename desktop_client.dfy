/** The stdio-to-WebSocket bridge run next to the desktop application
    (src/claude-desktop-client.ts): it forwards stdin lines to the remote
    socket and inbound frames to stdout, and reconnects with a doubling delay
    up to a fixed number of attempts. */
module DesktopClient {
  import opened Wrappers
  import opened Js
  import opened Text
  import opened Sockets

  const MaxReconnectAttempts: nat := 5
  /** The first reconnect delay, in milliseconds. */
  const InitialDelay: nat := 1000
  /** The cap on the reconnect delay, in milliseconds. */
  const MaxDelay: nat := 30000

  /** `Math.min`. */
  function Min(a: int, b: int): (m: int)
    ensures m <= a && m <= b && (m == a || m == b)
  {
    if a < b then a else b
  }

  /** The delay after a scheduled connect fails: `Math.min(delay * 2, 30000)`. */
  function NextDelay(delay: nat): (r: nat)
    ensures r <= MaxDelay
    ensures delay <= MaxDelay ==> delay <= r
    ensures r == 2 * delay || r == MaxDelay
  {
    Min(delay * 2, MaxDelay)
  }

  /** The delay after `k` scheduled connects have failed since the last open. */
  function BackoffDelay(k: nat): nat {
    if k == 0 then InitialDelay else NextDelay(BackoffDelay(k - 1))
  }

  function Pow2(k: nat): (p: nat)
    ensures p >= 1
  {
    if k == 0 then 1 else 2 * Pow2(k - 1)
  }

  /** The delay doubles from one second until it reaches thirty. */
  lemma {:induction false} BackoffClosedForm(k: nat)
    ensures BackoffDelay(k) == Min(InitialDelay * Pow2(k), MaxDelay)
  {
    if k > 0 {
      BackoffClosedForm(k - 1);
      assert InitialDelay * Pow2(k) == 2 * (InitialDelay * Pow2(k - 1));
    }
  }

  /** The delay stays between one and thirty seconds and never shrinks as failures accumulate. */
  lemma {:induction false} BackoffBounds(j: nat, k: nat)
    requires j <= k
    ensures InitialDelay <= BackoffDelay(j) <= BackoffDelay(k) <= MaxDelay
  {
    if j < k {
      BackoffBounds(j, k - 1);
    } else if k > 0 {
      BackoffBounds(0, k - 1);
    }
  }

  /** The schedule of delays: 1000, 2000, 4000, 8000, 16000, then 30000 for good. */
  lemma BackoffSchedule(k: nat)
    ensures k < 5 ==> BackoffDelay(k) == InitialDelay * Pow2(k)
    ensures k >= 5 ==> BackoffDelay(k) == MaxDelay
    ensures BackoffDelay(0) == 1000 && BackoffDelay(1) == 2000 && BackoffDelay(2) == 4000
    ensures BackoffDelay(3) == 8000 && BackoffDelay(4) == 16000
  {
    BackoffClosedForm(k);
    if k >= 5 {
      Pow2Grows(5, k);
    }
  }

  lemma {:induction false} Pow2Grows(j: nat, k: nat)
    requires j <= k
    ensures Pow2(j) <= Pow2(k)
  {
    if j < k {
      Pow2Grows(j, k - 1);
    }
  }

  /** The wait before reconnect `i` of a connection that drops and never
      comes back, as the code runs: `handleReconnect` reads the delay before
      the failed connect's `catch` doubles it, so each doubling takes effect
      one reconnect late and the first two reconnects both wait one second. */
  function WrittenWait(i: nat): nat {
    if i == 0 then InitialDelay else BackoffDelay(i - 1)
  }

  /** The waits of the first `k` reconnects had each failure doubled the
      delay before the next reconnect was scheduled (for instance by doubling
      it in `handleReconnect` right after `setTimeout` and not in the
      `catch`): reconnect `i` waits min(1000 * 2^i, 30000). */
  function IntendedWaits(k: nat): (r: seq<nat>)
    ensures |r| == k
    ensures forall i :: 0 <= i < k ==> r[i] == Min(InitialDelay * Pow2(i), MaxDelay)
  {
    if k == 0 then []
    else
      BackoffClosedForm(k - 1);
      IntendedWaits(k - 1) + [BackoffDelay(k - 1)]
  }

  /** The intended schedule of a connection that never comes back. */
  lemma IntendedSchedule()
    ensures IntendedWaits(5) == [1000, 2000, 4000, 8000, 16000]
  {
    var r := IntendedWaits(5);
    assert Pow2(1) == 2 && Pow2(2) == 4 && Pow2(3) == 8 && Pow2(4) == 16;
    assert r[0] == 1000 && r[1] == 2000 && r[2] == 4000 && r[3] == 8000 && r[4] == 16000;
  }

  /** As written, each reconnect waits what the intended schedule gives the
      reconnect before it, so the second reconnect already differs. */
  lemma {:induction false} WrittenWaitLags(k: nat)
    ensures forall i :: 0 <= i < k ==> WrittenWait(i + 1) == IntendedWaits(k)[i]
    ensures WrittenWait(1) == 1000 && IntendedWaits(2)[1] == 2000
  {
    forall i | 0 <= i < k
      ensures WrittenWait(i + 1) == IntendedWaits(k)[i]
    {
      BackoffClosedForm(i);
    }
    assert Pow2(1) == 2;
  }

  /** What `JSON.stringify(JSON.parse(x))` forwards for each input that
      parses, in input order; inputs that do not parse are dropped. */
  function Forwarded(c: Codec, inputs: seq<string>): (out: seq<string>)
    ensures |out| <= |inputs|
  {
    if inputs == [] then []
    else Forwarded(c, inputs[..|inputs| - 1]) + Reserialized(c, inputs[|inputs| - 1])
  }

  function Reserialized(c: Codec, x: string): seq<string> {
    match c.parse(x)
    case Success(m) => [c.stringify(m)]
    case Failure(_) => []
  }

  lemma ForwardedSingle(c: Codec, x: string)
    ensures Forwarded(c, [x]) == Reserialized(c, x)
  {
    assert [x][..0] == [];
  }

  /** Forwarding a stream piece by piece forwards the whole stream. */
  lemma {:induction false} ForwardedAppend(c: Codec, a: seq<string>, b: seq<string>)
    ensures Forwarded(c, a + b) == Forwarded(c, a) + Forwarded(c, b)
  {
    if b == [] {
      assert a + b == a;
    } else {
      assert (a + b)[..|a + b| - 1] == a + b[..|b| - 1];
      ForwardedAppend(c, a, b[..|b| - 1]);
    }
  }

  /** A malformed input produces nothing and does not disturb what comes before or after it. */
  lemma {:induction false} SkipsMalformed(c: Codec, a: seq<string>, x: string, b: seq<string>)
    requires c.parse(x).Failure?
    ensures Forwarded(c, a + [x] + b) == Forwarded(c, a) + Forwarded(c, b)
  {
    ForwardedAppend(c, a + [x], b);
    ForwardedAppend(c, a, [x]);
    ForwardedSingle(c, x);
  }

  /** Messages that the codec parses back come out exactly as they were printed. */
  lemma {:induction false} ForwardedPrinted(c: Codec, ms: seq<Json>)
    requires forall i :: 0 <= i < |ms| ==> Reparses(c, ms[i])
    ensures Forwarded(c, Printed(c, ms)) == Printed(c, ms)
  {
    if ms != [] {
      var front, last := ms[..|ms| - 1], ms[|ms| - 1];
      assert Printed(c, ms) == Printed(c, front) + [c.stringify(last)];
      assert forall i :: 0 <= i < |front| ==> front[i] == ms[i];
      ForwardedPrinted(c, front);
      ForwardedAppend(c, Printed(c, front), [c.stringify(last)]);
      ForwardedSingle(c, c.stringify(last));
      assert Reparses(c, ms[|ms| - 1]);
    }
  }

  function Printed(c: Codec, ms: seq<Json>): (r: seq<string>)
    ensures |r| == |ms| && forall i :: 0 <= i < |ms| ==> r[i] == c.stringify(ms[i])
  {
    seq(|ms|, i requires 0 <= i < |ms| => c.stringify(ms[i]))
  }

  /** `n` copies of `s`, one after another: what `n` identical listeners produce. */
  function Repeated<T>(n: nat, s: seq<T>): (r: seq<T>)
    ensures n == 0 ==> r == []
    ensures n == 1 ==> r == s
  {
    if n == 0 then [] else Repeated(n - 1, s) + s
  }

  /** The stderr line one stdin listener writes for `line`, if any. */
  function LineReport(c: Codec, line: string, open: bool): seq<string> {
    match c.parse(line)
    case Failure(e) => ["Error parsing stdin: " + e]
    case Success(_) => if open then [] else ["WebSocket not connected"]
  }

  function BearerHeader(token: string): string {
    "Bearer " + token
  }

  /** `console.error('Failed to start client:', error)`, the error shown by its message. */
  function StartFailure(message: string): string {
    "Failed to start client: " + message
  }

  function ReconnectNotice(delay: nat, attempt: nat): string {
    "Reconnecting in " + NatToString(delay) + "ms... (attempt " + NatToString(attempt) + "/"
    + NatToString(MaxReconnectAttempts) + ")"
  }

  /** The output of `gcloud auth print-identity-token` once it exits: the
      trimmed concatenation of its stdout chunks when it exits with status 0,
      a failure otherwise (a `null` status is a kill by signal). */
  function IdentityToken(chunks: seq<string>, status: Option<int>): (r: Result<string, string>)
    ensures r.Success? <==> status == Some(0)
    ensures r.Failure? ==> r.error == "Failed to get identity token"
    ensures r.Success? ==> exists i: nat, j: nat :: CutsOnlyWhitespace(Concat(chunks), i, j) && r.value == Concat(chunks)[i..j]
  {
    TrimIsSlice(Concat(chunks));
    if status == Some(0) then Success(Trim(Concat(chunks))) else Failure("Failed to get identity token")
  }

  function Concat(chunks: seq<string>): string {
    if chunks == [] then "" else Concat(chunks[..|chunks| - 1]) + chunks[|chunks| - 1]
  }

  /** Who waits on the promise of the current `connect()`. */
  datatype Awaiter = NoOne | StartAwaits | TimerAwaits

  /** The `catch` a rejected `connect()` leads to once its promise job runs:
      the one of `start()`, which shows the error, or the one in the
      reconnect timer's callback. */
  datatype Catch = StartCatch(reason: string) | TimerCatch

  class Client {
    const codec: Codec
    /** `AUTH_TOKEN`: the value of `GCP_MCP_TOKEN` when the module was loaded, or "". */
    const authToken: string
    const maxReconnectAttempts: nat
    /** `this.ws`: absent until the first `connect()`, then the latest socket's state. */
    var ws: Option<ReadyState>
    var reconnectAttempts: nat
    var reconnectDelay: nat
    /** How many 'line' listeners `setupStdinHandler` has added to the reader. */
    var lineListeners: nat
    var awaiting: Awaiter
    /** A rejected `connect()` whose `catch` is queued as a promise job and
        has not run yet. */
    var queued: Option<Catch>
    /** A reconnect scheduled with `setTimeout`, with the delay it was given. */
    var timer: Option<nat>
    /** `process.env.GCP_MCP_TOKEN` as `start()` leaves it. */
    var envToken: Option<string>
    /** The Authorization header of every socket opened, in order. */
    var handshakes: seq<string>
    var stdout: seq<string>
    var stderr: seq<string>
    /** Every frame passed to `ws.send`. */
    var sent: seq<string>
    /** The status passed to `process.exit`, once it is called. */
    var exitCode: Option<int>

    ghost predicate Valid()
      reads this
    {
      && maxReconnectAttempts == MaxReconnectAttempts
      && reconnectAttempts <= maxReconnectAttempts
      && InitialDelay <= reconnectDelay <= MaxDelay
      && (timer.Some? ==> ws == Some(Closed))
      && (awaiting != NoOne ==> ws == Some(Connecting))
      && (queued.Some? ==> ws == Some(Closing) || ws == Some(Closed))
      && (ws.None? ==> timer.None? && awaiting == NoOne && handshakes == [] && lineListeners == 0)
      && (forall i :: 0 <= i < |handshakes| ==> handshakes[i] == BearerHeader(authToken))
    }

    /** `new CloudRunMCPClient()`. */
    constructor (c: Codec, token: string, env: Option<string>)
      ensures Valid()
      ensures codec == c && authToken == token && envToken == env
      ensures reconnectAttempts == 0 && maxReconnectAttempts == 5 && reconnectDelay == 1000
      ensures ws.None? && timer.None? && awaiting == NoOne && queued.None? && lineListeners == 0 && exitCode.None?
      ensures handshakes == [] && stdout == [] && stderr == [] && sent == []
    {
      codec, authToken, maxReconnectAttempts := c, token, MaxReconnectAttempts;
      ws, timer, awaiting, queued, lineListeners, exitCode := None, None, NoOne, None, 0, None;
      reconnectAttempts, reconnectDelay := 0, InitialDelay;
      envToken := env;
      handshakes, stdout, stderr, sent := [], [], [], [];
    }

    /** `getIdentityToken()`: collects the helper's stdout chunk by chunk and
        settles when it exits. */
    method GetIdentityToken(chunks: seq<string>, status: Option<int>) returns (r: Result<string, string>)
      ensures status == Some(0) ==> r == Success(Trim(Concat(chunks)))
      ensures status != Some(0) ==> r == Failure("Failed to get identity token")
      ensures r == IdentityToken(chunks, status)
    {
      var token := "";
      var i := 0;
      while i < |chunks|
        invariant 0 <= i <= |chunks|
        invariant token == Concat(chunks[..i])
      {
        assert chunks[..i + 1][..i] == chunks[..i];
        token := token + chunks[i];
        i := i + 1;
      }
      assert chunks[..i] == chunks;
      if status == Some(0) {
        r := Success(Trim(token));
      } else {
        r := Failure("Failed to get identity token");
      }
    }

    /** The synchronous part of `connect()`: a new socket whose handshake
        carries `AUTH_TOKEN`, and a promise that `waiter` waits on. */
    method Connect(waiter: Awaiter)
      requires Valid() && timer.None? && queued.None?
      modifies this`ws, this`handshakes, this`awaiting, this`stderr
      ensures Valid()
      ensures ws == Some(Connecting) && awaiting == waiter
      ensures handshakes == old(handshakes) + [BearerHeader(authToken)]
      ensures stderr == old(stderr) + ["Connecting to Cloud Run MCP server..."]
    {
      stderr := stderr + ["Connecting to Cloud Run MCP server..."];
      ws := Some(Connecting);
      handshakes := handshakes + [BearerHeader(authToken)];
      awaiting := waiter;
    }

    /** `start()`: fetches a token when `AUTH_TOKEN` is empty (exiting with 1
        if that fails), stores it in the environment only, then connects. The
        stdin listener is added once the first socket opens. */
    method Start(chunks: seq<string>, status: Option<int>)
      requires Valid() && exitCode.None? && ws.None?
      modifies this`stderr, this`exitCode, this`envToken, this`ws, this`handshakes, this`awaiting
      ensures Valid()
      ensures reconnectAttempts == old(reconnectAttempts) && reconnectDelay == old(reconnectDelay)
      ensures lineListeners == old(lineListeners) && timer.None? && queued.None?
      ensures stdout == old(stdout) && sent == old(sent)
      ensures authToken != "" ==>
        && envToken == old(envToken) && exitCode.None?
        && ws == Some(Connecting) && awaiting == StartAwaits
        && handshakes == [BearerHeader(authToken)]
        && stderr == old(stderr) + ["Connecting to Cloud Run MCP server..."]
      ensures authToken == "" && status != Some(0) ==>
        && envToken == old(envToken) && exitCode == Some(1) && ws.None? && handshakes == []
        && stderr == old(stderr) + ["Getting GCP identity token..."] + [StartFailure("Failed to get identity token")]
      ensures authToken == "" && status == Some(0) ==>
        && envToken == Some(Trim(Concat(chunks))) && exitCode.None?
        && ws == Some(Connecting) && awaiting == StartAwaits
        && handshakes == [BearerHeader("")]
        && stderr == old(stderr) + ["Getting GCP identity token..."] + ["Connecting to Cloud Run MCP server..."]
    {
      if authToken == "" {
        var log, token := FetchToken(chunks, status);
        stderr := stderr + log;
        if token.None? {
          exitCode := Some(1);
          return;
        }
        envToken := token;
      }
      Connect(StartAwaits);
    }

    /** The `if (!AUTH_TOKEN)` branch of `start()`: the lines it writes to
        stderr, and the token it puts in the environment when the fetch
        succeeds. Without a token, `start()` goes on to its `catch`. */
    method FetchToken(chunks: seq<string>, status: Option<int>) returns (log: seq<string>, token: Option<string>)
      ensures token.Some? <==> status == Some(0)
      ensures token.Some? ==> token.value == Trim(Concat(chunks)) && log == ["Getting GCP identity token..."]
      ensures token.None? ==>
        log == ["Getting GCP identity token...", StartFailure("Failed to get identity token")]
    {
      log := ["Getting GCP identity token..."];
      var r := GetIdentityToken(chunks, status);
      if r.Failure? {
        log := log + [StartFailure(r.error)];
        token := None;
      } else {
        token := Some(r.value);
      }
    }

    /** The socket's 'open' event: the counters are reset whatever they were,
        and whoever awaited `connect()` adds one more stdin listener. */
    method OnOpen()
      requires Valid() && exitCode.None? && ws == Some(Connecting)
      modifies this`ws, this`reconnectAttempts, this`reconnectDelay,
               this`awaiting, this`lineListeners, this`stderr
      ensures Valid()
      ensures ws == Some(Open) && reconnectAttempts == 0 && reconnectDelay == InitialDelay
      ensures awaiting == NoOne
      ensures lineListeners == old(lineListeners) + (if old(awaiting) == NoOne then 0 else 1)
      ensures stderr == old(stderr) + ["Connected to Cloud Run MCP server"]
    {
      stderr := stderr + ["Connected to Cloud Run MCP server"];
      ws := Some(Open);
      reconnectAttempts, reconnectDelay := 0, InitialDelay;
      if awaiting != NoOne {
        lineListeners := lineListeners + 1;
      }
      awaiting := NoOne;
    }

    /** The socket's 'error' event: the error is logged and a pending
        `connect()` rejects. `reject` only queues the awaiter's `catch` as a
        promise job; nothing else changes until that job runs. `ws` moves the
        socket to CLOSING. */
    method OnError(message: string)
      requires Valid() && exitCode.None? && ws.Some? && ws.value != Closed
      modifies this`ws, this`awaiting, this`queued, this`stderr
      ensures Valid()
      ensures ws == Some(Closing) && awaiting == NoOne
      ensures stderr == old(stderr) + ["WebSocket error: " + message]
      ensures old(awaiting) == StartAwaits ==> queued == Some(StartCatch(message))
      ensures old(awaiting) == TimerAwaits ==> queued == Some(TimerCatch)
      ensures old(awaiting) == NoOne ==> queued == old(queued)
    {
      stderr := stderr + ["WebSocket error: " + message];
      ws := Some(Closing);
      if awaiting == StartAwaits {
        queued := Some(StartCatch(message));
      } else if awaiting == TimerAwaits {
        queued := Some(TimerCatch);
      }
      awaiting := NoOne;
    }

    /** The socket's 'close' event, then `handleReconnect()`: at the attempt
        limit the process exits with 1; below it the attempt counter goes up
        by one and a reconnect is scheduled after the current delay. `ws`
        emits 'close' only once the socket has left CONNECTING. */
    method OnClose()
      requires Valid() && exitCode.None? && (ws == Some(Open) || ws == Some(Closing))
      modifies this`ws, this`reconnectAttempts, this`timer, this`stderr, this`exitCode
      ensures Valid()
      ensures ws == Some(Closed)
      ensures old(reconnectAttempts) >= maxReconnectAttempts ==>
        && exitCode == Some(1) && timer.None? && reconnectAttempts == old(reconnectAttempts)
        && stderr == old(stderr) + ["WebSocket connection closed"] + ["Max reconnection attempts reached. Exiting."]
      ensures old(reconnectAttempts) < maxReconnectAttempts ==>
        && exitCode.None? && reconnectAttempts == old(reconnectAttempts) + 1
        && timer == Some(reconnectDelay)
        && stderr == old(stderr) + ["WebSocket connection closed"]
                     + [ReconnectNotice(reconnectDelay, reconnectAttempts)]
    {
      stderr := stderr + ["WebSocket connection closed"];
      ws := Some(Closed);
      if reconnectAttempts >= maxReconnectAttempts {
        stderr := stderr + ["Max reconnection attempts reached. Exiting."];
        exitCode := Some(1);
        return;
      }
      reconnectAttempts := reconnectAttempts + 1;
      stderr := stderr + [ReconnectNotice(reconnectDelay, reconnectAttempts)];
      timer := Some(reconnectDelay);
    }

    /** The promise job of a rejected `connect()`. Under `start()` the
        failure is logged and the process exits with 1; under the reconnect
        timer the delay doubles, up to the cap, for the reconnect after the
        one already scheduled. */
    method ConnectRejected()
      requires Valid() && exitCode.None? && queued.Some?
      modifies this`queued, this`reconnectDelay, this`stderr, this`exitCode
      ensures Valid() && queued.None?
      ensures old(queued).value.StartCatch? ==>
        && exitCode == Some(1) && reconnectDelay == old(reconnectDelay)
        && stderr == old(stderr) + [StartFailure(old(queued).value.reason)]
      ensures old(queued) == Some(TimerCatch) ==>
        && exitCode.None? && reconnectDelay == NextDelay(old(reconnectDelay)) && stderr == old(stderr)
    {
      match queued.value {
        case StartCatch(reason) =>
          stderr := stderr + [StartFailure(reason)];
          exitCode := Some(1);
        case TimerCatch =>
          reconnectDelay := Min(reconnectDelay * 2, 30000);
      }
      queued := None;
    }

    /** The reconnect timer fires: `connect()` again, awaited by the timer.
        Promise jobs run before timers, so no `catch` is still queued. */
    method Fire()
      requires Valid() && exitCode.None? && timer.Some? && queued.None?
      modifies this`timer, this`ws, this`handshakes, this`awaiting, this`stderr
      ensures Valid()
      ensures timer.None? && ws == Some(Connecting) && awaiting == TimerAwaits
      ensures handshakes == old(handshakes) + [BearerHeader(authToken)]
      ensures stderr == old(stderr) + ["Connecting to Cloud Run MCP server..."]
    {
      timer := None;
      Connect(TimerAwaits);
    }

    /** The socket's 'message' event: a frame that parses is printed again on
        stdout; one that does not goes to stderr only. */
    method OnMessage(data: string)
      requires Valid() && exitCode.None? && ws.Some? && (ws.value == Open || ws.value == Closing)
      modifies this`stdout, this`stderr
      ensures stdout == old(stdout) + Forwarded(codec, [data])
      ensures codec.parse(data).Success? ==> stderr == old(stderr)
      ensures codec.parse(data).Failure? ==> stderr == old(stderr) + ["Error parsing message: " + codec.parse(data).error]
    {
      ForwardedSingle(codec, data);
      match codec.parse(data)
      case Success(m) =>
        stdout := stdout + [codec.stringify(m)];
      case Failure(e) =>
        stderr := stderr + ["Error parsing message: " + e];
    }

    /** A stdin line reaches every 'line' listener; each one parses it and
        sends it if the socket is OPEN, or reports why not. */
    method OnLine(line: string)
      requires Valid() && exitCode.None?
      modifies this`sent, this`stderr
      ensures ws == Some(Open) ==> sent == old(sent) + Repeated(lineListeners, Forwarded(codec, [line]))
      ensures ws != Some(Open) ==> sent == old(sent)
      ensures stderr == old(stderr) + Repeated(lineListeners, LineReport(codec, line, ws == Some(Open)))
    {
      ForwardedSingle(codec, line);
      var i := 0;
      while i < lineListeners
        invariant 0 <= i <= lineListeners
        invariant ws == Some(Open) ==> sent == old(sent) + Repeated(i, Forwarded(codec, [line]))
        invariant ws != Some(Open) ==> sent == old(sent)
        invariant stderr == old(stderr) + Repeated(i, LineReport(codec, line, ws == Some(Open)))
      {
        match codec.parse(line) {
          case Success(m) =>
            if ws.Some? && ws.value == Open {
              sent := sent + [codec.stringify(m)];
            } else {
              stderr := stderr + ["WebSocket not connected"];
            }
          case Failure(e) =>
            stderr := stderr + ["Error parsing stdin: " + e];
        }
        i := i + 1;
      }
    }
  }

  /** A first connect that fails under `start()`: the 'close' that `ws`
      emits right after the error runs `handleReconnect`, which schedules a
      reconnect and announces it, before the `catch` of `start()` logs the
      failure and exits with 1. */
  method FailedStart(cl: Client, message: string)
    requires cl.Valid() && cl.exitCode.None? && cl.ws.None? && cl.authToken != ""
    requires cl.reconnectAttempts == 0
    modifies cl
    ensures cl.exitCode == Some(1) && cl.reconnectAttempts == 1 && cl.timer == Some(old(cl.reconnectDelay))
    ensures cl.stderr == old(cl.stderr) + ["Connecting to Cloud Run MCP server...", "WebSocket error: " + message,
                                           "WebSocket connection closed", ReconnectNotice(old(cl.reconnectDelay), 1),
                                           StartFailure(message)]
  {
    cl.Start([], None);
    cl.OnError(message);
    cl.OnClose();
    cl.ConnectRejected();
  }

  /** One failed round of the reconnect loop: the timer fires, the new
      socket's handshake errors, and 'close' follows in the same turn, so
      `handleReconnect` schedules the next reconnect with the current delay
      before the timer's `catch` doubles it. */
  method FailedRound(cl: Client) returns (scheduled: nat)
    requires cl.Valid() && cl.exitCode.None? && cl.timer.Some? && cl.queued.None?
    requires cl.reconnectAttempts < MaxReconnectAttempts
    modifies cl
    ensures cl.Valid() && cl.exitCode.None? && cl.timer == Some(scheduled) && cl.queued.None?
    ensures cl.reconnectAttempts == old(cl.reconnectAttempts) + 1
    ensures scheduled == old(cl.reconnectDelay) && cl.reconnectDelay == NextDelay(scheduled)
  {
    cl.Fire();
    cl.OnError("connect ECONNREFUSED");
    cl.OnClose();
    scheduled := cl.timer.value;
    cl.ConnectRejected();
  }

  /** The reconnects of a connection that drops and never comes back, up
      to the attempt limit: each one waits `WrittenWait` of its index. */
  method RetryUntilLimit(cl: Client) returns (delays: seq<nat>)
    requires cl.Valid() && cl.exitCode.None? && cl.ws == Some(Open) && cl.queued.None?
    requires cl.reconnectAttempts == 0 && cl.reconnectDelay == InitialDelay
    modifies cl
    ensures cl.Valid() && cl.exitCode.None? && cl.queued.None? && cl.timer.Some?
    ensures cl.reconnectAttempts == MaxReconnectAttempts && cl.reconnectDelay == BackoffDelay(4)
    ensures |delays| == 5 && forall i :: 0 <= i < 5 ==> delays[i] == WrittenWait(i)
  {
    cl.OnClose();
    delays := [cl.timer.value];
    var k := 1;
    while k < 5
      invariant 1 <= k <= 5
      invariant cl.Valid() && cl.exitCode.None? && cl.queued.None? && cl.reconnectAttempts == k
      invariant |delays| == k && forall i :: 0 <= i < k ==> delays[i] == WrittenWait(i)
      invariant cl.timer == Some(delays[k - 1])
      invariant cl.reconnectDelay == BackoffDelay(k - 1)
    {
      var d := FailedRound(cl);
      delays := delays + [d];
      k := k + 1;
    }
  }

  /** A connection that drops and never comes back: the reconnects wait
      1000, 1000, 2000, 4000 and 8000 ms, one doubling behind the intended
      schedule, and the fifth failed reconnect's 'close' exits with 1 before
      its `catch` runs. */
  method FailingEpisode(cl: Client) returns (delays: seq<nat>)
    requires cl.Valid() && cl.exitCode.None? && cl.ws == Some(Open) && cl.queued.None?
    requires cl.reconnectAttempts == 0 && cl.reconnectDelay == InitialDelay
    modifies cl
    ensures |delays| == 5 && forall i :: 0 <= i < 5 ==> delays[i] == WrittenWait(i)
    ensures delays == [1000, 1000, 2000, 4000, 8000] && delays != IntendedWaits(5)
    ensures cl.exitCode == Some(1) && cl.timer.None? && cl.reconnectDelay == 16000
  {
    delays := RetryUntilLimit(cl);
    BackoffSchedule(4);
    IntendedSchedule();
    assert delays == [1000, 1000, 2000, 4000, 8000];
    cl.Fire();
    cl.OnError("connect ECONNREFUSED");
    cl.OnClose();
  }

  /** `handleReconnect` repaired so that each failure counts for the very
      next reconnect: the wait is scheduled with the current delay, and the
      delay is doubled there and then, right after `setTimeout`, rather than
      in the `catch` of the connect the timer starts. That `catch` then does
      nothing, so a failed round is this method alone. */
  class FixedReconnect {
    var reconnectAttempts: nat
    var reconnectDelay: nat
    var timer: Option<nat>
    var exitCode: Option<int>

    constructor ()
      ensures reconnectAttempts == 0 && reconnectDelay == InitialDelay
      ensures timer.None? && exitCode.None?
    {
      reconnectAttempts := 0;
      reconnectDelay := InitialDelay;
      timer := None;
      exitCode := None;
    }

    /** The repaired 'close' listener. */
    method HandleReconnect()
      requires exitCode.None?
      modifies this
      ensures old(reconnectAttempts) >= MaxReconnectAttempts ==>
                exitCode == Some(1) && timer == old(timer)
                && reconnectAttempts == old(reconnectAttempts) && reconnectDelay == old(reconnectDelay)
      ensures old(reconnectAttempts) < MaxReconnectAttempts ==>
                exitCode.None? && reconnectAttempts == old(reconnectAttempts) + 1
                && timer == Some(old(reconnectDelay)) && reconnectDelay == NextDelay(old(reconnectDelay))
    {
      if reconnectAttempts >= MaxReconnectAttempts {
        exitCode := Some(1);
        return;
      }
      reconnectAttempts := reconnectAttempts + 1;
      timer := Some(reconnectDelay);
      reconnectDelay := NextDelay(reconnectDelay);
    }
  }

  /** The repaired client on a connection that drops and never comes back:
      the five reconnects wait 1000, 2000, 4000, 8000 and 16000 ms, the
      intended schedule, and the sixth 'close' exits with 1. */
  method FixedFailingEpisode() returns (delays: seq<nat>, exitCode: Option<int>)
    ensures delays == IntendedWaits(5)
    ensures delays == [1000, 2000, 4000, 8000, 16000]
    ensures exitCode == Some(1)
  {
    var r := new FixedReconnect();
    delays := [];
    var k := 0;
    while k < MaxReconnectAttempts
      invariant 0 <= k <= MaxReconnectAttempts
      invariant |delays| == k
      invariant forall i :: 0 <= i < k ==> delays[i] == BackoffDelay(i)
      invariant r.reconnectAttempts == k && r.reconnectDelay == BackoffDelay(k) && r.exitCode.None?
    {
      r.HandleReconnect();
      delays := delays + [r.timer.value];
      k := k + 1;
    }
    r.HandleReconnect();
    exitCode := r.exitCode;
    forall i | 0 <= i < 5
      ensures delays[i] == IntendedWaits(5)[i]
    {
      BackoffClosedForm(i);
    }
    IntendedSchedule();
  }
}
