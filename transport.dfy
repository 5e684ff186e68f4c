/**
 * WebSocketTransport: the closed/connected flags, the held socket, the retry strategy, the
 * handler queue and the listener callbacks. OkHttp is the environment: its callbacks
 * (onOpen, onClosed, onFailure, onMessage) and the running of posted tasks are explicit steps.
 *
 * The pure part (TransportState and the *Step functions) is the specification; the class
 * WebSocketTransport implements it with fields updated in place.
 */
module Transport {
  import opened Wrappers
  import opened Messages
  import Backoff

  /** Identity of an OkHttp WebSocket object. */
  type SocketId = nat

  /** A task posted to the transport's Handler. */
  datatype Task =
    | OpenSocket              // newWebSocket(), posted by connect()
    | SendFrame(frame: string) // the send posted by sendMessage()

  /** What the transport does to OkHttp, in order. */
  datatype WireOp =
    | Dial                                              // okHttpClient.newWebSocket(url)
    | Frame(socket: SocketId, text: string)             // webSocket.send(text)
    | CloseFrame(socket: SocketId, code: int, reason: string) // webSocket.close(code, reason)
    | CancelAll                                         // dispatcher.cancelAll()

  /** Notifications to the transport's Listener. */
  datatype Notice =
    | OpenNotice
    | FailNotice
    | MessageNotice(message: Message)
    | DisconnectedNotice
    | CloseNotice

  /** What onMessage(text) did: returned early, threw from the mapper, or mapped and delivered. */
  datatype Delivery = Ignored | Thrown(error: MapError) | Delivered(message: Message)

  datatype TransportState = TransportState(
    closed: bool,
    connected: bool,
    socket: Option<SocketId>,
    hasListener: bool,
    retryCount: nat,
    queue: seq<Task>,
    jobs: seq<int>,        // delayed reconnect jobs, with their delays, in the order scheduled
    notices: seq<Notice>,
    wire: seq<WireOp>)

  /** The socket and the wire log: the part of the state a posted task changes. */
  datatype Link = Link(socket: Option<SocketId>, wire: seq<WireOp>)

  const CloseCode := 1000
  const CloseReason := "bye"
  const ClosedMessage := "transport closed"

  /** A fresh transport: nothing connected, retry count 1. */
  function Init(): TransportState
  {
    TransportState(false, false, None, false, 1, [], [], [], [])
  }

  /** A notification is recorded only when a listener has been set. */
  function Notify(s: TransportState, n: Notice): seq<Notice>
  {
    if s.hasListener then s.notices + [n] else s.notices
  }

  /** One posted task: newWebSocket() drops the held socket and dials; a send needs an open transport and a socket. */
  function RunTask(t: Task, closed: bool, l: Link): Link
  {
    match t
    case OpenSocket => Link(None, l.wire + [Dial])
    case SendFrame(f) =>
      if !closed && l.socket.Some? then Link(l.socket, l.wire + [Frame(l.socket.value, f)]) else l
  }

  /** Running a sequence of posted tasks in order. */
  function RunAll(ts: seq<Task>, closed: bool, l: Link): Link
  {
    if ts == [] then l else RunTask(ts[|ts| - 1], closed, RunAll(ts[..|ts| - 1], closed, l))
  }

  function ConnectStep(s: TransportState): TransportState
  {
    s.(hasListener := true, queue := s.queue + [OpenSocket])
  }

  /** The looper runs the oldest posted task. */
  function RunPostedStep(s: TransportState): TransportState
  {
    if s.queue == [] then s
    else
      var l := RunTask(s.queue[0], s.closed, Link(s.socket, s.wire));
      s.(queue := s.queue[1..], socket := l.socket, wire := l.wire)
  }

  /** The oldest delayed reconnect job runs (WebSocketTransport.kt lines 119-127). */
  function RunJobStep(s: TransportState): TransportState
  {
    if s.jobs == [] then s
    else if s.closed then s.(jobs := s.jobs[1..])
    else s.(jobs := s.jobs[1..], wire := s.wire + [CancelAll, Dial], socket := None, retryCount := s.retryCount + 1)
  }

  /** sendMessage: a closed transport fails with an illegal-state error; otherwise the encoded frame is posted and returned. */
  function SendMessageStep(s: TransportState, m: Message, encode: Message -> string): (TransportState, Result<string, string>)
  {
    if s.closed then (s, Failure(ClosedMessage))
    else (s.(queue := s.queue + [SendFrame(encode(m))]), Success(encode(m)))
  }

  /**
   * close(): sets mClosed, then waits until the posted close task has run; the Handler is FIFO, so every
   * task posted before it runs first (with mClosed already true).
   */
  function CloseStep(s: TransportState): TransportState
  {
    if s.closed then s
    else
      var l := RunAll(s.queue, true, Link(s.socket, s.wire));
      var wire := if l.socket.Some? then l.wire + [CloseFrame(l.socket.value, CloseCode, CloseReason)] else l.wire;
      s.(closed := true, queue := [], socket := None, wire := wire)
  }

  function OnOpenStep(s: TransportState, sock: SocketId): TransportState
  {
    if s.closed then s
    else s.(socket := Some(sock), connected := true, notices := Notify(s, OpenNotice), retryCount := 0)
  }

  function OnClosedStep(s: TransportState): TransportState
  {
    if s.closed then s
    else s.(closed := true, connected := false, retryCount := 0, notices := Notify(s, CloseNotice))
  }

  /** onFailure: schedule a reconnect while the strategy allows one, otherwise give up and report closure. */
  function OnFailureStep(s: TransportState): TransportState
  {
    if s.closed then s
    else
      var interval := Backoff.DefaultInterval(s.retryCount);
      if interval != -1 then
        s.(jobs := s.jobs + [interval], notices := Notify(s, if s.connected then FailNotice else DisconnectedNotice))
      else
        s.(closed := true, notices := Notify(s, CloseNotice), retryCount := 0)
  }

  function OnMessageStep(s: TransportState, text: string, parse: string -> Option<JsonObject>): (TransportState, Delivery)
  {
    if s.closed then (s, Ignored)
    else match MapMessage(text, parse)
      case Failure(e) => (s, Thrown(e))
      case Success(m) => (s.(notices := Notify(s, MessageNotice(m))), Delivered(m))
  }

  /** The notice a step appended, if any (every step appends at most one). */
  function Emitted(before: TransportState, after: TransportState): Option<Notice>
  {
    if |after.notices| == |before.notices| + 1 then Some(after.notices[|before.notices|]) else None
  }

  // ---------------------------------------------------------------------------------------------
  // Invariants and properties

  /** A close notice, if there is one, is the last notice. */
  predicate CloseIsFinal(ns: seq<Notice>)
  {
    forall i :: 0 <= i < |ns| && ns[i] == CloseNotice ==> i == |ns| - 1
  }

  function CloseCount(ns: seq<Notice>): nat
  {
    if ns == [] then 0 else CloseCount(ns[..|ns| - 1]) + (if ns[|ns| - 1] == CloseNotice then 1 else 0)
  }

  lemma {:induction false} CloseIsFinalAtMostOnce(ns: seq<Notice>)
    requires CloseIsFinal(ns)
    ensures CloseCount(ns) <= 1
    ensures CloseCount(ns) == 1 <==> CloseNotice in ns
  {
    if ns != [] {
      var front := ns[..|ns| - 1];
      assert CloseNotice !in front by {
        forall i | 0 <= i < |front| ensures front[i] != CloseNotice {
          assert ns[i] == front[i];
        }
      }
      CloseIsFinalAtMostOnce(front);
      assert ns == front + [ns[|ns| - 1]];
    }
  }

  /** What every reachable transport state satisfies. */
  ghost predicate Inv(s: TransportState)
  {
    CloseIsFinal(s.notices) && (CloseNotice in s.notices ==> s.closed)
  }

  lemma AppendKeepsCloseFinal(ns: seq<Notice>, n: Notice)
    requires CloseNotice !in ns
    ensures CloseIsFinal(ns + [n])
  {
  }

  /** Once closed, all four listener callbacks and the reconnect job leave the flags, the socket and the notices alone. */
  lemma ClosedTransportIsInert(s: TransportState, sock: SocketId, text: string, parse: string -> Option<JsonObject>, m: Message, encode: Message -> string)
    requires s.closed
    ensures OnOpenStep(s, sock) == s && OnClosedStep(s) == s && OnFailureStep(s) == s
    ensures OnMessageStep(s, text, parse) == (s, Ignored)
    ensures RunJobStep(s) == s.(jobs := if s.jobs == [] then [] else s.jobs[1..])
    ensures SendMessageStep(s, m, encode) == (s, Failure(ClosedMessage))
    ensures CloseStep(s) == s
    ensures s.queue != [] && s.queue[0].SendFrame? ==> RunPostedStep(s) == s.(queue := s.queue[1..])
  {
  }

  /** Posted tasks that run after close send nothing: they can only drop the socket and dial. */
  lemma {:induction false} RunAllClosedSendsNothing(ts: seq<Task>, l: Link)
    ensures var r := RunAll(ts, true, l);
      && |l.wire| <= |r.wire| && r.wire[..|l.wire|] == l.wire
      && (forall i :: |l.wire| <= i < |r.wire| ==> r.wire[i] == Dial)
      && (r.socket.Some? ==> r.socket == l.socket)
  {
    if ts != [] {
      RunAllClosedSendsNothing(ts[..|ts| - 1], l);
      var prev := RunAll(ts[..|ts| - 1], true, l);
      assert prev.wire[..|l.wire|] == l.wire;
      if ts[|ts| - 1].OpenSocket? {
        assert (prev.wire + [Dial])[..|l.wire|] == prev.wire[..|l.wire|];
      }
    }
  }

  /** close() is idempotent, leaves the transport closed and notifies nobody; an open transport also ends with no socket and an empty queue. */
  lemma CloseIdempotent(s: TransportState)
    ensures CloseStep(CloseStep(s)) == CloseStep(s)
    ensures CloseStep(s).closed && CloseStep(s).notices == s.notices
    ensures !s.closed ==> CloseStep(s).socket == None && CloseStep(s).queue == []
  {
  }

  /** After close(), the only socket that is closed is the one still held once the queued tasks ran. */
  lemma CloseSendsNoFrame(s: TransportState)
    requires !s.closed
    ensures var r := CloseStep(s);
      && |s.wire| <= |r.wire| && r.wire[..|s.wire|] == s.wire
      && (forall i :: |s.wire| <= i < |r.wire| ==> r.wire[i].Dial? || r.wire[i].CloseFrame?)
  {
    var l := RunAll(s.queue, true, Link(s.socket, s.wire));
    RunAllClosedSendsNothing(s.queue, Link(s.socket, s.wire));
    if l.socket.Some? {
      var w := l.wire + [CloseFrame(l.socket.value, CloseCode, CloseReason)];
      assert w[..|s.wire|] == l.wire[..|s.wire|];
    }
  }

  /** onFailure while not closed: retry with the strategy's interval, or give up with one close notice. */
  lemma FailurePolicy(s: TransportState)
    requires !s.closed && s.hasListener
    ensures var r := OnFailureStep(s);
      && (s.retryCount <= Backoff.Retries ==>
            && !r.closed && r.jobs == s.jobs + [Backoff.DefaultInterval(s.retryCount)]
            && Backoff.MinTimeout <= Backoff.DefaultInterval(s.retryCount) <= Backoff.MaxTimeout
            && r.notices == s.notices + [if s.connected then FailNotice else DisconnectedNotice]
            && r.retryCount == s.retryCount)
      && (s.retryCount > Backoff.Retries ==>
            && r.closed && r.jobs == s.jobs && r.retryCount == 0
            && r.notices == s.notices + [CloseNotice])
  {
    Backoff.IntervalBounds(Backoff.Retries, Backoff.Factor, Backoff.MinTimeout, Backoff.MaxTimeout, s.retryCount);
  }

  /** onOpen on an open transport stores the socket, sets connected, notifies and resets the retry count. */
  lemma OpenResetsRetries(s: TransportState, sock: SocketId)
    requires !s.closed
    ensures var r := OnOpenStep(s, sock);
      r.socket == Some(sock) && r.connected && r.retryCount == 0 && r.notices == Notify(s, OpenNotice) && !r.closed
  {
  }

  /** Everything the environment and the client can do to a transport. */
  datatype Input =
    | Connect
    | RunPosted
    | RunReconnectJob
    | Send(message: Message)
    | Close
    | SocketOpened(socket: SocketId)
    | SocketClosed
    | SocketFailed
    | SocketText(text: string)

  function Apply(s: TransportState, i: Input, encode: Message -> string, parse: string -> Option<JsonObject>): TransportState
  {
    match i
    case Connect => ConnectStep(s)
    case RunPosted => RunPostedStep(s)
    case RunReconnectJob => RunJobStep(s)
    case Send(m) => SendMessageStep(s, m, encode).0
    case Close => CloseStep(s)
    case SocketOpened(sock) => OnOpenStep(s, sock)
    case SocketClosed => OnClosedStep(s)
    case SocketFailed => OnFailureStep(s)
    case SocketText(text) => OnMessageStep(s, text, parse).0
  }

  function Run(s: TransportState, inputs: seq<Input>, encode: Message -> string, parse: string -> Option<JsonObject>): TransportState
    decreases inputs
  {
    if inputs == [] then s else Run(Apply(s, inputs[0], encode, parse), inputs[1..], encode, parse)
  }

  /** Every step appends at most one notice, and only while the transport is open; closed stays closed. */
  lemma ApplyKeepsInv(s: TransportState, i: Input, encode: Message -> string, parse: string -> Option<JsonObject>)
    requires Inv(s)
    ensures var r := Apply(s, i, encode, parse);
      && Inv(r)
      && (s.closed ==> r.closed && r.notices == s.notices)
      && (|r.notices| == |s.notices| || |r.notices| == |s.notices| + 1)
      && r.notices[..|s.notices|] == s.notices
  {
    if !s.closed {
      assert CloseNotice !in s.notices;
      assert forall n :: CloseIsFinal(s.notices + [n]) by {
        forall n ensures CloseIsFinal(s.notices + [n]) { AppendKeepsCloseFinal(s.notices, n); }
      }
    }
  }

  /** Over any run, notices only grow, and a closed transport stays closed and silent. */
  lemma {:induction false} RunKeepsInv(s: TransportState, inputs: seq<Input>, encode: Message -> string, parse: string -> Option<JsonObject>)
    requires Inv(s)
    decreases inputs
    ensures var r := Run(s, inputs, encode, parse);
      && Inv(r)
      && |s.notices| <= |r.notices| && r.notices[..|s.notices|] == s.notices
      && (s.closed ==> r.closed && r.notices == s.notices)
  {
    if inputs != [] {
      var next := Apply(s, inputs[0], encode, parse);
      ApplyKeepsInv(s, inputs[0], encode, parse);
      RunKeepsInv(next, inputs[1..], encode, parse);
      var r := Run(next, inputs[1..], encode, parse);
      assert r.notices[..|s.notices|] == r.notices[..|next.notices|][..|s.notices|];
    }
  }

  /** From a fresh transport, onClose reaches the listener at most once, and nothing follows it. */
  lemma AtMostOneCloseNotice(inputs: seq<Input>, encode: Message -> string, parse: string -> Option<JsonObject>)
    ensures CloseCount(Run(Init(), inputs, encode, parse).notices) <= 1
    ensures CloseIsFinal(Run(Init(), inputs, encode, parse).notices)
  {
    RunKeepsInv(Init(), inputs, encode, parse);
    CloseIsFinalAtMostOnce(Run(Init(), inputs, encode, parse).notices);
  }

  /** Running two input sequences one after the other is running their concatenation. */
  lemma {:induction false} RunAppend(s: TransportState, a: seq<Input>, b: seq<Input>, encode: Message -> string, parse: string -> Option<JsonObject>)
    decreases a
    ensures Run(s, a + b, encode, parse) == Run(Run(s, a, encode, parse), b, encode, parse)
  {
    if a != [] {
      assert (a + b)[0] == a[0] && (a + b)[1..] == a[1..] + b;
      RunAppend(Apply(s, a[0], encode, parse), a[1..], b, encode, parse);
    } else {
      assert a + b == b;
    }
  }

  /** A closed transport never puts a frame on the wire again: whatever runs, the wire only gains dials and cancels. */
  lemma {:induction false} ClosedRunSendsNoFrame(s: TransportState, inputs: seq<Input>, encode: Message -> string, parse: string -> Option<JsonObject>)
    requires s.closed
    decreases inputs
    ensures var r := Run(s, inputs, encode, parse);
      && r.closed
      && |s.wire| <= |r.wire| && r.wire[..|s.wire|] == s.wire
      && (forall i :: |s.wire| <= i < |r.wire| ==> !r.wire[i].Frame? && !r.wire[i].CloseFrame?)
  {
    if inputs != [] {
      var next := Apply(s, inputs[0], encode, parse);
      assert next.closed && |s.wire| <= |next.wire| && next.wire[..|s.wire|] == s.wire;
      assert forall i :: |s.wire| <= i < |next.wire| ==> next.wire[i] == Dial;
      ClosedRunSendsNoFrame(next, inputs[1..], encode, parse);
      var r := Run(next, inputs[1..], encode, parse);
      assert r.wire[..|s.wire|] == r.wire[..|next.wire|][..|s.wire|];
    }
  }

  /** k failures, each followed by the run of a reconnect job. */
  function FailRetry(k: nat): seq<Input>
  {
    if k == 0 then [] else FailRetry(k - 1) + [SocketFailed, RunReconnectJob]
  }

  /**
   * While the strategy allows every one of the k failures, the transport stays open and each job run
   * adds exactly one to the retry count.
   */
  lemma {:induction false} FailRetryCounts(s: TransportState, k: nat, encode: Message -> string, parse: string -> Option<JsonObject>)
    requires !s.closed && s.retryCount + k <= Backoff.Retries + 1
    ensures var r := Run(s, FailRetry(k), encode, parse);
      !r.closed && r.retryCount == s.retryCount + k && |r.jobs| == |s.jobs|
  {
    if k > 0 {
      FailRetryCounts(s, k - 1, encode, parse);
      var mid := Run(s, FailRetry(k - 1), encode, parse);
      RunAppend(s, FailRetry(k - 1), [SocketFailed, RunReconnectJob], encode, parse);
      Backoff.IntervalBounds(Backoff.Retries, Backoff.Factor, Backoff.MinTimeout, Backoff.MaxTimeout, mid.retryCount);
      var failed := OnFailureStep(mid);
      assert !failed.closed && failed.jobs == mid.jobs + [Backoff.DefaultInterval(mid.retryCount)];
      assert [SocketFailed, RunReconnectJob][1..] == [RunReconnectJob];
      assert Run(mid, [SocketFailed, RunReconnectJob], encode, parse) == RunJobStep(failed);
    }
  }

  /**
   * A connected-for-the-first-time transport (retry count 1) survives 10 failure-and-reconnect rounds and
   * gives up on the next failure; after a successful open (count 0) it survives 11.
   */
  lemma GivesUpAfterTenJobs(k: nat, sock: SocketId, t: TransportState, encode: Message -> string, parse: string -> Option<JsonObject>)
    ensures k <= 10 ==>
      var r := Run(ConnectStep(Init()), FailRetry(k), encode, parse);
      !r.closed && r.retryCount == 1 + k && (OnFailureStep(r).closed <==> k == 10)
    ensures !t.closed && k <= 11 ==>
      var r := Run(OnOpenStep(t, sock), FailRetry(k), encode, parse);
      !r.closed && r.retryCount == k && (OnFailureStep(r).closed <==> k == 11)
  {
    if k <= 10 {
      FailRetryCounts(ConnectStep(Init()), k, encode, parse);
      var r := Run(ConnectStep(Init()), FailRetry(k), encode, parse);
      Backoff.IntervalBounds(Backoff.Retries, Backoff.Factor, Backoff.MinTimeout, Backoff.MaxTimeout, r.retryCount);
    }
    if !t.closed && k <= 11 {
      FailRetryCounts(OnOpenStep(t, sock), k, encode, parse);
      var r := Run(OnOpenStep(t, sock), FailRetry(k), encode, parse);
      Backoff.IntervalBounds(Backoff.Retries, Backoff.Factor, Backoff.MinTimeout, Backoff.MaxTimeout, r.retryCount);
    }
  }

  // ---------------------------------------------------------------------------------------------
  // The transport object

  class WebSocketTransport {
    const url: string
    const encode: Message -> string               // Gson.toJson
    const parse: string -> Option<JsonObject>     // JSONObject(text)
    const strategy: Backoff.RetryStrategy

    var closed: bool                 // mClosed
    var connected: bool              // mConnected
    var socket: Option<SocketId>     // mWebSocket
    var hasListener: bool            // mListener != null
    var queue: seq<Task>             // tasks posted to mHandler
    var jobs: seq<int>               // reconnect jobs posted with a delay
    var notices: seq<Notice>         // calls made on mListener
    var wire: seq<WireOp>            // calls made on OkHttp

    ghost function State(): TransportState
      reads this, strategy
    {
      TransportState(closed, connected, socket, hasListener, strategy.retryCount, queue, jobs, notices, wire)
    }

    ghost predicate Valid()
      reads this, strategy
    {
      && strategy.retries == Backoff.Retries && strategy.factor == Backoff.Factor
      && strategy.minTimeout == Backoff.MinTimeout && strategy.maxTimeout == Backoff.MaxTimeout
      && Inv(State())
    }

    constructor (url: string, encode: Message -> string, parse: string -> Option<JsonObject>)
      ensures Valid() && fresh(strategy)
      ensures State() == Init()
      ensures this.url == url && this.encode == encode && this.parse == parse
    {
      this.url := url;
      this.encode := encode;
      this.parse := parse;
      strategy := new Backoff.RetryStrategy(Backoff.Retries, Backoff.Factor, Backoff.MinTimeout, Backoff.MaxTimeout);
      closed, connected, socket, hasListener := false, false, None, false;
      queue, jobs, notices, wire := [], [], [], [];
    }

    function IsClosed(): (r: bool)
      reads this
      ensures r == closed
    {
      closed
    }

    method Connect()
      requires Valid()
      modifies this
      ensures Valid() && State() == ConnectStep(old(State()))
    {
      hasListener := true;
      queue := queue + [OpenSocket];
    }

    /** The looper takes the oldest posted task and runs it. */
    method RunPosted()
      requires Valid()
      modifies this
      ensures Valid() && State() == RunPostedStep(old(State()))
    {
      if queue == [] {
        return;
      }
      var task := queue[0];
      queue := queue[1..];
      match task {
        case OpenSocket =>
          socket := None;
          wire := wire + [Dial];
        case SendFrame(frame) =>
          if closed {
            return;
          }
          if socket.Some? {
            wire := wire + [Frame(socket.value, frame)];
          }
      }
    }

    /** The oldest delayed reconnect job runs. */
    method RunReconnectJob()
      requires Valid()
      modifies this, strategy
      ensures Valid() && State() == RunJobStep(old(State()))
    {
      if jobs == [] {
        return;
      }
      jobs := jobs[1..];
      if closed {
        return;
      }
      wire := wire + [CancelAll];
      socket := None;
      wire := wire + [Dial];
      strategy.Retried();
    }

    method SendMessage(m: Message) returns (r: Result<string, string>)
      requires Valid()
      modifies this
      ensures Valid()
      ensures (State(), r) == SendMessageStep(old(State()), m, encode)
    {
      if closed {
        return Failure(ClosedMessage);
      }
      var payload := encode(m);
      queue := queue + [SendFrame(payload)];
      return Success(payload);
    }

    method Close()
      requires Valid()
      modifies this
      ensures Valid() && State() == CloseStep(old(State()))
    {
      if closed {
        return;
      }
      closed := true;
      // The close task is posted behind everything already queued; the caller waits for it.
      ghost var pending := queue;
      ghost var start := Link(socket, wire);
      while queue != []
        invariant |queue| <= |pending| && queue == pending[|pending| - |queue|..]
        invariant Link(socket, wire) == RunAll(pending[..|pending| - |queue|], true, start)
        invariant closed && Valid()
        invariant notices == old(notices) && jobs == old(jobs) && connected == old(connected)
        invariant hasListener == old(hasListener)
        decreases |queue|
      {
        ghost var done := |pending| - |queue|;
        assert pending[..done + 1][..done] == pending[..done];
        assert pending[done] == queue[0];
        var task := queue[0];
        queue := queue[1..];
        match task {
          case OpenSocket =>
            socket := None;
            wire := wire + [Dial];
          case SendFrame(_) =>
        }
      }
      assert pending[..|pending|] == pending;
      if socket.Some? {
        wire := wire + [CloseFrame(socket.value, CloseCode, CloseReason)];
        socket := None;
      }
    }

    method OnOpen(sock: SocketId) returns (emitted: Option<Notice>)
      requires Valid()
      modifies this, strategy
      ensures Valid() && State() == OnOpenStep(old(State()), sock)
      ensures emitted == Emitted(old(State()), State())
    {
      if closed {
        return None;
      }
      socket := Some(sock);
      connected := true;
      emitted := None;
      if hasListener {
        notices := notices + [OpenNotice];
        emitted := Some(OpenNotice);
      }
      strategy.Reset();
    }

    method OnClosed() returns (emitted: Option<Notice>)
      requires Valid()
      modifies this, strategy
      ensures Valid() && State() == OnClosedStep(old(State()))
      ensures emitted == Emitted(old(State()), State())
    {
      if closed {
        return None;
      }
      closed := true;
      connected := false;
      strategy.Reset();
      emitted := None;
      if hasListener {
        notices := notices + [CloseNotice];
        emitted := Some(CloseNotice);
      }
    }

    method OnFailure() returns (emitted: Option<Notice>)
      requires Valid()
      modifies this, strategy
      ensures Valid() && State() == OnFailureStep(old(State()))
      ensures emitted == Emitted(old(State()), State())
    {
      if closed {
        return None;
      }
      emitted := None;
      // scheduleReconnect()
      var interval := strategy.ReconnectInterval();
      if interval != -1 {
        jobs := jobs + [interval];
        if hasListener {
          var n := if connected then FailNotice else DisconnectedNotice;
          notices := notices + [n];
          emitted := Some(n);
        }
      } else {
        closed := true;
        if hasListener {
          notices := notices + [CloseNotice];
          emitted := Some(CloseNotice);
        }
        strategy.Reset();
      }
    }

    method OnMessage(text: string) returns (d: Delivery, emitted: Option<Notice>)
      requires Valid()
      modifies this
      ensures Valid() && (State(), d) == OnMessageStep(old(State()), text, parse)
      ensures emitted == Emitted(old(State()), State())
    {
      if closed {
        return Ignored, None;
      }
      var mapped := MapMessage(text, parse);
      if mapped.Failure? {
        return Thrown(mapped.error), None;
      }
      d, emitted := Delivered(mapped.value), None;
      if hasListener {
        notices := notices + [MessageNotice(mapped.value)];
        emitted := Some(MessageNotice(mapped.value));
      }
    }
  }
}
