/**
 * ThinWS: the request registry mSends with one timeout timer per request proxy, response
 * correlation, the closed/connected flags and the forwarding of transport notices to the
 * owner's listener. Timers and the transport are driven by explicit steps.
 */
module ThinWSClient {
  import opened Wrappers
  import opened Messages
  import opened Transport

  /** A RequestHandlerProxy: the request id it was registered under, and its timeout in milliseconds. */
  datatype Proxy = Proxy(requestId: string, timeout: nat)

  /** A call on a request's handler; `reg` is the proxy's registration number. */
  datatype Completion = Resolved(reg: nat, response: Message) | Rejected(reg: nat, reason: string)

  /** Calls made on the owner's ThinWS.Listener. */
  datatype ClientEvent = ClientOpen | ClientFail | ClientDisconnected | ClientClose

  /** The client's identity and the two foreign codecs. */
  datatype Config = Config(connectionID: string, encode: Message -> string, parse: string -> Option<JsonObject>)

  datatype ClientState = ClientState(
    closed: bool,
    connected: bool,
    sends: map<string, nat>,     // mSends: request id -> registration number of its proxy
    proxies: seq<Proxy>,         // every proxy ever created, by registration number
    armed: set<nat>,             // proxies whose timeout is still posted
    completions: seq<Completion>,
    events: seq<ClientEvent>,
    transport: TransportState)

  const RequestTimeout := "request timeout"

  /** The handshake sent on every open. */
  function ConnectMessage(connectionID: string, messageID: string): Message
  {
    Message(MessageConnect, None, Some(connectionID), messageID, None)
  }

  /** A new client: its constructor has already called transport.connect(this). */
  function ClientInit(): ClientState
  {
    ClientState(false, false, map[], [], {}, [], [], ConnectStep(Init()))
  }

  /** ThinWS.close(): only forwards to the transport, and only when it is still open. */
  function ClientCloseStep(s: ClientState): ClientState
  {
    if s.transport.closed then s else s.(transport := CloseStep(s.transport))
  }

  /** The private request(): send first, then register a fresh proxy under the message id. */
  function RequestStep(s: ClientState, m: Message, timeout: nat, cfg: Config): (ClientState, Result<nat, string>)
  {
    var (t, sent) := SendMessageStep(s.transport, m, cfg.encode);
    if sent.Failure? then (s, Failure(sent.error))
    else
      var reg := |s.proxies|;
      (s.(transport := t,
          proxies := s.proxies + [Proxy(m.messageID, timeout)],
          armed := s.armed + {reg},
          sends := s.sends[m.messageID := reg]),
       Success(reg))
  }

  /** RequestHandlerProxy.run(): the timer fires, removes the proxy's key and rejects its handler. */
  function FireTimeoutStep(s: ClientState, reg: nat): ClientState
    requires reg < |s.proxies|
  {
    s.(armed := s.armed - {reg},
       sends := s.sends - {s.proxies[reg].requestId},
       completions := s.completions + [Rejected(reg, RequestTimeout)])
  }

  /** handleResponse(): an unknown id is dropped; a known one is removed, its timer cancelled, its handler called once. */
  function HandleResponseStep(s: ClientState, response: Message): ClientState
  {
    if response.messageID !in s.sends then s
    else
      var reg := s.sends[response.messageID];
      var outcome := if response.messageType == MessageError then Rejected(reg, response.messageType)
                     else Resolved(reg, response);
      s.(sends := s.sends - {response.messageID},
         armed := s.armed - {reg},
         completions := s.completions + [outcome])
  }

  /** onOpen(): a `connect` handshake is sent before the owner hears of the open; a throwing send skips the notification. */
  function ClientOnOpenStep(s: ClientState, freshId: string, cfg: Config): ClientState
  {
    if s.closed then s
    else
      var (t, sent) := SendMessageStep(s.transport, ConnectMessage(cfg.connectionID, freshId), cfg.encode);
      if sent.Failure? then s.(connected := true)
      else s.(connected := true, transport := t, events := s.events + [ClientOpen])
  }

  function ClientOnFailStep(s: ClientState): ClientState
  {
    if s.closed then s else s.(connected := false, events := s.events + [ClientFail])
  }

  function ClientOnMessageStep(s: ClientState, m: Message): ClientState
  {
    if s.closed then s else HandleResponseStep(s, m)
  }

  function ClientOnDisconnectedStep(s: ClientState): ClientState
  {
    if s.closed then s else s.(connected := false, events := s.events + [ClientDisconnected])
  }

  function ClientOnCloseStep(s: ClientState): ClientState
  {
    if s.closed then s else s.(closed := true, connected := false, events := s.events + [ClientClose])
  }

  /** The transport calling its listener, which is this client. */
  function Dispatch(s: ClientState, n: Option<Notice>, freshId: string, cfg: Config): ClientState
  {
    match n
    case None => s
    case Some(OpenNotice) => ClientOnOpenStep(s, freshId, cfg)
    case Some(FailNotice) => ClientOnFailStep(s)
    case Some(MessageNotice(m)) => ClientOnMessageStep(s, m)
    case Some(DisconnectedNotice) => ClientOnDisconnectedStep(s)
    case Some(CloseNotice) => ClientOnCloseStep(s)
  }

  /** What the environment can do to a client (freshId stands for UUID.randomUUID() of the handshake). */
  datatype ClientInput =
    | Request(message: Message, timeout: nat)
    | FireTimeout(reg: nat)
    | Close
    | RunPosted
    | RunReconnectJob
    | SocketOpened(socket: SocketId, freshId: string)
    | SocketClosed
    | SocketFailed
    | SocketText(text: string)

  /** One transport step followed by the notice it emitted, delivered to the client. */
  function TransportThenDispatch(s: ClientState, t: TransportState, freshId: string, cfg: Config): ClientState
  {
    Dispatch(s.(transport := t), Emitted(s.transport, t), freshId, cfg)
  }

  function ApplyClient(s: ClientState, i: ClientInput, cfg: Config): ClientState
  {
    match i
    case Request(m, timeout) => RequestStep(s, m, timeout, cfg).0
    case FireTimeout(reg) => if reg in s.armed && reg < |s.proxies| then FireTimeoutStep(s, reg) else s
    case Close => ClientCloseStep(s)
    case RunPosted => s.(transport := RunPostedStep(s.transport))
    case RunReconnectJob => s.(transport := RunJobStep(s.transport))
    case SocketOpened(sock, freshId) => TransportThenDispatch(s, OnOpenStep(s.transport, sock), freshId, cfg)
    case SocketClosed => TransportThenDispatch(s, OnClosedStep(s.transport), "", cfg)
    case SocketFailed => TransportThenDispatch(s, OnFailureStep(s.transport), "", cfg)
    case SocketText(text) => TransportThenDispatch(s, OnMessageStep(s.transport, text, cfg.parse).0, "", cfg)
  }

  function RunClient(s: ClientState, inputs: seq<ClientInput>, cfg: Config): ClientState
    decreases inputs
  {
    if inputs == [] then s else RunClient(ApplyClient(s, inputs[0], cfg), inputs[1..], cfg)
  }

  // ---------------------------------------------------------------------------------------------
  // Invariants

  ghost predicate Completed(cs: seq<Completion>, reg: nat)
  {
    exists i :: 0 <= i < |cs| && cs[i].reg == reg
  }

  /**
   * The registry: each key maps to a live, armed proxy registered under that key; timers belong to
   * known proxies; a completed proxy is never armed, is completed once, and every proxy is armed or completed.
   */
  ghost predicate RegistryInv(s: ClientState)
  {
    && (forall k :: k in s.sends ==>
          s.sends[k] < |s.proxies| && s.proxies[s.sends[k]].requestId == k && s.sends[k] in s.armed)
    && (forall r :: r in s.armed ==> r < |s.proxies|)
    && (forall i :: 0 <= i < |s.completions| ==>
          s.completions[i].reg < |s.proxies| && s.completions[i].reg !in s.armed)
    && (forall i, j :: 0 <= i < j < |s.completions| ==> s.completions[i].reg != s.completions[j].reg)
    && (forall r: nat :: r < |s.proxies| && r !in s.armed ==> Completed(s.completions, r))
  }

  /** An owner's onClose, if delivered, is the last listener call and means the client is closed. */
  ghost predicate EventsInv(s: ClientState)
  {
    && (forall i :: 0 <= i < |s.events| && s.events[i] == ClientClose ==> i == |s.events| - 1)
    && (ClientClose in s.events ==> s.closed)
  }

  ghost predicate ClientInv(s: ClientState)
  {
    Inv(s.transport) && RegistryInv(s) && EventsInv(s)
  }

  function CountCompletions(cs: seq<Completion>, reg: nat): nat
  {
    if cs == [] then 0
    else CountCompletions(cs[..|cs| - 1], reg) + (if cs[|cs| - 1].reg == reg then 1 else 0)
  }

  function CountClientClose(es: seq<ClientEvent>): nat
  {
    if es == [] then 0 else CountClientClose(es[..|es| - 1]) + (if es[|es| - 1] == ClientClose then 1 else 0)
  }

  // ---------------------------------------------------------------------------------------------
  // Properties of single operations

  /** A response whose id is not pending changes nothing: no map entry, no timer, no handler call. */
  lemma UnmatchedResponseIsNoOp(s: ClientState, response: Message)
    requires response.messageID !in s.sends
    ensures HandleResponseStep(s, response) == s
  {
  }

  /**
   * A matched response removes exactly its own key, cancels exactly that proxy's timer and makes one
   * handler call: reject with the type when the type is "error", resolve with the response otherwise.
   */
  lemma MatchedResponseCompletesOnce(s: ClientState, response: Message)
    requires RegistryInv(s) && response.messageID in s.sends
    ensures var r, reg := HandleResponseStep(s, response), s.sends[response.messageID];
      && s.proxies[reg].requestId == response.messageID
      && r.sends == s.sends - {response.messageID}
      && r.armed == s.armed - {reg} && reg in s.armed
      && r.completions == s.completions + [
           if response.messageType == MessageError then Rejected(reg, MessageError) else Resolved(reg, response)]
      && !Completed(s.completions, reg)
      && r.proxies == s.proxies && r.events == s.events && r.transport == s.transport
  {
  }

  /** A fired timeout removes its key and rejects with "request timeout"; a later response for that id is dropped. */
  lemma TimeoutThenResponseDropped(s: ClientState, reg: nat, response: Message)
    requires RegistryInv(s) && reg in s.armed
    requires response.messageID == s.proxies[reg].requestId
    ensures var r := FireTimeoutStep(s, reg);
      && r.completions == s.completions + [Rejected(reg, RequestTimeout)]
      && response.messageID !in r.sends
      && HandleResponseStep(r, response) == r
  {
  }

  /** request(): a closed transport throws and the registry is untouched; otherwise the frame is queued first and the id is (re)bound to a new armed proxy. */
  lemma RequestRegisters(s: ClientState, m: Message, timeout: nat, cfg: Config)
    ensures var (r, res) := RequestStep(s, m, timeout, cfg);
      && (s.transport.closed ==> r == s && res == Failure(ClosedMessage))
      && (!s.transport.closed ==>
            && res == Success(|s.proxies|)
            && r.transport.queue == s.transport.queue + [SendFrame(cfg.encode(m))]
            && r.sends == s.sends[m.messageID := |s.proxies|]
            && r.armed == s.armed + {|s.proxies|}
            && r.proxies == s.proxies + [Proxy(m.messageID, timeout)]
            && r.completions == s.completions && r.events == s.events)
  {
  }

  /** Registering an id that is pending replaces its entry; the replaced proxy keeps its timer. */
  lemma DuplicateIdOverwrites(s: ClientState, m: Message, timeout: nat, cfg: Config)
    requires RegistryInv(s) && !s.transport.closed && m.messageID in s.sends
    ensures var r := RequestStep(s, m, timeout, cfg).0;
      && r.sends[m.messageID] != s.sends[m.messageID]
      && s.sends[m.messageID] in r.armed
      && |r.sends| == |s.sends|
  {
  }

  /** onOpen on an open client queues the handshake carrying its connection id, then notifies the owner; mSends is not touched. */
  lemma OpenSendsHandshake(s: ClientState, freshId: string, cfg: Config)
    requires !s.closed && !s.transport.closed
    ensures var r := ClientOnOpenStep(s, freshId, cfg);
      && r.transport.queue == s.transport.queue + [SendFrame(cfg.encode(ConnectMessage(cfg.connectionID, freshId)))]
      && r.events == s.events + [ClientOpen]
      && r.connected
      && r.sends == s.sends && r.armed == s.armed && r.completions == s.completions
  {
  }

  /** After the closed flag is set, every transport callback leaves the client as it is. */
  lemma ClosedClientIgnoresCallbacks(s: ClientState, n: Option<Notice>, freshId: string, cfg: Config)
    requires s.closed
    ensures Dispatch(s, n, freshId, cfg) == s
  {
  }

  /** close() leaves the flags and the registry alone (pending requests wait for their timers) and closes the transport. */
  lemma CloseKeepsRegistry(s: ClientState)
    ensures var r := ClientCloseStep(s);
      && r.closed == s.closed && r.sends == s.sends && r.armed == s.armed
      && r.completions == s.completions && r.events == s.events
      && r.transport.closed
      && ClientCloseStep(r) == r
  {
  }

  // ---------------------------------------------------------------------------------------------
  // Invariant preservation and lifetime properties

  lemma CompletedExtends(cs: seq<Completion>, c: Completion, reg: nat)
    requires Completed(cs, reg)
    ensures Completed(cs + [c], reg)
  {
    var i :| 0 <= i < |cs| && cs[i].reg == reg;
    assert (cs + [c])[i].reg == reg;
  }

  lemma CompletedAppendSelf(cs: seq<Completion>, c: Completion)
    ensures Completed(cs + [c], c.reg)
  {
    assert (cs + [c])[|cs|].reg == c.reg;
  }

  /** Completing an armed proxy (by timer or by response) keeps the registry invariant. */
  lemma {:induction false} CompleteKeepsRegistryInv(s: ClientState, reg: nat, key: string, c: Completion)
    requires RegistryInv(s) && reg in s.armed && c.reg == reg && s.proxies[reg].requestId == key
    ensures RegistryInv(s.(sends := s.sends - {key}, armed := s.armed - {reg}, completions := s.completions + [c]))
  {
    var r := s.(sends := s.sends - {key}, armed := s.armed - {reg}, completions := s.completions + [c]);
    forall k | k in r.sends ensures r.sends[k] in r.armed {
      assert s.proxies[s.sends[k]].requestId == k;
    }
    forall x: nat | x < |r.proxies| && x !in r.armed ensures Completed(r.completions, x) {
      if x == reg {
        CompletedAppendSelf(s.completions, c);
      } else {
        CompletedExtends(s.completions, c, x);
      }
    }
  }

  lemma RequestKeepsRegistryInv(s: ClientState, m: Message, timeout: nat, cfg: Config)
    requires RegistryInv(s)
    ensures RegistryInv(RequestStep(s, m, timeout, cfg).0)
  {
  }

  lemma {:induction false} DispatchKeepsInv(s: ClientState, n: Option<Notice>, freshId: string, cfg: Config)
    requires ClientInv(s)
    ensures var r := Dispatch(s, n, freshId, cfg);
      && ClientInv(r)
      && r.transport.notices == s.transport.notices
      && (|r.events| == |s.events| || |r.events| == |s.events| + 1)
      && r.events[..|s.events|] == s.events
      && (s.closed ==> r == s)
      && r.completions[..|s.completions|] == s.completions
  {
    if !s.closed && n.Some? && n.value.MessageNotice? && n.value.message.messageID in s.sends {
      var m := n.value.message;
      var reg := s.sends[m.messageID];
      var c := if m.messageType == MessageError then Rejected(reg, m.messageType) else Resolved(reg, m);
      CompleteKeepsRegistryInv(s, reg, m.messageID, c);
    }
    if !s.closed {
      assert ClientClose !in s.events;
    }
  }

  /** A transport step that keeps the transport invariant and emits nothing keeps the client invariant. */
  lemma TransportOnlyKeepsInv(s: ClientState, t: TransportState)
    requires ClientInv(s) && Inv(t)
    ensures ClientInv(s.(transport := t))
  {
  }

  /** A transport callback followed by the delivery of what it emitted keeps the client invariant. */
  lemma TransportThenDispatchKeepsInv(s: ClientState, t: TransportState, freshId: string, cfg: Config)
    requires ClientInv(s) && Inv(t)
    ensures var r := TransportThenDispatch(s, t, freshId, cfg);
      && ClientInv(r)
      && (|r.events| == |s.events| || |r.events| == |s.events| + 1)
      && r.events[..|s.events|] == s.events
      && (s.closed ==> r.closed && r.events == s.events)
      && |s.completions| <= |r.completions| && r.completions[..|s.completions|] == s.completions
  {
    TransportOnlyKeepsInv(s, t);
    DispatchKeepsInv(s.(transport := t), Emitted(s.transport, t), freshId, cfg);
  }

  /** Every client step keeps the invariant, appends at most one owner event, and never rewrites history. */
  lemma {:induction false} ApplyClientKeepsInv(s: ClientState, i: ClientInput, cfg: Config)
    requires ClientInv(s)
    ensures var r := ApplyClient(s, i, cfg);
      && ClientInv(r)
      && (|r.events| == |s.events| || |r.events| == |s.events| + 1)
      && r.events[..|s.events|] == s.events
      && (s.closed ==> r.closed && r.events == s.events)
      && |s.completions| <= |r.completions| && r.completions[..|s.completions|] == s.completions
  {
    match i {
      case Request(m, timeout) =>
        RequestKeepsRegistryInv(s, m, timeout, cfg);
      case FireTimeout(reg) =>
        if reg in s.armed && reg < |s.proxies| {
          CompleteKeepsRegistryInv(s, reg, s.proxies[reg].requestId, Rejected(reg, RequestTimeout));
        }
      case Close =>
        ApplyKeepsInv(s.transport, Transport.Close, cfg.encode, cfg.parse);
        TransportOnlyKeepsInv(s, CloseStep(s.transport));
      case RunPosted =>
        ApplyKeepsInv(s.transport, Transport.RunPosted, cfg.encode, cfg.parse);
        TransportOnlyKeepsInv(s, RunPostedStep(s.transport));
      case RunReconnectJob =>
        ApplyKeepsInv(s.transport, Transport.RunReconnectJob, cfg.encode, cfg.parse);
        TransportOnlyKeepsInv(s, RunJobStep(s.transport));
      case SocketOpened(sock, freshId) =>
        ApplyKeepsInv(s.transport, Transport.SocketOpened(sock), cfg.encode, cfg.parse);
        TransportThenDispatchKeepsInv(s, OnOpenStep(s.transport, sock), freshId, cfg);
      case SocketClosed =>
        ApplyKeepsInv(s.transport, Transport.SocketClosed, cfg.encode, cfg.parse);
        TransportThenDispatchKeepsInv(s, OnClosedStep(s.transport), "", cfg);
      case SocketFailed =>
        ApplyKeepsInv(s.transport, Transport.SocketFailed, cfg.encode, cfg.parse);
        TransportThenDispatchKeepsInv(s, OnFailureStep(s.transport), "", cfg);
      case SocketText(text) =>
        ApplyKeepsInv(s.transport, Transport.SocketText(text), cfg.encode, cfg.parse);
        TransportThenDispatchKeepsInv(s, OnMessageStep(s.transport, text, cfg.parse).0, "", cfg);
    }
  }

  lemma {:induction false} RunClientKeepsInv(s: ClientState, inputs: seq<ClientInput>, cfg: Config)
    requires ClientInv(s)
    decreases inputs
    ensures var r := RunClient(s, inputs, cfg);
      && ClientInv(r)
      && |s.events| <= |r.events| && r.events[..|s.events|] == s.events
      && (s.closed ==> r.closed && r.events == s.events)
      && |s.completions| <= |r.completions| && r.completions[..|s.completions|] == s.completions
  {
    if inputs != [] {
      var next := ApplyClient(s, inputs[0], cfg);
      ApplyClientKeepsInv(s, inputs[0], cfg);
      RunClientKeepsInv(next, inputs[1..], cfg);
      var r := RunClient(next, inputs[1..], cfg);
      assert r.events[..|s.events|] == r.events[..|next.events|][..|s.events|];
      assert r.completions[..|s.completions|] == r.completions[..|next.completions|][..|s.completions|];
    }
  }

  lemma {:induction false} CountCompletionsDistinct(cs: seq<Completion>, reg: nat)
    requires forall i, j :: 0 <= i < j < |cs| ==> cs[i].reg != cs[j].reg
    ensures CountCompletions(cs, reg) == (if Completed(cs, reg) then 1 else 0)
  {
    if cs != [] {
      var front := cs[..|cs| - 1];
      CountCompletionsDistinct(front, reg);
      if Completed(front, reg) {
        var i :| 0 <= i < |front| && front[i].reg == reg;
        assert cs[i].reg == reg;
        CompletedExtends(front, cs[|cs| - 1], reg);
        assert front + [cs[|cs| - 1]] == cs;
      } else if cs[|cs| - 1].reg == reg {
        CompletedAppendSelf(front, cs[|cs| - 1]);
        assert front + [cs[|cs| - 1]] == cs;
      } else {
        forall i | 0 <= i < |cs| ensures cs[i].reg != reg {
          if i < |front| {
            assert cs[i] == front[i];
          }
        }
      }
    }
  }

  /**
   * Exactly-once completion: in any state the invariant allows, a proxy has had no handler call while
   * its timer is armed and exactly one once it is not; each timer firing or matching response is the one call.
   */
  lemma CompletedExactlyOnce(s: ClientState, reg: nat)
    requires RegistryInv(s) && reg < |s.proxies|
    ensures CountCompletions(s.completions, reg) == (if reg in s.armed then 0 else 1)
  {
    CountCompletionsDistinct(s.completions, reg);
    if reg in s.armed {
      assert !Completed(s.completions, reg);
    }
  }

  lemma {:induction false} ClientCloseFinalAtMostOnce(es: seq<ClientEvent>)
    requires forall i :: 0 <= i < |es| && es[i] == ClientClose ==> i == |es| - 1
    ensures CountClientClose(es) <= 1
    ensures CountClientClose(es) == 1 <==> ClientClose in es
  {
    if es != [] {
      var front := es[..|es| - 1];
      assert ClientClose !in front by {
        forall i | 0 <= i < |front| ensures front[i] != ClientClose {
          assert es[i] == front[i];
        }
      }
      ClientCloseFinalAtMostOnce(front);
      assert es == front + [es[|es| - 1]];
    }
  }

  lemma InitSatisfiesInv()
    ensures ClientInv(ClientInit())
  {
  }

  /**
   * Over any run of a new client: the owner's onClose is delivered at most once and nothing after it,
   * and every request proxy has been completed at most once (exactly once when its timer is gone).
   */
  lemma ClientLifetime(inputs: seq<ClientInput>, cfg: Config, reg: nat)
    ensures var r := RunClient(ClientInit(), inputs, cfg);
      && CountClientClose(r.events) <= 1
      && (reg < |r.proxies| ==> CountCompletions(r.completions, reg) == (if reg in r.armed then 0 else 1))
      && (reg >= |r.proxies| ==> CountCompletions(r.completions, reg) == 0)
  {
    InitSatisfiesInv();
    RunClientKeepsInv(ClientInit(), inputs, cfg);
    var r := RunClient(ClientInit(), inputs, cfg);
    ClientCloseFinalAtMostOnce(r.events);
    CountCompletionsDistinct(r.completions, reg);
    if reg < |r.proxies| {
      CompletedExactlyOnce(r, reg);
    }
  }

  // ---------------------------------------------------------------------------------------------
  // The client object

  class ThinWS {
    const connectionID: string
    const transport: WebSocketTransport

    var closed: bool                  // mClosed
    var connected: bool               // mConnected
    var sends: map<string, nat>       // mSends
    var proxies: seq<Proxy>           // the RequestHandlerProxy objects created so far
    var armed: set<nat>               // proxies posted on mTimerCheckHandler
    var completions: seq<Completion>  // calls on request handlers
    var events: seq<ClientEvent>      // calls on the owner's listener

    function Cfg(): Config
    {
      Config(connectionID, transport.encode, transport.parse)
    }

    ghost function State(): ClientState
      reads this, transport, transport.strategy
    {
      ClientState(closed, connected, sends, proxies, armed, completions, events, transport.State())
    }

    ghost predicate Valid()
      reads this, transport, transport.strategy
    {
      transport.Valid() && ClientInv(State())
    }

    constructor (socketUrl: string, connectionID: string, encode: Message -> string, parse: string -> Option<JsonObject>)
      ensures Valid() && State() == ClientInit()
      ensures Cfg() == Config(connectionID, encode, parse)
      ensures fresh(transport) && fresh(transport.strategy)
    {
      this.connectionID := connectionID;
      transport := new WebSocketTransport(socketUrl, encode, parse);
      closed, connected := false, false;
      sends, proxies, armed, completions, events := map[], [], {}, [], [];
      new;
      // handleTransport(): the transport was just created, so it is not closed and connect() is called.
      transport.Connect();
    }

    method Close()
      requires Valid()
      modifies transport
      ensures Valid() && State() == ClientCloseStep(old(State()))
    {
      if !transport.IsClosed() {
        transport.Close();
      }
    }

    /** The private request(message, handler); the result is the new proxy's registration number. */
    method Request(m: Message, timeout: nat) returns (r: Result<nat, string>)
      requires Valid() && timeout > 0
      modifies this, transport
      ensures Valid() && (State(), r) == RequestStep(old(State()), m, timeout, Cfg())
    {
      var requestId := m.messageID;
      var payload := transport.SendMessage(m);
      if payload.Failure? {
        return Failure(payload.error);
      }
      var reg := |proxies|;
      proxies := proxies + [Proxy(requestId, timeout)];
      armed := armed + {reg};
      sends := sends[requestId := reg];
      RequestKeepsRegistryInv(old(State()), m, timeout, Cfg());
      return Success(reg);
    }

    /** The main looper runs a proxy's timeout; only a proxy whose timer is still posted can fire. */
    method FireTimeout(reg: nat)
      requires Valid() && reg in armed
      modifies this
      ensures Valid() && State() == FireTimeoutStep(old(State()), reg)
    {
      CompleteKeepsRegistryInv(State(), reg, proxies[reg].requestId, Rejected(reg, RequestTimeout));
      armed := armed - {reg};
      sends := sends - {proxies[reg].requestId};
      completions := completions + [Rejected(reg, RequestTimeout)];
    }

    method HandleResponse(response: Message)
      requires Valid()
      modifies this
      ensures Valid() && State() == HandleResponseStep(old(State()), response)
    {
      if response.messageID !in sends {
        return;
      }
      var reg := sends[response.messageID];
      sends := sends - {response.messageID};
      var outcome := if response.messageType == MessageError then Rejected(reg, response.messageType)
                     else Resolved(reg, response);
      CompleteKeepsRegistryInv(old(State()), reg, response.messageID, outcome);
      armed := armed - {reg};                // sent.close()
      completions := completions + [outcome];
    }

    method OnOpen(freshId: string)
      requires Valid()
      modifies this, transport
      ensures Valid() && State() == ClientOnOpenStep(old(State()), freshId, Cfg())
    {
      if closed {
        return;
      }
      connected := true;
      var sent := transport.SendMessage(ConnectMessage(connectionID, freshId));
      if sent.Failure? {
        return;
      }
      events := events + [ClientOpen];
      DispatchKeepsInv(old(State()), Some(OpenNotice), freshId, Cfg());
    }

    method OnFail()
      requires Valid()
      modifies this
      ensures Valid() && State() == ClientOnFailStep(old(State()))
    {
      if closed {
        return;
      }
      connected := false;
      events := events + [ClientFail];
      DispatchKeepsInv(old(State()), Some(FailNotice), "", Cfg());
    }

    method OnMessage(m: Message)
      requires Valid()
      modifies this
      ensures Valid() && State() == ClientOnMessageStep(old(State()), m)
    {
      if closed {
        return;
      }
      HandleResponse(m);
    }

    method OnDisconnected()
      requires Valid()
      modifies this
      ensures Valid() && State() == ClientOnDisconnectedStep(old(State()))
    {
      if closed {
        return;
      }
      connected := false;
      events := events + [ClientDisconnected];
      DispatchKeepsInv(old(State()), Some(DisconnectedNotice), "", Cfg());
    }

    method OnClose()
      requires Valid()
      modifies this
      ensures Valid() && State() == ClientOnCloseStep(old(State()))
    {
      if closed {
        return;
      }
      closed := true;
      connected := false;
      events := events + [ClientClose];
      DispatchKeepsInv(old(State()), Some(CloseNotice), "", Cfg());
    }

    /** The transport calls the listener method that matches its notice. */
    method Deliver(n: Option<Notice>, freshId: string)
      requires Valid()
      modifies this, transport
      ensures Valid() && State() == Dispatch(old(State()), n, freshId, Cfg())
    {
      match n {
        case None =>
        case Some(OpenNotice) => OnOpen(freshId);
        case Some(FailNotice) => OnFail();
        case Some(MessageNotice(m)) => OnMessage(m);
        case Some(DisconnectedNotice) => OnDisconnected();
        case Some(CloseNotice) => OnClose();
      }
    }

    method SocketOpened(sock: SocketId, freshId: string)
      requires Valid()
      modifies this, transport, transport.strategy
      ensures Valid() && State() == ApplyClient(old(State()), ClientInput.SocketOpened(sock, freshId), Cfg())
    {
      var n := transport.OnOpen(sock);
      Deliver(n, freshId);
    }

    method SocketClosed()
      requires Valid()
      modifies this, transport, transport.strategy
      ensures Valid() && State() == ApplyClient(old(State()), ClientInput.SocketClosed, Cfg())
    {
      var n := transport.OnClosed();
      Deliver(n, "");
    }

    method SocketFailed()
      requires Valid()
      modifies this, transport, transport.strategy
      ensures Valid() && State() == ApplyClient(old(State()), ClientInput.SocketFailed, Cfg())
    {
      var n := transport.OnFailure();
      Deliver(n, "");
    }

    /** A text frame arrives; a frame the mapper rejects throws out of the callback and changes nothing. */
    method SocketText(text: string) returns (d: Delivery)
      requires Valid()
      modifies this, transport
      ensures Valid() && State() == ApplyClient(old(State()), ClientInput.SocketText(text), Cfg())
      ensures d == OnMessageStep(old(State()).transport, text, Cfg().parse).1
    {
      var n;
      d, n := transport.OnMessage(text);
      Deliver(n, "");
    }

    method RunPosted()
      requires Valid()
      modifies transport
      ensures Valid() && State() == ApplyClient(old(State()), ClientInput.RunPosted, Cfg())
    {
      transport.RunPosted();
    }

    method RunReconnectJob()
      requires Valid()
      modifies transport, transport.strategy
      ensures Valid() && State() == ApplyClient(old(State()), ClientInput.RunReconnectJob, Cfg())
    {
      transport.RunReconnectJob();
    }
  }
}
