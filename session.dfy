/**
 * MiraiHttpSession's state: the single session slot, the disposed flag, the
 * plugin list and the event handler lists, and the operations that change
 * them. Each Interlocked call is one atomic step of a sequential run; the
 * requests sent and the events delivered are kept as logs.
 */
module Session {
  import opened Wrappers
  import ApiErrors
  import opened Events
  import opened Dispatch
  import Guards
  import opened Operations

  type Error = ApiErrors.Error

  /** MiraiHttpSessionOptions: where the server is and the auth key. */
  datatype Options = Options(baseUrl: string, host: string, port: int, authKey: string)

  /** The configuration GetConfigAsync reads back. */
  datatype SessionConfig = SessionConfig(cacheSize: Option<int>, enableWebSocket: Option<bool>)

  /** The server's answer to each step ConnectAsync awaits. */
  datatype Handshake = Handshake(
    auth: Result<string, Error>,
    verify: Outcome<Error>,
    version: Result<Guards.Version, Error>,
    config: Result<SessionConfig, Error>,
    setConfig: Outcome<Error>)

  /** `!config.EnableWebSocket.GetValueOrDefault()` */
  predicate NeedsWebSocket(config: SessionConfig)
  {
    !config.enableWebSocket.GetOr(false)
  }

  /** The outcome of the handshake: the first step that fails, in the order ConnectAsync awaits them. */
  function HandshakeOutcome(h: Handshake): Outcome<Error>
  {
    if h.auth.Failure? then Fail(h.auth.error)
    else if h.verify.Fail? then h.verify
    else if h.version.Failure? then Fail(h.version.error)
    else if h.config.Failure? then Fail(h.config.error)
    else if NeedsWebSocket(h.config.value) then h.setConfig
    else Pass
  }

  /** The handshake requests, up to and including the one whose reply fails. */
  function HandshakeRequests(options: Options, qq: int, h: Handshake): seq<Request>
  {
    var auth := AuthRequest(options.authKey);
    if h.auth.Failure? then [auth]
    else
      var key := h.auth.value;
      if h.verify.Fail? then [auth, VerifyRequest(key, qq)]
      else if h.version.Failure? then [auth, VerifyRequest(key, qq), AboutRequest]
      else if h.config.Failure? || !NeedsWebSocket(h.config.value) then
        [auth, VerifyRequest(key, qq), AboutRequest, GetConfigRequest(key)]
      else [auth, VerifyRequest(key, qq), AboutRequest, GetConfigRequest(key), SetConfigRequest(key, h.config.value.cacheSize, true)]
  }

  /** The requests after a successful verify: /about, GET /config and, when the WebSocket is off, POST /config. */
  function ConfigureRequests(h: Handshake): seq<Request>
    requires h.auth.Success?
  {
    var key := h.auth.value;
    if h.version.Failure? then [AboutRequest]
    else if h.config.Failure? || !NeedsWebSocket(h.config.value) then [AboutRequest, GetConfigRequest(key)]
    else [AboutRequest, GetConfigRequest(key), SetConfigRequest(key, h.config.value.cacheSize, true)]
  }

  lemma HandshakeRequestsSplit(options: Options, qq: int, h: Handshake)
    requires h.auth.Success? && h.verify.Pass?
    ensures HandshakeRequests(options, qq, h) ==
      [AuthRequest(options.authKey), VerifyRequest(h.auth.value, qq)] + ConfigureRequests(h)
  {
  }

  /**
   * The release the rollback of a failed connect sends: none when the auth
   * step failed (Options is still null, so building the url throws), and a
   * qq of 0 when verification failed (QQNumber is set after it).
   */
  function RollbackRequests(qq: int, h: Handshake): seq<Request>
  {
    if h.auth.Failure? then [] else [ReleaseRequest(Some(h.auth.value), if h.verify.Fail? then 0 else qq)]
  }

  /** The config is written back only when the WebSocket is off, with the cache size as read and the WebSocket on. */
  lemma {:induction false} SetConfigOnlyWhenWebSocketOff(options: Options, qq: int, h: Handshake)
    ensures (exists i :: 0 <= i < |HandshakeRequests(options, qq, h)| && HandshakeRequests(options, qq, h)[i].SetConfigRequest?) <==>
      h.auth.Success? && h.verify.Pass? && h.version.Success? && h.config.Success? && NeedsWebSocket(h.config.value)
    ensures h.auth.Success? && h.verify.Pass? && h.version.Success? && h.config.Success? && NeedsWebSocket(h.config.value) ==>
      HandshakeRequests(options, qq, h)[|HandshakeRequests(options, qq, h)| - 1] ==
      SetConfigRequest(h.auth.value, h.config.value.cacheSize, true)
  {
    var rs := HandshakeRequests(options, qq, h);
    if exists i :: 0 <= i < |rs| && rs[i].SetConfigRequest? {
      var i :| 0 <= i < |rs| && rs[i].SetConfigRequest?;
      if !(h.auth.Success? && h.verify.Pass? && h.version.Success? && h.config.Success? && NeedsWebSocket(h.config.value)) {
        assert false;
      }
    }
    if h.auth.Success? && h.verify.Pass? && h.version.Success? && h.config.Success? && NeedsWebSocket(h.config.value) {
      assert rs[|rs| - 1].SetConfigRequest?;
    }
  }

  /** Every handshake request after the first carries the session key the auth step returned. */
  lemma {:induction false} HandshakeUsesIssuedKey(options: Options, qq: int, h: Handshake)
    ensures HandshakeRequests(options, qq, h)[0] == AuthRequest(options.authKey)
    ensures forall i :: 1 <= i < |HandshakeRequests(options, qq, h)| ==>
      var req := HandshakeRequests(options, qq, h)[i];
      req.AboutRequest? || (req.sessionKey == h.auth.value)
    ensures |HandshakeRequests(options, qq, h)| == 1 <==> h.auth.Failure?
  {
    var rs := HandshakeRequests(options, qq, h);
    forall i | 1 <= i < |rs|
      ensures rs[i].AboutRequest? || rs[i].sessionKey == h.auth.value
    {
      assert h.auth.Success?;
    }
  }

  /** A failed connect releases exactly when the server issued a session key; the handshake itself fails exactly when the outcome says so. */
  lemma RollbackReleasesIssuedKey(qq: int, h: Handshake)
    ensures |RollbackRequests(qq, h)| == (if h.auth.Success? then 1 else 0)
    ensures h.auth.Success? ==> RollbackRequests(qq, h)[0].releaseKey == Some(h.auth.value)
    ensures h.auth.Success? ==> RollbackRequests(qq, h)[0].botQQ == (if h.verify.Fail? then 0 else qq)
    ensures HandshakeOutcome(h).Pass? <==>
      h.auth.Success? && h.verify.Pass? && h.version.Success? && h.config.Success? &&
      (NeedsWebSocket(h.config.value) ==> h.setConfig.Pass?)
  {
  }

  // ---------------------------------------------------------------------------
  // The receive loops

  /** Which WebSocket a loop reads: the event stream (/all) or the command stream (/command). */
  datatype Stream = EventStream | CommandStream

  /** How a loop's `while (true)` ends: cancelled by the release, or by any other exception. */
  datatype LoopEnd = Cancelled | Faulted(error: Error)

  /** What one delivery invoked. */
  datatype Delivery = Delivery(event: RoutedEvent, calls: seq<Call>)

  /** The handler list of an event field; an absent entry is a null delegate. */
  function HandlersFor(handlers: map<Channel, seq<Handler>>, ch: Channel): seq<Handler>
  {
    if ch in handlers then handlers[ch] else []
  }

  /** The event a frame raises, or the exception that ends the loop on it. */
  function EventOf(f: Frame, stream: Stream): Result<RoutedEvent, Error>
  {
    match f
    case Garbled => Failure(ApiErrors.MalformedJson)
    case JsonFrame(json, t) =>
      if stream == CommandStream then Success(RoutedEvent(CommandExecuted, Decoded(json)))
      else match t
        case Absent => Failure(ApiErrors.MissingProperty("type"))
        case NullValue => Success(RoutedEvent(UnknownMessage, Raw(json)))
        case NotText => Failure(ApiErrors.NotAString)
        case Text(d) => Success(RouteFrame(json, d))
  }

  /** The deliveries a run of frames makes, up to the first frame that ends the loop. */
  function Deliveries(plugins: seq<Plugin>, handlers: map<Channel, seq<Handler>>, frames: seq<Frame>, stream: Stream): seq<Delivery>
  {
    if frames == [] then []
    else match EventOf(frames[0], stream)
      case Failure(_) => []
      case Success(e) =>
        [Delivery(e, Chain(plugins, HandlersFor(handlers, e.channel), e.channel))] + Deliveries(plugins, handlers, frames[1..], stream)
  }

  /** How the loop ends: at the first frame it cannot take, or as the stream ends. */
  function LoopExit(frames: seq<Frame>, stream: Stream, end: LoopEnd): LoopEnd
  {
    if frames == [] then end
    else match EventOf(frames[0], stream)
      case Failure(e) => Faulted(e)
      case Success(_) => LoopExit(frames[1..], stream, end)
  }

  /** One turn of the loop: the frame at `i` is either delivered or ends the run. */
  lemma PumpStep(plugins: seq<Plugin>, handlers: map<Channel, seq<Handler>>, frames: seq<Frame>, i: nat, stream: Stream, end: LoopEnd)
    requires i < |frames|
    ensures EventOf(frames[i], stream).Failure? ==>
      Deliveries(plugins, handlers, frames[i..], stream) == [] &&
      LoopExit(frames[i..], stream, end) == Faulted(EventOf(frames[i], stream).error)
    ensures EventOf(frames[i], stream).Success? ==>
      var e := EventOf(frames[i], stream).value;
      Deliveries(plugins, handlers, frames[i..], stream) ==
        [Delivery(e, Chain(plugins, HandlersFor(handlers, e.channel), e.channel))] + Deliveries(plugins, handlers, frames[i + 1..], stream) &&
      LoopExit(frames[i..], stream, end) == LoopExit(frames[i + 1..], stream, end)
  {
    assert frames[i..][0] == frames[i];
    assert frames[i..][1..] == frames[i + 1..];
  }

  /** Each frame the loop takes is delivered once, in arrival order, and no event is ever routed to Disconnected. */
  lemma {:induction false} DeliveriesInOrder(plugins: seq<Plugin>, handlers: map<Channel, seq<Handler>>, frames: seq<Frame>, stream: Stream)
    ensures |Deliveries(plugins, handlers, frames, stream)| <= |frames|
    ensures forall k :: 0 <= k < |Deliveries(plugins, handlers, frames, stream)| ==>
      EventOf(frames[k], stream) == Success(Deliveries(plugins, handlers, frames, stream)[k].event) &&
      Deliveries(plugins, handlers, frames, stream)[k].event.channel != Disconnected
    ensures |Deliveries(plugins, handlers, frames, stream)| < |frames| <==>
      LoopExit(frames, stream, Cancelled).Faulted?
  {
    if frames != [] {
      DeliveriesInOrder(plugins, handlers, frames[1..], stream);
      match EventOf(frames[0], stream)
      case Failure(_) =>
      case Success(e) =>
        assert e.channel != Disconnected by {
          if stream == EventStream && frames[0].typeProperty.Text? {
            RouteNeverDisconnected(frames[0].typeProperty.value);
          }
        }
        var tail := Deliveries(plugins, handlers, frames[1..], stream);
        forall k | 1 <= k < |tail| + 1
          ensures Deliveries(plugins, handlers, frames, stream)[k] == tail[k - 1]
        {
        }
    }
  }

  lemma RouteNeverDisconnected(d: string)
    ensures Route(d) != Disconnected
  {
    if Route(d) == Disconnected {
      RouteOnlyFromListed(d);
    }
  }

  /** On the event stream a null or unlisted "type" raises UnknownMessage carrying the frame's JSON unchanged. */
  lemma UnknownFramesKeepTheirJson(json: ApiErrors.Json, t: TypeProperty)
    requires t.NullValue? || (t.Text? && forall ch: Channel :: Discriminator(ch) != Some(t.value))
    ensures EventOf(JsonFrame(json, t), EventStream) == Success(RoutedEvent(UnknownMessage, Raw(json)))
  {
    if t.Text? {
      RouteUnlistedIsUnknown(t.value);
    }
  }

  /** On the command stream every frame that parses is a CommandExecuted event carrying the frame's JSON. */
  lemma {:induction false} CommandStreamDeliversCommands(plugins: seq<Plugin>, handlers: map<Channel, seq<Handler>>, frames: seq<Frame>)
    ensures forall k :: 0 <= k < |Deliveries(plugins, handlers, frames, CommandStream)| ==>
      k < |frames| && frames[k].JsonFrame? &&
      Deliveries(plugins, handlers, frames, CommandStream)[k].event == RoutedEvent(CommandExecuted, Decoded(frames[k].json))
  {
    DeliveriesInOrder(plugins, handlers, frames, CommandStream);
  }

  /** CompareExchange(ref slot, value, comparand): the new slot, and the value the slot held. */
  function CompareExchange<T(==)>(slot: Option<T>, value: Option<T>, comparand: Option<T>): (r: (Option<T>, Option<T>))
    ensures r.1 == slot
    ensures r.0 == value || r.0 == slot
    ensures r.0 != slot ==> slot == comparand
  {
    (if slot == comparand then value else slot, slot)
  }

  /** The loops' fault guard as written: `CompareExchange(ref SessionInfo, null, session) != null`. */
  predicate FaultGuardAsWritten<T(==)>(slot: Option<T>, mine: T)
  {
    CompareExchange(slot, None, Some(mine)).1 != None
  }

  /** The guard the loops evidently intend: the exchange took this loop's session out of the slot. */
  predicate FaultGuard<T(==)>(slot: Option<T>, mine: T)
  {
    CompareExchange(slot, None, Some(mine)).1 == Some(mine)
  }

  /** As written, a stale loop whose session was replaced passes the guard although the slot is left holding the other session. */
  lemma FaultGuardAsWrittenFiresForForeignSession()
    ensures FaultGuardAsWritten(Some(2), 1)
    ensures CompareExchange(Some(2), None, Some(1)).0 == Some(2)
    ensures !FaultGuard(Some(2), 1)
  {
  }

  /** The intended guard holds exactly when the exchange emptied the slot, and it agrees with the written one in every other case. */
  lemma FaultGuardIffSlotCleared<T>(slot: Option<T>, mine: T)
    ensures FaultGuard(slot, mine) <==> slot.Some? && CompareExchange(slot, None, Some(mine)).0 == None
    ensures FaultGuard(slot, mine) ==> FaultGuardAsWritten(slot, mine)
    ensures FaultGuardAsWritten(slot, mine) && !FaultGuard(slot, mine) <==> slot.Some? && slot != Some(mine)
  {
  }

  // ---------------------------------------------------------------------------
  // The session record

  /** The CancellationTokenSource of a session: none before the handshake creates it; Cancel and Dispose run together. */
  datatype Canceller = NoCanceller | Active | Disposed

  /** InternalSessionInfo. */
  class SessionInfo {
    var options: Option<Options>
    var sessionKey: Option<string>
    var qqNumber: int
    var apiVersion: Option<Guards.Version>
    var canceller: Canceller
    var connected: bool
    var clientDisposed: bool
    var messageLoop: bool
    var commandLoop: bool

    constructor ()
      ensures options.None? && sessionKey.None? && qqNumber == 0 && apiVersion.None? && canceller == NoCanceller
      ensures !connected && !clientDisposed && !messageLoop && !commandLoop
    {
      options := None;
      sessionKey := None;
      qqNumber := 0;
      apiVersion := None;
      canceller := NoCanceller;
      connected := false;
      clientDisposed := false;
      messageLoop := false;
      commandLoop := false;
    }

    /** A session as a successful ConnectAsync leaves it. */
    predicate Live()
      reads this
    {
      connected && options.Some? && sessionKey.Some? && apiVersion.Some? &&
      canceller == Active && !clientDisposed && messageLoop
    }

    /** The outcome InternalReleaseAsync's task ends with, given the server's reply to /release. */
    function ReleaseOutcome(reply: Outcome<Error>): Outcome<Error>
      reads this
    {
      if canceller == Disposed then Fail(ApiErrors.CancellerDisposed)
      else if options.None? then Fail(ApiErrors.NullReference)
      else reply
    }

    /** The request InternalReleaseAsync sends: none when it throws before posting. */
    function ReleaseRequests(): seq<Request>
      reads this
    {
      if canceller == Disposed || options.None? then [] else [ReleaseRequest(sessionKey, qqNumber)]
    }
  }

  /** MiraiHttpSession. */
  class MiraiHttpSession {
    /** The SessionInfo slot that CompareExchange and Exchange swap. */
    var sessionInfo: SessionInfo?
    /** Plugins, an ImmutableList the methods replace. */
    var plugins: seq<Plugin>
    /** The event fields: each channel's invocation list. */
    var handlers: map<Channel, seq<Handler>>
    var disposed: bool
    /** Every request sent, in order. */
    var sent: seq<Request>
    /** Every event delivered, with the plugins and handlers it invoked. */
    var deliveries: seq<Delivery>

    /** A disposed session has no session installed; an installed one is fully connected. */
    predicate Valid()
      reads this, sessionInfo
    {
      (disposed ==> sessionInfo == null) && (sessionInfo != null ==> sessionInfo.Live())
    }

    constructor ()
      ensures Valid()
      ensures sessionInfo == null && plugins == [] && handlers == map[] && !disposed && sent == [] && deliveries == []
    {
      sessionInfo := null;
      plugins := [];
      handlers := map[];
      disposed := false;
      sent := [];
      deliveries := [];
    }

    /** `SessionInfo?.Connected ?? false` */
    function Connected(): bool
      reads this, sessionInfo
    {
      sessionInfo != null && sessionInfo.connected
    }

    /** `SessionInfo?.QQNumber` */
    function QQNumber(): Option<int>
      reads this, sessionInfo
    {
      if sessionInfo == null then None else Some(sessionInfo.qqNumber)
    }

    function HandlersOf(ch: Channel): seq<Handler>
      reads this
    {
      HandlersFor(handlers, ch)
    }

    /** The projections: connected exactly while a session is installed, and then with its qq number. */
    lemma ProjectionsFollowSlot()
      requires Valid()
      ensures Connected() <==> sessionInfo != null
      ensures QQNumber().Some? <==> Connected()
    {
    }

    method CheckDisposed() returns (r: Outcome<Error>)
      ensures r.Fail? <==> disposed
      ensures r.Fail? ==> r.error == ApiErrors.ObjectDisposed(ApiErrors.SessionObjectName)
    {
      if disposed {
        return Fail(ApiErrors.ObjectDisposed(ApiErrors.SessionObjectName));
      }
      return Pass;
    }

    /** SafeGetSession: the disposed check, then the slot, which must hold a session. */
    method SafeGetSession() returns (r: Result<SessionInfo, Error>)
      ensures disposed ==> r == Failure(ApiErrors.ObjectDisposed(ApiErrors.SessionObjectName))
      ensures !disposed && sessionInfo == null ==> r == Failure(ApiErrors.InvalidOperation(ApiErrors.NotConnectedMessage))
      ensures !disposed && sessionInfo != null ==> r == Success(sessionInfo)
    {
      var check := CheckDisposed();
      if check.Fail? {
        return Failure(check.error);
      }
      var session := sessionInfo;
      if session == null {
        return Failure(ApiErrors.InvalidOperation(ApiErrors.NotConnectedMessage));
      }
      return Success(session);
    }

    /** AddPlugin: appends to the list. */
    method AddPlugin(plugin: Plugin) returns (r: Outcome<Error>)
      requires Valid()
      modifies this
      ensures Valid()
      ensures r.Fail? <==> disposed
      ensures r.Fail? ==> r.error == ApiErrors.ObjectDisposed(ApiErrors.SessionObjectName)
      ensures plugins == if disposed then old(plugins) else old(plugins) + [plugin]
      ensures sessionInfo == old(sessionInfo) && handlers == old(handlers) && disposed == old(disposed)
      ensures sent == old(sent) && deliveries == old(deliveries)
    {
      r := CheckDisposed();
      if r.Pass? {
        plugins := plugins + [plugin];
      }
    }

    /** RemovePlugin: ImmutableList.Remove, the first occurrence. */
    method RemovePlugin(plugin: Plugin) returns (r: Outcome<Error>)
      requires Valid()
      modifies this
      ensures Valid()
      ensures r.Fail? <==> disposed
      ensures r.Fail? ==> r.error == ApiErrors.ObjectDisposed(ApiErrors.SessionObjectName)
      ensures plugins == if disposed then old(plugins) else RemoveFirst(old(plugins), plugin)
      ensures sessionInfo == old(sessionInfo) && handlers == old(handlers) && disposed == old(disposed)
      ensures sent == old(sent) && deliveries == old(deliveries)
    {
      r := CheckDisposed();
      if r.Pass? {
        plugins := RemoveFirst(plugins, plugin);
      }
    }

    /** An event's add accessor: Delegate.Combine appends the handler. */
    method Subscribe(ch: Channel, handler: Handler)
      requires Valid()
      modifies this
      ensures Valid()
      ensures handlers == old(handlers)[ch := old(HandlersOf(ch)) + [handler]]
      ensures sessionInfo == old(sessionInfo) && plugins == old(plugins) && disposed == old(disposed)
      ensures sent == old(sent) && deliveries == old(deliveries)
    {
      handlers := handlers[ch := HandlersOf(ch) + [handler]];
    }

    /** An event's remove accessor: Delegate.Remove, the last occurrence. */
    method Unsubscribe(ch: Channel, handler: Handler)
      requires Valid()
      modifies this
      ensures Valid()
      ensures handlers == old(handlers)[ch := RemoveLast(old(HandlersOf(ch)), handler)]
      ensures sessionInfo == old(sessionInfo) && plugins == old(plugins) && disposed == old(disposed)
      ensures sent == old(sent) && deliveries == old(deliveries)
    {
      handlers := handlers[ch := RemoveLast(HandlersOf(ch), handler)];
    }

    /**
     * InternalReleaseAsync on a session already out of the slot: mark it
     * disconnected, cancel and dispose its canceller, post /release, and
     * dispose its client whatever the post does.
     */
    method InternalRelease(session: SessionInfo, reply: Outcome<Error>) returns (r: Outcome<Error>)
      requires session != sessionInfo
      modifies this, session
      ensures r == old(session.ReleaseOutcome(reply))
      ensures sent == old(sent) + old(session.ReleaseRequests())
      ensures !session.connected
      ensures session.canceller == if old(session.canceller) == Active then Disposed else old(session.canceller)
      ensures session.clientDisposed == (old(session.clientDisposed) || old(session.canceller) != Disposed)
      ensures session.options == old(session.options) && session.sessionKey == old(session.sessionKey)
      ensures session.qqNumber == old(session.qqNumber) && session.apiVersion == old(session.apiVersion)
      ensures session.messageLoop == old(session.messageLoop) && session.commandLoop == old(session.commandLoop)
      ensures sessionInfo == old(sessionInfo) && plugins == old(plugins) && handlers == old(handlers)
      ensures disposed == old(disposed) && deliveries == old(deliveries)
    {
      session.connected := false;
      if session.canceller == Disposed {
        return Fail(ApiErrors.CancellerDisposed);
      }
      if session.canceller == Active {
        session.canceller := Disposed;
      }
      if session.options.None? {
        session.clientDisposed := true;
        return Fail(ApiErrors.NullReference);
      }
      sent := sent + [ReleaseRequest(session.sessionKey, session.qqNumber)];
      session.clientDisposed := true;
      r := reply;
    }

    /** ReleaseAsync: Exchange the slot with null, then release what it held. */
    method Release(reply: Outcome<Error>) returns (r: Outcome<Error>)
      requires Valid()
      modifies this, sessionInfo
      ensures Valid()
      ensures old(disposed) ==> r == Fail(ApiErrors.ObjectDisposed(ApiErrors.SessionObjectName)) && sent == old(sent)
      ensures !old(disposed) && old(sessionInfo) == null ==>
        r == Fail(ApiErrors.InvalidOperation(ApiErrors.NotConnectedMessage)) && sent == old(sent)
      ensures !old(disposed) && old(sessionInfo) != null ==>
        r == reply && !old(sessionInfo).connected && old(sessionInfo).canceller == Disposed && old(sessionInfo).clientDisposed &&
        sent == old(sent) + [ReleaseRequest(old(sessionInfo.sessionKey), old(sessionInfo.qqNumber))]
      ensures sessionInfo == null
      ensures plugins == old(plugins) && handlers == old(handlers) && disposed == old(disposed) && deliveries == old(deliveries)
    {
      var check := CheckDisposed();
      if check.Fail? {
        return check;
      }
      var session := sessionInfo;
      sessionInfo := null;
      if session == null {
        return Fail(ApiErrors.InvalidOperation(ApiErrors.NotConnectedMessage));
      }
      r := InternalRelease(session, reply);
    }

    /**
     * DisposeAsync: the first call sets the flag and, if a session was
     * installed, drops the plugins and every handler and releases it; later
     * calls return at once.
     */
    method Dispose(reply: Outcome<Error>) returns (r: Outcome<Error>)
      requires Valid()
      modifies this, sessionInfo
      ensures Valid() && disposed && sessionInfo == null
      ensures old(disposed) ==> r == Pass && plugins == old(plugins) && handlers == old(handlers) && sent == old(sent)
      ensures !old(disposed) && old(sessionInfo) == null ==>
        r == Pass && plugins == old(plugins) && handlers == old(handlers) && sent == old(sent)
      ensures !old(disposed) && old(sessionInfo) != null ==>
        r == reply && plugins == [] && handlers == map[] && !old(sessionInfo).connected &&
        old(sessionInfo).canceller == Disposed && old(sessionInfo).clientDisposed &&
        sent == old(sent) + [ReleaseRequest(old(sessionInfo.sessionKey), old(sessionInfo.qqNumber))]
      ensures deliveries == old(deliveries)
    {
      if disposed {
        return Pass;
      }
      disposed := true;
      var session := sessionInfo;
      sessionInfo := null;
      if session == null {
        return Pass;
      }
      plugins := [];
      handlers := map[];
      r := InternalRelease(session, reply);
    }

    /** The catch block of ConnectAsync: take the attempt's session out of the slot if it is still there, and release it. */
    method RollbackConnect(session: SessionInfo)
      requires session.canceller != Disposed
      requires sessionInfo == session || Valid()
      modifies this, session
      ensures Valid()
      ensures sessionInfo == if old(sessionInfo) == session then null else old(sessionInfo)
      ensures !session.connected
      ensures sent == old(sent) + old(session.ReleaseRequests())
      ensures session.options == old(session.options) && session.sessionKey == old(session.sessionKey)
      ensures session.qqNumber == old(session.qqNumber)
      ensures plugins == old(plugins) && handlers == old(handlers) && disposed == old(disposed) && deliveries == old(deliveries)
    {
      if sessionInfo == session {
        sessionInfo := null;
      }
      var _ := InternalRelease(session, Pass);
    }

    /**
     * The try block of ConnectAsync: fill in the installed session step by
     * step, sending each handshake request, and stop at the first failure.
     */
    method RunHandshake(session: SessionInfo, options: Options, qq: int, listenCommand: bool, h: Handshake) returns (r: Outcome<Error>)
      requires sessionInfo == session
      requires session.options.None? && session.sessionKey.None? && session.qqNumber == 0
      requires session.canceller == NoCanceller && !session.clientDisposed
      modifies this, session
      ensures r == HandshakeOutcome(h)
      ensures sent == old(sent) + HandshakeRequests(options, qq, h)
      ensures session.canceller != Disposed
      ensures r.Pass? ==>
        session.Live() && session.options == Some(options) && session.sessionKey == Some(h.auth.value) &&
        session.qqNumber == qq && session.apiVersion == Some(h.version.value) && session.commandLoop == listenCommand
      ensures r.Fail? ==> session.ReleaseRequests() == RollbackRequests(qq, h)
      ensures sessionInfo == old(sessionInfo) && plugins == old(plugins) && handlers == old(handlers)
      ensures disposed == old(disposed) && deliveries == old(deliveries)
    {
      r := Authenticate(session, options, qq, h);
      if r.Pass? {
        ghost var s1 := sent;
        r := Configure(session, listenCommand, h);
        assert sent == s1 + ConfigureRequests(h);
        HandshakeRequestsSplit(options, qq, h);
      }
    }

    /** The auth and verify steps of ConnectAsync: the key is stored after auth, the qq after verify. */
    method Authenticate(session: SessionInfo, options: Options, qq: int, h: Handshake) returns (r: Outcome<Error>)
      requires session.options.None? && session.sessionKey.None? && session.qqNumber == 0
      requires session.canceller == NoCanceller && !session.clientDisposed
      modifies this, session
      ensures r == (if h.auth.Failure? then Fail(h.auth.error) else h.verify)
      ensures sent == old(sent) + (if h.auth.Failure? then [AuthRequest(options.authKey)]
        else [AuthRequest(options.authKey), VerifyRequest(h.auth.value, qq)])
      ensures session.options == (if h.auth.Failure? then None else Some(options))
      ensures session.sessionKey == (if h.auth.Failure? then None else Some(h.auth.value))
      ensures session.qqNumber == (if r.Pass? then qq else 0)
      ensures session.canceller == NoCanceller && !session.clientDisposed
      ensures session.apiVersion == old(session.apiVersion) && session.connected == old(session.connected)
      ensures session.messageLoop == old(session.messageLoop) && session.commandLoop == old(session.commandLoop)
      ensures sessionInfo == old(sessionInfo) && plugins == old(plugins) && handlers == old(handlers)
      ensures disposed == old(disposed) && deliveries == old(deliveries)
    {
      sent := sent + [AuthRequest(options.authKey)];
      if h.auth.Failure? {
        return Fail(h.auth.error);
      }
      session.sessionKey := Some(h.auth.value);
      session.options := Some(options);
      sent := sent + [VerifyRequest(h.auth.value, qq)];
      r := h.verify;
      if r.Pass? {
        session.qqNumber := qq;
      }
    }

    /** The version, config and set-config steps of ConnectAsync, after a successful verify. */
    method Configure(session: SessionInfo, listenCommand: bool, h: Handshake) returns (r: Outcome<Error>)
      requires h.auth.Success? && h.verify.Pass?
      requires session.options.Some? && session.sessionKey.Some?
      requires session.canceller == NoCanceller && !session.clientDisposed
      modifies this, session
      ensures r == HandshakeOutcome(h)
      ensures sent == old(sent) + ConfigureRequests(h)
      ensures session.canceller != Disposed
      ensures r.Pass? ==>
        session.Live() && session.apiVersion == Some(h.version.value) && session.commandLoop == listenCommand
      ensures session.options == old(session.options) && session.sessionKey == old(session.sessionKey)
      ensures session.qqNumber == old(session.qqNumber)
      ensures sessionInfo == old(sessionInfo) && plugins == old(plugins) && handlers == old(handlers)
      ensures disposed == old(disposed) && deliveries == old(deliveries)
    {
      sent := sent + [AboutRequest];
      if h.version.Failure? {
        return Fail(h.version.error);
      }
      session.apiVersion := Some(h.version.value);
      session.canceller := Active;
      session.connected := true;
      var key := h.auth.value;
      sent := sent + [GetConfigRequest(key)];
      if h.config.Failure? {
        return Fail(h.config.error);
      }
      var config := h.config.value;
      if NeedsWebSocket(config) {
        sent := sent + [SetConfigRequest(key, config.cacheSize, true)];
        if h.setConfig.Fail? {
          return h.setConfig;
        }
      }
      session.messageLoop := true;
      session.commandLoop := listenCommand;
      r := Pass;
    }

    /**
     * ConnectAsync: a session is installed only into an empty slot; then the
     * handshake fills it in, and if a step fails the catch block rolls it
     * back and the failure is rethrown. With a session already installed the
     * call returns at once.
     */
    method Connect(options: Options, qq: int, listenCommand: bool, h: Handshake) returns (r: Outcome<Error>)
      requires Valid()
      modifies this
      ensures Valid()
      ensures old(disposed) ==> r == Fail(ApiErrors.ObjectDisposed(ApiErrors.SessionObjectName))
      ensures old(disposed) || old(sessionInfo) != null ==> r.Pass? == !old(disposed) && sessionInfo == old(sessionInfo) && sent == old(sent)
      ensures !old(disposed) && old(sessionInfo) == null ==> r == HandshakeOutcome(h)
      ensures !old(disposed) && old(sessionInfo) == null && r.Pass? ==>
        sessionInfo != null && fresh(sessionInfo) &&
        sessionInfo.options == Some(options) && sessionInfo.sessionKey == Some(h.auth.value) &&
        sessionInfo.qqNumber == qq && sessionInfo.apiVersion == Some(h.version.value) &&
        sessionInfo.commandLoop == listenCommand &&
        sent == old(sent) + HandshakeRequests(options, qq, h)
      ensures !old(disposed) && old(sessionInfo) == null && r.Fail? ==>
        sessionInfo == null && sent == old(sent) + HandshakeRequests(options, qq, h) + RollbackRequests(qq, h)
      ensures plugins == old(plugins) && handlers == old(handlers) && disposed == old(disposed) && deliveries == old(deliveries)
    {
      r := CheckDisposed();
      if r.Fail? {
        return;
      }
      var session := new SessionInfo();
      if sessionInfo != null {
        return;
      }
      sessionInfo := session;
      r := RunHandshake(session, options, qq, listenCommand, h);
      if r.Fail? {
        RollbackConnect(session);
      }
    }

    /** A session-scoped API call: SafeGetSession, then the call's checks, its request and the reading of the reply. */
    method Call(op: Operation, reply: ApiErrors.Reply<int>) returns (r: Result<Answer, Error>)
      requires Valid()
      modifies this
      ensures Valid()
      ensures disposed ==> r == Failure(ApiErrors.ObjectDisposed(ApiErrors.SessionObjectName)) && sent == old(sent)
      ensures !disposed && sessionInfo == null ==>
        r == Failure(ApiErrors.InvalidOperation(ApiErrors.NotConnectedMessage)) && sent == old(sent)
      ensures !disposed && sessionInfo != null ==>
        var view := SessionView(sessionInfo.sessionKey.value, sessionInfo.options.value.authKey, sessionInfo.apiVersion);
        r == Perform(op, view, reply) && sent == old(sent) + Requests(PlanOf(op, view))
      ensures sessionInfo == old(sessionInfo) && plugins == old(plugins) && handlers == old(handlers)
      ensures disposed == old(disposed) && deliveries == old(deliveries)
    {
      var got := SafeGetSession();
      if got.Failure? {
        return Failure(got.error);
      }
      var session := got.value;
      var view := SessionView(session.sessionKey.value, session.options.value.authKey, session.apiVersion);
      var plan := PlanOf(op, view);
      match plan
      case Reject(e) => r := Failure(e);
      case Local(a) => r := Success(a);
      case Post(request, reading) =>
        sent := sent + [request];
        r := Interpret(reading, reply);
    }

    /**
     * The fault path of a receive loop: CompareExchange the slot with null
     * when it holds this loop's session; only then release that session and
     * raise Disconnected with the exception, discarding whatever the handlers throw.
     */
    method LoopFault(session: SessionInfo, error: Error)
      requires Valid()
      modifies this, session
      ensures Valid()
      ensures old(sessionInfo) == session ==>
        sessionInfo == null && !session.connected && session.canceller == Disposed && session.clientDisposed &&
        sent == old(sent) + [ReleaseRequest(session.sessionKey, session.qqNumber)] &&
        deliveries == old(deliveries) + [Delivery(RoutedEvent(Disconnected, Fault(error)), NotifyAll(old(HandlersOf(Disconnected))))]
      ensures old(sessionInfo) != session ==>
        sessionInfo == old(sessionInfo) && sent == old(sent) && deliveries == old(deliveries) && unchanged(session)
      ensures plugins == old(plugins) && handlers == old(handlers) && disposed == old(disposed)
    {
      var original := sessionInfo;
      if original == session {
        sessionInfo := null;
        var _ := InternalRelease(session, Pass);
        var calls := NotifyAll(HandlersOf(Disconnected));
        deliveries := deliveries + [Delivery(RoutedEvent(Disconnected, Fault(error)), calls)];
      }
    }

    /**
     * The `while (true)` of ReceiveMessageLoop and ReceiveCommandLoop: take
     * the frames in order, starting InvokeAsync for each, until one cannot be
     * read; without such a frame the loop ends as the stream does.
     */
    method Pump(stream: Stream, frames: seq<Frame>, end: LoopEnd) returns (exit: LoopEnd)
      modifies this
      ensures exit == LoopExit(frames, stream, end)
      ensures deliveries == old(deliveries) + Deliveries(plugins, handlers, frames, stream)
      ensures sessionInfo == old(sessionInfo) && sent == old(sent)
      ensures plugins == old(plugins) && handlers == old(handlers) && disposed == old(disposed)
    {
      exit := end;
      var i := 0;
      while i < |frames|
        invariant 0 <= i <= |frames|
        invariant sessionInfo == old(sessionInfo) && sent == old(sent)
        invariant plugins == old(plugins) && handlers == old(handlers) && disposed == old(disposed)
        invariant old(deliveries) + Deliveries(plugins, handlers, frames, stream) == deliveries + Deliveries(plugins, handlers, frames[i..], stream)
        invariant LoopExit(frames, stream, end) == LoopExit(frames[i..], stream, end)
      {
        var event := EventOf(frames[i], stream);
        PumpStep(plugins, handlers, frames, i, stream, end);
        if event.Failure? {
          exit := Faulted(event.error);
          return;
        }
        var ch := event.value.channel;
        var calls := InvokeAsync(plugins, HandlersFor(handlers, ch), ch);
        var delivery := Delivery(event.value, calls);
        assert (deliveries + [delivery]) + Deliveries(plugins, handlers, frames[i + 1..], stream)
            == deliveries + ([delivery] + Deliveries(plugins, handlers, frames[i + 1..], stream));
        deliveries := deliveries + [delivery];
        i := i + 1;
      }
      assert frames[i..] == [];
    }

    /**
     * ReceiveMessageLoop and ReceiveCommandLoop: the frames as Pump takes
     * them; a cancellation then ends the loop quietly, any other exception
     * takes the fault path.
     */
    method ReceiveLoop(session: SessionInfo, stream: Stream, frames: seq<Frame>, end: LoopEnd)
      requires Valid()
      modifies this, session
      ensures Valid()
      ensures LoopExit(frames, stream, end).Cancelled? ==>
        sessionInfo == old(sessionInfo) && sent == old(sent) && unchanged(session) &&
        deliveries == old(deliveries) + Deliveries(plugins, handlers, frames, stream)
      ensures LoopExit(frames, stream, end).Faulted? && old(sessionInfo) == session ==>
        sessionInfo == null && !session.connected && session.canceller == Disposed && session.clientDisposed &&
        sent == old(sent) + [ReleaseRequest(session.sessionKey, session.qqNumber)] &&
        deliveries == old(deliveries) + Deliveries(plugins, handlers, frames, stream) +
          [Delivery(RoutedEvent(Disconnected, Fault(LoopExit(frames, stream, end).error)), NotifyAll(HandlersOf(Disconnected)))]
      ensures LoopExit(frames, stream, end).Faulted? && old(sessionInfo) != session ==>
        sessionInfo == old(sessionInfo) && sent == old(sent) && unchanged(session) &&
        deliveries == old(deliveries) + Deliveries(plugins, handlers, frames, stream)
      ensures plugins == old(plugins) && handlers == old(handlers) && disposed == old(disposed)
    {
      var exit := Pump(stream, frames, end);
      if exit.Faulted? {
        LoopFault(session, exit.error);
      }
    }
  }
}
