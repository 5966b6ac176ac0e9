/**
 * What a session-scoped API call of MiraiHttpSession sends and how it reads
 * the reply, once SafeGetSession has produced the installed session: the
 * argument checks run first, then one request goes out, then the reply's
 * envelope decides the result.
 */
module Operations {
  import opened Wrappers
  import opened ApiErrors
  import opened Messages
  import opened Guards

  /** The requests the model follows, with the payload fields the decisions depend on. */
  datatype Request =
    | AuthRequest(authKey: string)
    | VerifyRequest(sessionKey: string, botQQ: int)
    | AboutRequest
    | GetConfigRequest(sessionKey: string)
    | SetConfigRequest(sessionKey: string, cacheSize: Option<int>, enableWebSocket: bool)
    | ReleaseRequest(releaseKey: Option<string>, botQQ: int)
    | MuteAllRequest(endpoint: string, sessionKey: string, target: int)
    | MuteRequest(sessionKey: string, target: int, memberId: int, time: int)
    | ApplyRequest(endpoint: string, sessionKey: string, eventId: int, fromId: int, groupId: int, operate: int, message: string)
    | SendMessageRequest(endpoint: string, sessionKey: string, qq: Option<int>, group: Option<int>,
                         quote: Option<int>, chain: seq<MessageElement>)
    | RecallRequest(sessionKey: string, target: int)
    | SendImageRequest(sessionKey: string, qq: Option<int>, group: Option<int>, urls: seq<string>)
    | UploadImageRequest(sessionKey: string, uploadType: string, format: string, reencoded: bool)
    | UploadVoiceRequest(sessionKey: string, uploadType: string)
    | RegisterCommandRequest(payload: RegisterPayload)
    | ExecuteCommandRequest(authKey: string, name: string, args: seq<string>)

  /** The session-scoped calls, with the arguments their checks look at. */
  datatype Operation =
    | ToggleMuteAll(action: bool, group: int)
    | Mute(memberId: int, group: int, ticks: int)
    | HandleApply(kind: ApplyKind, eventId: int, fromId: int, groupId: int, operate: int, message: string)
    | SendMessage(target: SendTarget, chain: Option<seq<MessageElement>>, quote: Option<int>)
    | RevokeMessage(messageId: int)
    | SendImage(target: SendTarget, urls: Option<seq<string>>)
    | UploadPicture(uploadType: string, rawFormat: string)
    | UploadVoice(uploadType: string)
    | RegisterCommand(name: Option<string>, alias: Option<seq<string>>, description: Option<string>, usage: Option<string>)
    | ExecuteCommand(command: string, args: seq<string>)

  /** What the installed session contributes to a call. */
  datatype SessionView = SessionView(sessionKey: string, authKey: string, apiVersion: Option<Version>)

  /** How a reply is read. */
  datatype ReplyReading =
      /** The envelope's code decides; the data is not used. */
    | Acknowledge
      /** Code 0 carries the messageId. */
    | ReadMessageId
      /** A body the JSON reader refuses means the server cannot take pictures. */
    | ReadPicture
      /** The command APIs: a non-JSON body is the error text. */
    | ReadCommand
      /** As ReadCommand, with the target-not-found message rewritten. */
    | ReadExecute

  /** The value a successful call produces. */
  datatype Answer = Done | MessageId(id: int) | LegacyPictureUrl

  datatype Plan =
    | Reject(error: Error)
      /** Answered without a request (the local image listener of old servers). */
    | Local(answer: Answer)
    | Post(request: Request, reading: ReplyReading)

  function SendPlan(view: SessionView, target: SendTarget, chain: Option<seq<MessageElement>>, quote: Option<int>): Plan
  {
    match CheckChain(chain)
    case Fail(e) => Reject(e)
    case Pass => Post(SendMessageRequest(SendEndpoint(target), view.sessionKey, QQField(target), GroupField(target), quote, chain.value), ReadMessageId)
  }

  function PicturePlan(view: SessionView, uploadType: string, rawFormat: string): Plan
  {
    if UsesLegacyPictureUpload(view.apiVersion) then Local(LegacyPictureUrl)
    else
      var (format, reencoded) := PictureFormat(rawFormat);
      Post(UploadImageRequest(view.sessionKey, uploadType, format, reencoded), ReadPicture)
  }

  /** The checks of each call, in the order MiraiHttpSession makes them, and the request it sends. */
  function PlanOf(op: Operation, view: SessionView): Plan
  {
    match op
    case ToggleMuteAll(action, group) => Post(MuteAllRequest(MuteAllEndpoint(action), view.sessionKey, group), Acknowledge)
    case Mute(memberId, group, ticks) =>
      (match MuteSeconds(ticks)
       case Failure(e) => Reject(e)
       case Success(time) => Post(MuteRequest(view.sessionKey, group, memberId, time), Acknowledge))
    case HandleApply(kind, eventId, fromId, groupId, operate, message) =>
      Post(ApplyRequest(ApplyEndpoint(kind), view.sessionKey, eventId, fromId, groupId, operate, message), Acknowledge)
    case SendMessage(target, chain, quote) => SendPlan(view, target, chain, quote)
    case RevokeMessage(messageId) => Post(RecallRequest(view.sessionKey, messageId), Acknowledge)
    case SendImage(target, urls) =>
      (match CheckUrls(urls)
       case Fail(e) => Reject(e)
       case Pass => Post(SendImageRequest(view.sessionKey, QQField(target), GroupField(target), urls.value), Acknowledge))
    case UploadPicture(uploadType, rawFormat) => PicturePlan(view, uploadType, rawFormat)
    case UploadVoice(uploadType) =>
      if !SupportsVoiceUpload(view.apiVersion) then Reject(VoiceNotSupported)
      else Post(UploadVoiceRequest(view.sessionKey, uploadType), Acknowledge)
    case RegisterCommand(name, alias, description, usage) =>
      (match RegisterCommandPayload(view.authKey, name, alias, description, usage)
       case Failure(e) => Reject(e)
       case Success(payload) => Post(RegisterCommandRequest(payload), ReadCommand))
    case ExecuteCommand(name, args) => Post(ExecuteCommandRequest(view.authKey, name, args), ReadExecute)
  }

  /** The requests a plan sends: one for Post, none otherwise. */
  function Requests(plan: Plan): (rs: seq<Request>)
    ensures |rs| <= 1
    ensures rs != [] <==> plan.Post?
  {
    if plan.Post? then [plan.request] else []
  }

  /** Reading the reply of a posted request. */
  function Interpret(reading: ReplyReading, reply: Reply<int>): (r: Result<Answer, Error>)
    ensures reply.Envelope? && reply.code != 0 && reading != ReadExecute ==> r == Failure(GetCommonException(reply.code, reply.raw))
    ensures reply.Envelope? && reply.code == 0 ==> r.Success?
    ensures reading == ReadMessageId && reply.Envelope? && reply.code == 0 ==> r == Success(MessageId(reply.data))
    ensures reply.NotJson? ==>
      r == Failure(match reading
                   case ReadPicture => PictureNotSupported
                   case ReadCommand => InvalidOperation(reply.text)
                   case ReadExecute => InvalidOperation(reply.text)
                   case _ => MalformedJson)
  {
    match reading
    case Acknowledge => (match ReadEnvelope(reply) case Success(_) => Success(Done) case Failure(e) => Failure(e))
    case ReadMessageId => (match ReadEnvelope(reply) case Success(id) => Success(MessageId(id)) case Failure(e) => Failure(e))
    case ReadPicture =>
      if reply.NotJson? then Failure(PictureNotSupported)
      else (match ReadEnvelope(reply) case Success(_) => Success(Done) case Failure(e) => Failure(e))
    case ReadCommand => (match ReadCommandReply(reply) case Pass => Success(Done) case Fail(e) => Failure(e))
    case ReadExecute => (match ReadExecuteReply(reply) case Pass => Success(Done) case Fail(e) => Failure(e))
  }

  /** The whole call, once a session is installed. */
  function Perform(op: Operation, view: SessionView, reply: Reply<int>): Result<Answer, Error>
  {
    match PlanOf(op, view)
    case Reject(e) => Failure(e)
    case Local(a) => Success(a)
    case Post(_, reading) => Interpret(reading, reply)
  }

  // ---------------------------------------------------------------------------
  // What the plans promise

  /** A refused argument sends nothing and its error does not depend on the reply. */
  lemma RejectedCallSendsNothing(op: Operation, view: SessionView, r1: Reply<int>, r2: Reply<int>)
    requires PlanOf(op, view).Reject?
    ensures Requests(PlanOf(op, view)) == []
    ensures Perform(op, view, r1) == Perform(op, view, r2) == Failure(PlanOf(op, view).error)
  {
  }

  /** Every request a session-scoped call sends carries the installed session's key, except the command APIs, which carry the auth key. */
  lemma PostedRequestCarriesCredential(op: Operation, view: SessionView)
    requires PlanOf(op, view).Post?
    ensures var req := PlanOf(op, view).request;
      if op.RegisterCommand? then req.RegisterCommandRequest? && req.payload.authKey == view.authKey
      else if op.ExecuteCommand? then req == ExecuteCommandRequest(view.authKey, op.command, op.args)
      else req.sessionKey == view.sessionKey
  {
  }

  /** MuteAsync sends a request exactly for 0 < duration < 30 days, with the duration in whole seconds. */
  lemma MutePlan(memberId: int, group: int, ticks: int, view: SessionView)
    ensures PlanOf(Mute(memberId, group, ticks), view).Post? <==> 0 < ticks < MaxMuteTicks
    ensures PlanOf(Mute(memberId, group, ticks), view).Reject? ==>
      PlanOf(Mute(memberId, group, ticks), view).error == ArgumentOutOfRange("duration")
    ensures PlanOf(Mute(memberId, group, ticks), view).Post? ==>
      var req := PlanOf(Mute(memberId, group, ticks), view).request;
      req.MuteRequest? && req.target == group && req.memberId == memberId &&
      req.time * TicksPerSecond <= ticks < (req.time + 1) * TicksPerSecond
  {
  }

  /** A message is sent exactly when the chain passes its checks, to the target's endpoint, with the chain unchanged. */
  lemma SendMessagePlan(target: SendTarget, chain: Option<seq<MessageElement>>, quote: Option<int>, view: SessionView)
    ensures PlanOf(SendMessage(target, chain, quote), view).Reject? <==> CheckChain(chain).Fail?
    ensures CheckChain(chain).Fail? ==> PlanOf(SendMessage(target, chain, quote), view).error == CheckChain(chain).error
    ensures CheckChain(chain).Pass? ==>
      PlanOf(SendMessage(target, chain, quote), view) ==
        Post(SendMessageRequest(SendEndpoint(target), view.sessionKey, QQField(target), GroupField(target), quote, chain.value), ReadMessageId)
  {
  }

  /** The messageId of a successful send is the one in the reply. */
  lemma SentMessageId(target: SendTarget, chain: seq<MessageElement>, quote: Option<int>, view: SessionView, raw: Json, id: int)
    requires CheckChain(Some(chain)).Pass?
    ensures Perform(SendMessage(target, Some(chain), quote), view, Envelope(0, raw, id)) == Success(MessageId(id))
  {
    SendMessagePlan(target, Some(chain), quote, view);
  }

  /** Old servers get a local picture url without any request; newer ones a multipart upload in one of the three formats. */
  lemma UploadPicturePlan(uploadType: string, rawFormat: string, view: SessionView)
    ensures UsesLegacyPictureUpload(view.apiVersion) <==> PlanOf(UploadPicture(uploadType, rawFormat), view) == Local(LegacyPictureUrl)
    ensures !UsesLegacyPictureUpload(view.apiVersion) ==>
      var plan := PlanOf(UploadPicture(uploadType, rawFormat), view);
      plan.Post? && plan.reading == ReadPicture && plan.request.UploadImageRequest? &&
      plan.request.format in {"jpeg", "png", "gif"} &&
      (plan.request.reencoded <==> rawFormat !in {"Jpeg", "Png", "Gif"})
  {
  }

  /** Voice upload is refused, before any request, exactly on servers older than 1.8.0. */
  lemma UploadVoicePlan(uploadType: string, view: SessionView)
    ensures PlanOf(UploadVoice(uploadType), view) == Reject(VoiceNotSupported) <==> !SupportsVoiceUpload(view.apiVersion)
    ensures SupportsVoiceUpload(view.apiVersion) ==> PlanOf(UploadVoice(uploadType), view).Post?
  {
  }

  /** ExecuteCommandAsync reports a missing command with its own message; any other reply reads as RegisterCommandAsync reads it. */
  lemma ExecuteCommandReading(command: string, args: seq<string>, view: SessionView, reply: Reply<int>)
    ensures reply.Envelope? && reply.code == 5 ==>
      Perform(ExecuteCommand(command, args), view, reply) == Failure(TargetNotFound(Some(CommandNotFoundMessage)))
    ensures !(reply.Envelope? && reply.code == 5) ==>
      Perform(ExecuteCommand(command, args), view, reply) == Interpret(ReadCommand, reply)
  {
  }
}
