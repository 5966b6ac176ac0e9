/**
 * The status-code table of mirai-api-http and the way the client reads a
 * response envelope: code 0 carries the payload, any other code raises the
 * error the table maps it to.
 */
module ApiErrors {
  import opened Wrappers

  /** Raw JSON text, as JsonElement.GetRawText gives it. Parsing is not modelled. */
  type Json = string

  const ArgumentErrorMessage: string := "调用http-api失败, 参数错误, 请到 https://github.com/Executor-Cheng/Mirai-CSharp/issues 下提交issue。"
  const FileNotFoundMessage: string := "指定的文件不存在。"
  const NotConnectedMessage: string := "请先连接到一个Session。"
  const CommandNotFoundMessage: string := "给定的指令不存在。"
  const SessionObjectName: string := "MiraiHttpSession"

  /** The exceptions the client raises. */
  datatype Error =
    | InvalidAuthKey
    | BotNotFound
    | InvalidSession
      /** None: the exception's default message. */
    | TargetNotFound(customMessage: Option<string>)
    | FileNotFound(message: string)
    | PermissionDenied
    | BotMuted
    | MessageTooLong
      /** ArgumentException. */
    | Argument(message: string)
    | UnknownResponse(raw: Json)
    | InvalidOperation(message: string)
    | ObjectDisposed(objectName: string)
    | ArgumentOutOfRange(paramName: string)
    | PictureNotSupported
      /** Voice upload against a server older than 1.8.0; the message text, which names the version, is not modelled. */
    | VoiceNotSupported
      /** JsonException: the body is not JSON. */
    | MalformedJson
      /** A frame without a "type" property. */
    | MissingProperty(name: string)
      /** InvalidOperationException from reading a non-string JSON value as a string. */
    | NotAString
    | NullReference
      /** ObjectDisposedException from cancelling a CancellationTokenSource that was already disposed. */
    | CancellerDisposed
      /** A socket or protocol fault of the WebSocket, or any other transport error. */
    | Transport

  /**
   * GetCommonException: the error a non-zero status code raises. Every code
   * outside the table becomes an unknown-response error with the raw body.
   */
  function GetCommonException(code: int, raw: Json): (e: Error)
    ensures e.UnknownResponse? <==> code !in KnownCodes
    ensures e.UnknownResponse? ==> e.raw == raw
    ensures code in KnownCodes ==> e in {InvalidAuthKey, BotNotFound, InvalidSession, TargetNotFound(None),
      FileNotFound(FileNotFoundMessage), PermissionDenied, BotMuted, MessageTooLong, Argument(ArgumentErrorMessage)}
  {
    match code
    case 1 => InvalidAuthKey
    case 2 => BotNotFound
    case 3 => InvalidSession
    case 4 => InvalidSession
    case 5 => TargetNotFound(None)
    case 6 => FileNotFound(FileNotFoundMessage)
    case 10 => PermissionDenied
    case 20 => BotMuted
    case 30 => MessageTooLong
    case 400 => Argument(ArgumentErrorMessage)
    case _ => UnknownResponse(raw)
  }

  /** The codes the table lists. */
  const KnownCodes: set<int> := {1, 2, 3, 4, 5, 6, 10, 20, 30, 400}

  /**
   * Reference definition of the table, from the error kind back to the codes
   * that produce it.
   */
  function CodesOf(e: Error): (codes: set<int>)
    ensures codes <= KnownCodes
  {
    match e
    case InvalidAuthKey => {1}
    case BotNotFound => {2}
    case InvalidSession => {3, 4}
    case TargetNotFound(m) => if m == None then {5} else {}
    case FileNotFound(m) => if m == FileNotFoundMessage then {6} else {}
    case PermissionDenied => {10}
    case BotMuted => {20}
    case MessageTooLong => {30}
    case Argument(m) => if m == ArgumentErrorMessage then {400} else {}
    case _ => {}
  }

  /** A listed code maps to the kind the table names, and to nothing else. */
  lemma KnownCodeMapsToItsKind(code: int, raw: Json, e: Error)
    requires code in KnownCodes
    ensures GetCommonException(code, raw) == e <==> code in CodesOf(e)
  {
  }

  /** Any other code yields unknown-response carrying exactly the raw body. */
  lemma UnknownCodeCarriesRawBody(code: int, raw: Json)
    ensures code !in KnownCodes <==> GetCommonException(code, raw) == UnknownResponse(raw)
  {
  }

  /** Only 3 and 4 share a kind: every other pair of listed codes is told apart. */
  lemma DistinctCodesDistinctKinds(c1: int, c2: int, raw: Json)
    requires c1 in KnownCodes && c2 in KnownCodes && c1 != c2
    requires GetCommonException(c1, raw) == GetCommonException(c2, raw)
    ensures {c1, c2} == {3, 4}
  {
  }

  /** A response body as the server sends it. */
  datatype Reply<+T> =
    | NotJson(text: string)
      /** A JSON envelope; `data` is the payload, meaningful only when code is 0. */
    | Envelope(code: int, raw: Json, data: T)

  /**
   * How AuthorizeAsync (the session key), GetVersionAsync (the version) and
   * CommonSendMessageAsync (the messageId) read a reply: code 0 gives the
   * payload, any other code the mapped error, a body that is not JSON a
   * JsonException.
   */
  function ReadEnvelope<T>(reply: Reply<T>): (r: Result<T, Error>)
    ensures reply.Envelope? && reply.code == 0 ==> r == Success(reply.data)
    ensures reply.Envelope? && reply.code != 0 ==> r == Failure(GetCommonException(reply.code, reply.raw))
    ensures reply.NotJson? ==> r == Failure(MalformedJson)
  {
    match reply
    case NotJson(_) => Failure(MalformedJson)
    case Envelope(code, raw, data) =>
      if code == 0 then Success(data) else Failure(GetCommonException(code, raw))
  }

  /**
   * RegisterCommandAsync: a body that is not JSON becomes an
   * InvalidOperationException carrying the text; a JSON body is read as an
   * envelope.
   */
  function ReadCommandReply<T>(reply: Reply<T>): (r: Outcome<Error>)
    ensures r.Pass? <==> reply.Envelope? && reply.code == 0
    ensures reply.NotJson? ==> r == Fail(InvalidOperation(reply.text))
    ensures reply.Envelope? && reply.code != 0 ==> r == Fail(GetCommonException(reply.code, reply.raw))
  {
    match reply
    case NotJson(text) => Fail(InvalidOperation(text))
    case Envelope(code, raw, _) =>
      if code == 0 then Pass else Fail(GetCommonException(code, raw))
  }

  /** ExecuteCommandAsync: as RegisterCommandAsync, but a target-not-found error says the command does not exist. */
  function ReadExecuteReply<T>(reply: Reply<T>): (r: Outcome<Error>)
    ensures r.Pass? <==> reply.Envelope? && reply.code == 0
    ensures reply.NotJson? ==> r == Fail(InvalidOperation(reply.text))
    ensures reply.Envelope? && reply.code == 5 ==> r == Fail(TargetNotFound(Some(CommandNotFoundMessage)))
  {
    match ReadCommandReply(reply)
    case Fail(TargetNotFound(_)) => Fail(TargetNotFound(Some(CommandNotFoundMessage)))
    case other => other
  }

  /** The command APIs never confuse a non-JSON body with a status code: the raw text travels unchanged. */
  lemma CommandReplyNonJson<T>(text: string)
    ensures ReadCommandReply(Reply<T>.NotJson(text)) == Fail(InvalidOperation(text))
    ensures ReadExecuteReply(Reply<T>.NotJson(text)) == Fail(InvalidOperation(text))
  {
  }

  /** The command APIs agree with the envelope reading on a JSON body. */
  lemma CommandReplyAgreesWithEnvelope<T>(reply: Reply<T>)
    requires reply.Envelope?
    ensures ReadCommandReply(reply).Pass? <==> ReadEnvelope(reply).Success?
    ensures ReadCommandReply(reply).Fail? ==> ReadCommandReply(reply).error == ReadEnvelope(reply).error
  {
  }

  /** Execute differs from Register only on code 5, whose message it rewrites. */
  lemma ExecuteRewritesOnlyTargetNotFound<T>(reply: Reply<T>)
    ensures ReadExecuteReply(reply) != ReadCommandReply(reply) <==> reply.Envelope? && reply.code == 5
    ensures reply.Envelope? && reply.code == 5 ==>
      ReadExecuteReply(reply) == Fail(TargetNotFound(Some(CommandNotFoundMessage)))
  {
  }
}
