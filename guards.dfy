/**
 * The argument checks MiraiHttpSession makes before it sends a request, the
 * version gates of the upload APIs, and the choice of endpoint names.
 */
module Guards {
  import opened Wrappers
  import opened ApiErrors
  import opened Messages

  // ---------------------------------------------------------------------------
  // MuteAsync: the duration, as TimeSpan ticks

  const TicksPerSecond: int := 10_000_000
  const SecondsPerDay: int := 86_400
  const TicksPerDay: int := SecondsPerDay * TicksPerSecond
  /** TimeSpan.FromDays(30), the excluded upper end. */
  const MaxMuteTicks: int := 30 * TicksPerDay
  const DurationParam: string := "duration"

  /**
   * The duration check, then the `time` field: the whole number of seconds,
   * the fraction dropped as the (int) cast does for a positive double.
   */
  function MuteSeconds(ticks: int): (r: Result<int, Error>)
    ensures r.Success? <==> 0 < ticks < MaxMuteTicks
    ensures r.Failure? ==> r.error == ArgumentOutOfRange(DurationParam)
    ensures r.Success? ==>
      0 <= r.value < 30 * SecondsPerDay &&
      r.value * TicksPerSecond <= ticks < (r.value + 1) * TicksPerSecond
  {
    if ticks <= 0 || ticks >= MaxMuteTicks then Failure(ArgumentOutOfRange(DurationParam))
    else Success(ticks / TicksPerSecond)
  }

  /** Both ends of the range are refused: zero and exactly thirty days. */
  lemma MuteRangeIsOpen()
    ensures MuteSeconds(0).Failure? && MuteSeconds(MaxMuteTicks).Failure?
    ensures MuteSeconds(1).Success? && MuteSeconds(MaxMuteTicks - 1).Success?
  {
  }

  /** A positive duration under one second passes the check and is sent as zero seconds. */
  lemma SubSecondMuteSendsZero(ticks: int)
    requires 0 < ticks < TicksPerSecond
    ensures MuteSeconds(ticks) == Success(0)
  {
  }

  /** A longer duration never yields fewer seconds. */
  lemma MuteSecondsMonotone(t1: int, t2: int)
    requires 0 < t1 <= t2 < MaxMuteTicks
    ensures MuteSeconds(t1).value <= MuteSeconds(t2).value
  {
    var s1 := MuteSeconds(t1).value;
    var s2 := MuteSeconds(t2).value;
    assert s1 * TicksPerSecond < (s2 + 1) * TicksPerSecond;
  }

  // ---------------------------------------------------------------------------
  // CommonSendMessageAsync: the chain checks, in order

  const EmptyChainMessage: string := "消息链必须为非空且至少有1条消息。"
  const SourceInChainMessage: string := "无法发送基本信息(SourceMessage)。"
  const QuoteInChainMessage: string := "无法发送引用信息(QuoteMessage), 请使用quoteMsgId参数进行引用。"
  const AllEmptyPlainMessage: string := "消息链中的所有消息均为空。"

  /** A PlainMessage whose text is null or empty. */
  predicate EmptyPlain(e: MessageElement)
  {
    e.PlainElement? && (e.plain.message.None? || e.plain.message.value == "")
  }

  /** chain.OfType<SourceMessage>().Any() */
  predicate AnySource(chain: seq<MessageElement>)
  {
    chain != [] && (chain[0].SourceElement? || AnySource(chain[1..]))
  }

  /** chain.OfType<QuoteMessage>().Any() */
  predicate AnyQuote(chain: seq<MessageElement>)
  {
    chain != [] && (chain[0].QuoteElement? || AnyQuote(chain[1..]))
  }

  /** chain.All(p => p is PlainMessage pm && string.IsNullOrEmpty(pm.Message)) */
  predicate AllEmptyPlain(chain: seq<MessageElement>)
  {
    chain == [] || (EmptyPlain(chain[0]) && AllEmptyPlain(chain[1..]))
  }

  lemma {:induction false} AnySourceIff(chain: seq<MessageElement>)
    ensures AnySource(chain) <==> exists i :: 0 <= i < |chain| && chain[i].SourceElement?
  {
    if chain != [] {
      AnySourceIff(chain[1..]);
      if exists i :: 0 <= i < |chain| && chain[i].SourceElement? {
        var i :| 0 <= i < |chain| && chain[i].SourceElement?;
        if i > 0 { assert chain[1..][i - 1] == chain[i]; }
      }
      if AnySource(chain[1..]) {
        var i :| 0 <= i < |chain[1..]| && chain[1..][i].SourceElement?;
        assert chain[i + 1] == chain[1..][i];
      }
    }
  }

  lemma {:induction false} AnyQuoteIff(chain: seq<MessageElement>)
    ensures AnyQuote(chain) <==> exists i :: 0 <= i < |chain| && chain[i].QuoteElement?
  {
    if chain != [] {
      AnyQuoteIff(chain[1..]);
      if exists i :: 0 <= i < |chain| && chain[i].QuoteElement? {
        var i :| 0 <= i < |chain| && chain[i].QuoteElement?;
        if i > 0 { assert chain[1..][i - 1] == chain[i]; }
      }
      if AnyQuote(chain[1..]) {
        var i :| 0 <= i < |chain[1..]| && chain[1..][i].QuoteElement?;
        assert chain[i + 1] == chain[1..][i];
      }
    }
  }

  lemma {:induction false} AllEmptyPlainIff(chain: seq<MessageElement>)
    ensures AllEmptyPlain(chain) <==> forall i :: 0 <= i < |chain| ==> EmptyPlain(chain[i])
  {
    if chain != [] {
      AllEmptyPlainIff(chain[1..]);
      if forall i :: 0 <= i < |chain| ==> EmptyPlain(chain[i]) {
        forall i | 0 <= i < |chain[1..]| ensures EmptyPlain(chain[1..][i]) {
          assert chain[1..][i] == chain[i + 1];
        }
      }
      if AllEmptyPlain(chain) {
        forall i | 0 <= i < |chain| ensures EmptyPlain(chain[i]) {
          if i > 0 { assert chain[i] == chain[1..][i - 1]; }
        }
      }
    }
  }

  /**
   * The four checks of CommonSendMessageAsync, each throwing an
   * ArgumentException with its own message; the first that fails wins.
   * `None` is a null array.
   */
  function CheckChain(chain: Option<seq<MessageElement>>): (r: Outcome<Error>)
    ensures r.Fail? ==> r.error.Argument?
    ensures r == Fail(Argument(EmptyChainMessage)) <==> chain.None? || chain.value == []
    ensures r == Fail(Argument(SourceInChainMessage)) <==>
      chain.Some? && exists i :: 0 <= i < |chain.value| && chain.value[i].SourceElement?
    ensures r == Fail(Argument(QuoteInChainMessage)) <==>
      chain.Some? && chain.value != [] &&
      (forall i :: 0 <= i < |chain.value| ==> !chain.value[i].SourceElement?) &&
      (exists i :: 0 <= i < |chain.value| && chain.value[i].QuoteElement?)
    ensures r == Fail(Argument(AllEmptyPlainMessage)) <==>
      chain.Some? && chain.value != [] && forall i :: 0 <= i < |chain.value| ==> EmptyPlain(chain.value[i])
    ensures r == Pass <==>
      chain.Some? && chain.value != [] &&
      (forall i :: 0 <= i < |chain.value| ==> !chain.value[i].SourceElement? && !chain.value[i].QuoteElement?) &&
      (exists i :: 0 <= i < |chain.value| && !EmptyPlain(chain.value[i]))
  {
    if chain.None? || chain.value == [] then Fail(Argument(EmptyChainMessage))
    else
      AnySourceIff(chain.value);
      AnyQuoteIff(chain.value);
      AllEmptyPlainIff(chain.value);
      if AnySource(chain.value) then Fail(Argument(SourceInChainMessage))
      else if AnyQuote(chain.value) then Fail(Argument(QuoteInChainMessage))
      else if AllEmptyPlain(chain.value) then Fail(Argument(AllEmptyPlainMessage))
      else Pass
  }

  /** A chain of plain text, one piece of it non-empty, passes. */
  lemma PlainTextChainPasses(text: string)
    requires text != ""
    ensures CheckChain(Some([PlainElement(NewPlainMessage(text))])) == Pass
  {
    assert !EmptyPlain([PlainElement(NewPlainMessage(text))][0]);
  }

  /** A chain with both a source and a quote reports the source: the checks run in order. */
  lemma SourceReportedBeforeQuote(rest: seq<MessageElement>)
    ensures CheckChain(Some([QuoteElement, SourceElement] + rest)) == Fail(Argument(SourceInChainMessage))
  {
    assert ([QuoteElement, SourceElement] + rest)[1].SourceElement?;
  }

  // ---------------------------------------------------------------------------
  // CommonSendImageAsync: the url list

  const EmptyUrlsMessage: string := "urls必须为非空且至少有1条url。"

  function CheckUrls(urls: Option<seq<string>>): (r: Outcome<Error>)
    ensures r.Pass? <==> urls.Some? && |urls.value| > 0
    ensures r.Fail? ==> r.error == Argument(EmptyUrlsMessage)
  {
    if urls.None? || |urls.value| == 0 then Fail(Argument(EmptyUrlsMessage)) else Pass
  }

  // ---------------------------------------------------------------------------
  // RegisterCommandAsync: the name check and the payload

  const EmptyCommandNameMessage: string := "指令名必须非空。"

  datatype RegisterPayload = RegisterPayload(
    authKey: string, name: string, alias: seq<string>, description: Option<string>, usage: Option<string>)

  /** string.IsNullOrEmpty(name) throws; a null alias array is sent as an empty one; the rest is sent as given. */
  function RegisterCommandPayload(authKey: string, name: Option<string>, alias: Option<seq<string>>,
                                  description: Option<string>, usage: Option<string>): (r: Result<RegisterPayload, Error>)
    ensures r.Failure? <==> name.None? || name.value == ""
    ensures r.Failure? ==> r.error == Argument(EmptyCommandNameMessage)
    ensures r.Success? ==>
      r.value.authKey == authKey && Some(r.value.name) == name &&
      (alias.None? ==> r.value.alias == []) && (alias.Some? ==> r.value.alias == alias.value) &&
      r.value.description == description && r.value.usage == usage
  {
    if name.None? || name.value == "" then Failure(Argument(EmptyCommandNameMessage))
    else Success(RegisterPayload(authKey, name.value, alias.GetOr([]), description, usage))
  }

  // ---------------------------------------------------------------------------
  // System.Version and the two upload gates

  /**
   * A System.Version as Version.Parse builds it: major and minor always
   * present, build and revision -1 when the text leaves them out.
   */
  datatype Version = Version(major: int, minor: int, build: int, revision: int)

  predicate WellFormed(v: Version)
  {
    v.major >= 0 && v.minor >= 0 && v.build >= -1 && v.revision >= -1 && (v.build == -1 ==> v.revision == -1)
  }

  /** new Version(major, minor, build): the revision is undefined. */
  function Version3(major: nat, minor: nat, build: nat): (v: Version)
    ensures WellFormed(v) && v.revision == -1
  {
    Version(major, minor, build, -1)
  }

  /** Version.CompareTo: component by component, an undefined component below every defined one. */
  function CompareVersions(a: Version, b: Version): (c: int)
    ensures c in {-1, 0, 1}
    ensures c == 0 <==> a == b
  {
    if a.major != b.major then (if a.major < b.major then -1 else 1)
    else if a.minor != b.minor then (if a.minor < b.minor then -1 else 1)
    else if a.build != b.build then (if a.build < b.build then -1 else 1)
    else if a.revision != b.revision then (if a.revision < b.revision then -1 else 1)
    else 0
  }

  lemma CompareAntisymmetric(a: Version, b: Version)
    ensures CompareVersions(a, b) == -CompareVersions(b, a)
  {
  }

  lemma CompareTransitive(a: Version, b: Version, c: Version)
    requires CompareVersions(a, b) <= 0 && CompareVersions(b, c) <= 0
    ensures CompareVersions(a, c) <= 0
  {
  }

  /** `v <= w` for a nullable left side: null is below everything. */
  predicate AtMost(v: Option<Version>, w: Version)
  {
    v.None? || CompareVersions(v.value, w) <= 0
  }

  /** `v < w` for a nullable left side and a non-null right side. */
  predicate Below(v: Option<Version>, w: Version)
  {
    v.None? || CompareVersions(v.value, w) < 0
  }

  /** InternalUploadPictureAsync takes the local-listener path for `ApiVersion <= 1.7.0`. */
  predicate UsesLegacyPictureUpload(apiVersion: Option<Version>)
  {
    AtMost(apiVersion, Version3(1, 7, 0))
  }

  /** InternalUploadVoiceAsync refuses `ApiVersion < 1.8.0`. */
  predicate SupportsVoiceUpload(apiVersion: Option<Version>)
  {
    !Below(apiVersion, Version3(1, 8, 0))
  }

  /** Every server old enough for the legacy picture path is too old for voice. */
  lemma LegacyPictureExcludesVoice(apiVersion: Option<Version>)
    ensures UsesLegacyPictureUpload(apiVersion) ==> !SupportsVoiceUpload(apiVersion)
  {
  }

  /** Versions from 1.7.1 up to 1.8.0 use the multipart picture upload and still have no voice upload. */
  lemma GateGap()
    ensures !UsesLegacyPictureUpload(Some(Version3(1, 7, 1))) && !SupportsVoiceUpload(Some(Version3(1, 7, 1)))
    ensures !UsesLegacyPictureUpload(Some(Version(1, 7, 0, 0)))
    ensures SupportsVoiceUpload(Some(Version3(1, 8, 0)))
  {
  }

  /** An unknown server version (null) takes the legacy picture path and has no voice upload. */
  lemma UnknownVersionIsOldest()
    ensures UsesLegacyPictureUpload(None) && !SupportsVoiceUpload(None)
  {
  }

  /** The picture gate is downward closed, the voice gate upward closed. */
  lemma GatesMonotone(v: Version, w: Version)
    requires CompareVersions(v, w) <= 0
    ensures UsesLegacyPictureUpload(Some(w)) ==> UsesLegacyPictureUpload(Some(v))
    ensures SupportsVoiceUpload(Some(v)) ==> SupportsVoiceUpload(Some(w))
  {
    if UsesLegacyPictureUpload(Some(w)) {
      CompareTransitive(v, w, Version3(1, 7, 0));
    }
    if SupportsVoiceUpload(Some(v)) {
      CompareAntisymmetric(v, Version3(1, 8, 0));
      CompareAntisymmetric(w, Version3(1, 8, 0));
      CompareAntisymmetric(v, w);
      CompareTransitive(Version3(1, 8, 0), v, w);
    }
  }

  // ---------------------------------------------------------------------------
  // The picture upload: format name and the refused-JSON reply

  /**
   * img.RawFormat.ToString(): the three formats the server takes keep their
   * (lower-cased) name; any other image is re-encoded as PNG.
   */
  function PictureFormat(rawFormat: string): (r: (string, bool))
    ensures r.1 <==> rawFormat !in {"Jpeg", "Png", "Gif"}
    ensures r.0 in {"jpeg", "png", "gif"}
    ensures rawFormat == "Jpeg" ==> r.0 == "jpeg"
    ensures rawFormat == "Png" ==> r.0 == "png"
    ensures rawFormat == "Gif" ==> r.0 == "gif"
    ensures r.1 ==> r.0 == "png"
  {
    match rawFormat
    case "Jpeg" => ("jpeg", false)
    case "Png" => ("png", false)
    case "Gif" => ("gif", false)
    case _ => ("png", true)
  }

  /** The part's content type is "image/" followed by the format. */
  function PictureContentType(rawFormat: string): (t: string)
    ensures |t| > 6 && t[..6] == "image/" && t[6..] in {"jpeg", "png", "gif"}
  {
    var format := PictureFormat(rawFormat).0;
    assert ("image/" + format)[6..] == format;
    "image/" + format
  }

  /** A reply the JSON reader refuses means the server cannot take pictures. */
  function ReadUploadReply<T>(reply: Option<T>): (r: Result<T, Error>)
    ensures r.Failure? <==> reply.None?
    ensures r.Failure? ==> r.error == PictureNotSupported
    ensures r.Success? ==> reply == Some(r.value)
  {
    match reply
    case None => Failure(PictureNotSupported)
    case Some(v) => Success(v)
  }

  // ---------------------------------------------------------------------------
  // Endpoint names

  /** InternalToggleMuteAllAsync: `true` mutes the whole group. */
  function MuteAllEndpoint(action: bool): (path: string)
    ensures path in {"muteAll", "unmuteAll"}
  {
    if action then "muteAll" else "unmuteAll"
  }

  lemma MuteAllEndpointInjective(a: bool, b: bool)
    ensures MuteAllEndpoint(a) == MuteAllEndpoint(b) <==> a == b
  {
    assert "muteAll" != "unmuteAll";
  }

  /** The three request-handling APIs and the kinds of request they answer. */
  datatype ApplyKind = NewFriendApply | GroupApply | BotInvitedJoinGroup

  function ApplyActionPath(kind: ApplyKind): string
  {
    match kind
    case NewFriendApply => "newFriendRequestEvent"
    case GroupApply => "memberJoinRequestEvent"
    case BotInvitedJoinGroup => "botInvitedJoinGroupRequestEvent"
  }

  /** CommonHandleApplyAsync posts to "resp/" followed by the kind's path; each kind has its own. */
  function ApplyEndpoint(kind: ApplyKind): (path: string)
    ensures |path| > 5 && path[..5] == "resp/" && path[5..] == ApplyActionPath(kind)
  {
    "resp/" + ApplyActionPath(kind)
  }

  lemma ApplyEndpointInjective(a: ApplyKind, b: ApplyKind)
    ensures ApplyEndpoint(a) == ApplyEndpoint(b) <==> a == b
  {
    if a != b {
      assert ApplyEndpoint(a)[5..] != ApplyEndpoint(b)[5..];
    }
  }

  /** The three send APIs: each fills the qq and group fields its own way. */
  datatype SendTarget = FriendTarget(qq: int) | TempTarget(qq: int, group: int) | GroupTarget(group: int)

  function SendEndpoint(t: SendTarget): (path: string)
    ensures path in {"sendFriendMessage", "sendTempMessage", "sendGroupMessage"}
  {
    match t
    case FriendTarget(_) => "sendFriendMessage"
    case TempTarget(_, _) => "sendTempMessage"
    case GroupTarget(_) => "sendGroupMessage"
  }

  function QQField(t: SendTarget): Option<int>
  {
    if t.GroupTarget? then None else Some(t.qq)
  }

  function GroupField(t: SendTarget): Option<int>
  {
    if t.FriendTarget? then None else Some(t.group)
  }

  /** The endpoint and the two fields together identify the target. */
  lemma SendTargetRecoverable(a: SendTarget, b: SendTarget)
    requires SendEndpoint(a) == SendEndpoint(b) && QQField(a) == QQField(b) && GroupField(a) == GroupField(b)
    ensures a == b
  {
    assert "sendFriendMessage" != "sendTempMessage";
    assert "sendFriendMessage" != "sendGroupMessage";
    assert "sendTempMessage" != "sendGroupMessage";
  }
}
