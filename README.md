# Mirai-CSharp session core in Dafny

This project models the core of `MiraiHttpSession`, the client of the
mirai-api-http protocol in Mirai-CSharp, and proves properties of the model.

- **The session slot.** A session holds at most one `InternalSessionInfo` in
  a slot. `ConnectAsync` fills the slot. `ReleaseAsync`, `DisposeAsync` and a
  faulting receive loop empty it.
- **Connecting.** The handshake runs auth, verify, about, GET /config and,
  when the WebSocket is off, POST /config. A failed step rolls the attempt
  back.
- **Status codes.** Every reply is read through one envelope. Code 0 carries
  the payload. Any other code raises the exception that `GetCommonException`
  maps it to.
- **Session-scoped calls.** Each call is modelled the same way: the disposed
  check and slot check (`SafeGetSession`), then its argument checks and
  version gates, then one request, then the reading of the reply.
- **Events.** Each event-stream frame is routed by its `"type"` string to one
  of the event fields. An unknown type goes to UnknownMessage with the JSON
  unchanged. Each command-stream frame is a CommandExecuted event. Every
  frame's event runs the plugins first and then the handlers, stopping at the
  first that handles it, throws or faults. Disconnected is a plain multicast
  notification: no plugin sees it, and it stops only at a handler that throws.
- **Small pieces.**
  - the charset lookup of `HttpClientExtensions.GetEncoding`, and when the
    body is transcoded;
  - the `PokeType` numbering;
  - the constructors and `ToString` forms of `PokeMessage`, `XmlMessage` and
    `PlainMessage`.

Modules:

- `Wrappers`: Option, Result and Outcome.
- `ApiErrors`: the status-code table and the envelope readings.
- `Messages`: the modelled message elements.
- `Charset`: the charset handling.
- `Events`: the channels and the discriminator switch.
- `Dispatch`: the plugin/handler chain and the invocation-list edits.
- `Guards`: argument checks, version gates and endpoint names.
- `Operations`: what each session-scoped call sends and how it reads the reply.
- `Session`: the `MiraiHttpSession` and `InternalSessionInfo` classes, the
  handshake and the receive loops.

How the model stands in for the outside world:

- HTTP and the server's replies are parameters: a `Handshake` record for
  connecting, and a `Reply` for a call.
- The requests sent are appended to the `sent` log.
- Every event delivered, with the plugin and handler calls it caused, is
  appended to the `deliveries` log.
- Each `Interlocked` operation is one atomic step of a sequential run.

## Model

| member | source | states |
|---|---|---|
| ApiErrors.KnownCodeMapsToItsKind | Mirai-CSharp/MiraiHttpSession.cs:1255-1272 | For each listed code (1, 2, 3, 4, 5, 6, 10, 20, 30, 400), GetCommonException gives kind e exactly when the code is one of e's codes in the reference table CodesOf. |
| ApiErrors.UnknownCodeCarriesRawBody | Mirai-CSharp/MiraiHttpSession.cs:1270 | A code gives UnknownResponse carrying the raw body exactly when the table does not list it. |
| ApiErrors.DistinctCodesDistinctKinds | Mirai-CSharp/MiraiHttpSession.cs:1257-1269 | Two different listed codes give the same exception only when they are 3 and 4 (InvalidSession). |
| ApiErrors.CodesOf | Mirai-CSharp/MiraiHttpSession.cs:1255-1272 | Reference table from exception kind back to its codes; every code it names is a listed one. |
| ApiErrors.GetCommonException | Mirai-CSharp/MiraiHttpSession.cs:1255-1272 | A listed code gives one of the nine kinds the table names. Every other code, and only such a code, gives UnknownResponse carrying the raw body. KnownCodeMapsToItsKind pins each listed code to its kind. |
| ApiErrors.ReadEnvelope | Mirai-CSharp/MiraiHttpSession.cs:495-505 | Code 0 yields the payload. A non-zero code yields GetCommonException(code, raw). A non-JSON body yields a JSON error. |
| ApiErrors.ReadCommandReply | Mirai-CSharp/MiraiHttpSession.cs:661-673 | The register reading passes exactly on code 0. A non-JSON body gives InvalidOperationException with the body text, and a non-zero code gives the mapped error. |
| ApiErrors.ReadExecuteReply | Mirai-CSharp/MiraiHttpSession.cs:709-727 | The execute reading passes exactly on code 0. A non-JSON body gives InvalidOperationException with the body text, and code 5 gives TargetNotFound with the command-not-found message. |
| ApiErrors.CommandReplyNonJson | Mirai-CSharp/MiraiHttpSession.cs:661-673 | Register and execute turn a non-JSON body into InvalidOperationException carrying the body text unchanged. |
| ApiErrors.CommandReplyAgreesWithEnvelope | Mirai-CSharp/MiraiHttpSession.cs:663-668 | On a JSON body, the command reading passes exactly when the envelope reading succeeds, and fails with the same error. |
| ApiErrors.ExecuteRewritesOnlyTargetNotFound | Mirai-CSharp/MiraiHttpSession.cs:709-727 | Execute differs from register exactly on code 5, which it reports as TargetNotFound with the message "给定的指令不存在。". |
| Messages.PokeValue | Mirai-CSharp/Models/Messages/PokeMessage.cs:22-48 | Every kind's number lies in 1..6. |
| Messages.PokeOfValue | Mirai-CSharp/Models/Messages/PokeMessage.cs:22-48 | A number has a kind exactly when it is in 1..6. |
| Messages.PokeValueRoundTrip | Mirai-CSharp/Models/Messages/PokeMessage.cs:22-48 | Reading back a kind's number gives the kind. |
| Messages.PokeValueInjective | Mirai-CSharp/Models/Messages/PokeMessage.cs:27-47 | Two kinds have the same number exactly when they are equal (declaration order from Poke = 1). |
| Messages.NewPokeMessage | Mirai-CSharp/Models/Messages/PokeMessage.cs:67-70 | The element is tagged "Poke" and keeps the given kind. |
| Messages.PokeToString | Mirai-CSharp/Models/Messages/PokeMessage.cs:73 | The string has 17 characters, and the one at index 12 is the digit of the kind's number. PokeToStringShape and PokeStringRoundTrip state the whole form. |
| Messages.PokeToStringShape | Mirai-CSharp/Models/Messages/PokeMessage.cs:73 | ToString is 17 characters: "[mirai:poke:", the kind's number as one digit, then ",-1]". |
| Messages.PokeStringRoundTrip | Mirai-CSharp/Models/Messages/PokeMessage.cs:73 | Parsing ToString gives back the kind. |
| Messages.PokeStringInjective | Mirai-CSharp/Models/Messages/PokeMessage.cs:73 | Two pokes have the same string exactly when they have the same kind. |
| Messages.NewXmlMessage | Mirai-CSharp/Models/Messages/XmlMessage.cs:31-34 | The element is tagged "Xml" and keeps the xml text. |
| Messages.XmlToString | Mirai-CSharp/Models/Messages/XmlMessage.cs:37 | The string is 19 characters longer than the xml and ends with "]". XmlToStringShape and XmlStringRoundTrip state the whole form. |
| Messages.XmlToStringShape | Mirai-CSharp/Models/Messages/XmlMessage.cs:37 | ToString starts with the 18-character "[mirai:service:60,", whose service id is 60. It ends with "]" and is 19 characters longer than the xml. |
| Messages.XmlStringRoundTrip | Mirai-CSharp/Models/Messages/XmlMessage.cs:37 | Dropping the prefix and the closing bracket gives back the xml. |
| Messages.NewPlainMessage | Mirai-CSharp/Models/Messages/PlainMessage.cs:31-34 | The element is tagged "Plain" and keeps the text. |
| Messages.PlainToString | Mirai-CSharp/Models/Messages/PlainMessage.cs:37 | ToString is the stored text itself, null included. |
| Messages.PlainJsonFields | Mirai-CSharp/Models/Messages/PlainMessage.cs:18 | The JSON form has two properties: "type" and "text". |
| Messages.PlainJsonRoundTrip | Mirai-CSharp/Models/Messages/PlainMessage.cs:18 | Reading the two JSON properties back gives the element. |
| Charset.LookupName | Mirai-CSharp/Extensions/HttpClientExtensions.cs:236-239 | A charset longer than 2 characters with a quote at both ends loses those two quotes; any other charset is looked up as it is. |
| Charset.LookupNameRemovesOnePair | Mirai-CSharp/Extensions/HttpClientExtensions.cs:236-239 | The name is either the charset itself or the charset without one surrounding pair of quotes. |
| Charset.LookupNameKeepsInnerQuotes | Mirai-CSharp/Extensions/HttpClientExtensions.cs:236-239 | A doubly quoted charset keeps its inner pair of quotes. |
| Charset.LookupNameShortOrOneSided | Mirai-CSharp/Extensions/HttpClientExtensions.cs:237 | A charset of at most 2 characters, or one quoted on one side only, is looked up unchanged. |
| Charset.GetEncoding | Mirai-CSharp/Extensions/HttpClientExtensions.cs:229-249 | No charset means no encoding. A known name gives its encoding. An unknown name raises InvalidOperationException with the invalid-charset message. |
| Charset.NoCharsetNoLookup | Mirai-CSharp/Extensions/HttpClientExtensions.cs:233 | Without a charset the registry is never consulted. |
| Charset.LookupOnlyAtName | Mirai-CSharp/Extensions/HttpClientExtensions.cs:236-244 | The answer depends on the registry only at the looked-up name. |
| Charset.ShouldTranscode | Mirai-CSharp/Extensions/HttpClientExtensions.cs:304 | Computes the transcode condition: an encoding was found and it is not UTF-8. TranscodeIffKnownNonUtf8 states its meaning. |
| Charset.BodyDecodingFor | Mirai-CSharp/Extensions/HttpClientExtensions.cs:301-305 | Computes how GetJsonAsync reads the body: the charset error, the body as UTF-8, or a transcode from the named encoding. TranscodeIffKnownNonUtf8 states its meaning. |
| Charset.TranscodeIffKnownNonUtf8 | Mirai-CSharp/Extensions/HttpClientExtensions.cs:303-305 | The body is transcoded exactly when the charset names a known encoding other than UTF-8. The read fails exactly when the charset names an unknown encoding. |
| Events.Discriminator | Mirai-CSharp/MiraiHttpSession.cs:1505-1676 | Reference table from channel to its "type" string. Only UnknownMessage, Disconnected and CommandExecuted have none. |
| Events.Route | Mirai-CSharp/MiraiHttpSession.cs:1505-1676 | Computes the event-stream switch from a "type" string to its channel, with UnknownMessage for every other string. RouteListed and RouteOnlyFromListed tie it to Discriminator in both directions. |
| Events.RouteListed | Mirai-CSharp/MiraiHttpSession.cs:1505-1670 | Every listed "type" string is routed to its own channel. |
| Events.RouteOnlyFromListed | Mirai-CSharp/MiraiHttpSession.cs:1505-1676 | A string that reaches a named channel is exactly that channel's listed string. |
| Events.RouteInjective | Mirai-CSharp/MiraiHttpSession.cs:1505-1670 | No two strings share a named channel. |
| Events.RouteUnlistedIsUnknown | Mirai-CSharp/MiraiHttpSession.cs:1671-1675 | A string no channel lists falls to the default: UnknownMessage. |
| Events.RouteFrame | Mirai-CSharp/MiraiHttpSession.cs:1505-1676 | The routed channel is the switch's. An unknown frame carries its JSON unchanged, and every other frame carries its decoded payload. |
| Dispatch.Accepting | Mirai-CSharp/MiraiHttpSession.cs:1466-1467 | The plugins that can take the event: every plugin in the result is from the list and accepts the channel, and every plugin of the list that accepts the channel is in the result. |
| Dispatch.PluginPhase | Mirai-CSharp/MiraiHttpSession.cs:1466-1470 | Computes the plugin calls: accepting plugins in order, up to the first that does not decline. PluginPhaseIsAcceptingUpToStop ties it to Accepting and UpToStop. |
| Dispatch.PluginsStop | Mirai-CSharp/MiraiHttpSession.cs:1466-1470 | Computes whether a plugin ended delivery. PluginsStopIffSomeAcceptingStops and PluginsStopIffLastCallStops state its meaning. |
| Dispatch.HandlerPhase | Mirai-CSharp/MiraiHttpSession.cs:1484-1488 | Computes the handler calls: in list order until one does not decline. HandlerPhaseInOrder states its meaning. |
| Dispatch.Chain | Mirai-CSharp/MiraiHttpSession.cs:1462-1480 | Computes everything one delivery invokes: the plugin phase, then the handler phase unless a plugin stopped. ChainShortCircuits and NoPluginStopsThenHandlers state its two cases. |
| Dispatch.NotifyAll | Mirai-CSharp/MiraiHttpSession.cs:1689 | Computes the Disconnected notification: every handler in order, cut only at one that throws while being invoked. NotifyAllReachesEveryHandlerUntilThrow states its meaning. |
| Dispatch.PluginPhaseIsAcceptingUpToStop | Mirai-CSharp/MiraiHttpSession.cs:1466-1470 | The plugin phase calls the accepting plugins in list order, up to and including the first that handles or throws. |
| Dispatch.PluginsStopIffSomeAcceptingStops | Mirai-CSharp/MiraiHttpSession.cs:1466-1470 | The handlers are skipped exactly when some accepting plugin handles the event or throws. |
| Dispatch.PluginPhaseCallsAccepting | Mirai-CSharp/MiraiHttpSession.cs:1468 | Only plugins from the list that accept the channel are called. |
| Dispatch.PluginPhaseAllButLastDeclined | Mirai-CSharp/MiraiHttpSession.cs:1466-1470 | Every plugin call before the last declined the event. |
| Dispatch.PluginsStopIffLastCallStops | Mirai-CSharp/MiraiHttpSession.cs:1466-1470 | The plugin phase stops exactly when its last call handled or threw. |
| Dispatch.HandlerPhaseInOrder | Mirai-CSharp/MiraiHttpSession.cs:1484-1488 | Handlers are called in invocation-list order. Every call before the last declined, and a cut-short phase ends at a handler that did not decline. When all decline, every handler runs. |
| Dispatch.ChainShortCircuits | Mirai-CSharp/MiraiHttpSession.cs:1468-1469 | Once an accepting plugin handles or throws, no handler runs. |
| Dispatch.NoPluginStopsThenHandlers | Mirai-CSharp/MiraiHttpSession.cs:1466-1473 | When every accepting plugin declines, each of them is called and then the handler phase follows. |
| Dispatch.AllDeclinedUpToStop | Mirai-CSharp/MiraiHttpSession.cs:1466-1470 | When every accepting plugin declines, nothing is cut off the accepting list. |
| Dispatch.InvokeAsync | Mirai-CSharp/MiraiHttpSession.cs:1462-1480 | The calls made are exactly Chain: the plugin phase, then the handler phase unless a plugin stopped. |
| Dispatch.InvokePlugins | Mirai-CSharp/MiraiHttpSession.cs:1466-1470 | Its loop makes exactly the plugin-phase calls and reports whether the phase stopped. |
| Dispatch.InvokeHandlers | Mirai-CSharp/MiraiHttpSession.cs:1482-1489 | Its loop makes exactly the handler-phase calls, breaking at the first handler that does not decline. |
| Dispatch.NotifyAllReachesEveryHandlerUntilThrow | Mirai-CSharp/MiraiHttpSession.cs:1689 | The Disconnected notification calls handlers in order. Neither a handled result nor a faulting task stops it. No handler before the last one called throws while being invoked. When nobody throws, every handler runs. A cut-short run ends at a handler that throws. |
| Dispatch.RemoveFirstAbsent | Mirai-CSharp/MiraiHttpSession.cs:93 | Removing a plugin that is not in the list leaves the list unchanged. |
| Dispatch.RemoveFirstCutsAtFirstOccurrence | Mirai-CSharp/MiraiHttpSession.cs:93 | Removing a present plugin cuts out exactly its first occurrence. |
| Dispatch.RemoveFirstMultiset | Mirai-CSharp/MiraiHttpSession.cs:93 | Removal takes away one copy of the plugin at most, and nothing else. |
| Dispatch.RemoveFirst | Mirai-CSharp/MiraiHttpSession.cs:93 | Computes ImmutableList.Remove: the first occurrence dropped. RemoveFirstAbsent, RemoveFirstCutsAtFirstOccurrence and RemoveFirstMultiset state its meaning. |
| Dispatch.RemoveLastAbsent | Mirai-CSharp/MiraiHttpSession.cs:1301-1455 | Unsubscribing a handler that is not subscribed leaves the invocation list unchanged. |
| Dispatch.RemoveLastCutsAtLastOccurrence | Mirai-CSharp/MiraiHttpSession.cs:1301-1455 | Unsubscribing cuts out exactly the last occurrence of the handler. |
| Dispatch.RemoveLastMultiset | Mirai-CSharp/MiraiHttpSession.cs:1301-1455 | Unsubscribing takes away one copy of the handler at most, and nothing else. |
| Dispatch.RemoveLast | Mirai-CSharp/MiraiHttpSession.cs:1301-1455 | Computes Delegate.Remove on an event's invocation list: the last occurrence dropped. RemoveLastAbsent, RemoveLastCutsAtLastOccurrence and RemoveLastMultiset state its meaning. |
| Guards.MuteSeconds | Mirai-CSharp/MiraiHttpSession.cs:213-229 | The call passes exactly when 0 < duration < 30 days; otherwise it fails with ArgumentOutOfRange("duration"). The time sent is the whole seconds of the duration, the fraction dropped. |
| Guards.MuteRangeIsOpen | Mirai-CSharp/MiraiHttpSession.cs:216-217 | Zero and exactly thirty days are refused; one tick and thirty days minus one tick pass. |
| Guards.SubSecondMuteSendsZero | Mirai-CSharp/MiraiHttpSession.cs:224 | A positive duration under one second passes and sends time 0. |
| Guards.MuteSecondsMonotone | Mirai-CSharp/MiraiHttpSession.cs:224 | A longer duration never sends fewer seconds. |
| Guards.CheckChain | Mirai-CSharp/MiraiHttpSession.cs:801-808 | Each of the four ArgumentException messages is raised exactly under its condition and in order: null or empty chain, then any source element, then any quote element, then all elements empty plain text. The chain passes exactly when none of these holds. |
| Guards.PlainTextChainPasses | Mirai-CSharp/MiraiHttpSession.cs:807-808 | A chain of one non-empty plain text passes. |
| Guards.SourceReportedBeforeQuote | Mirai-CSharp/MiraiHttpSession.cs:803-806 | A chain with both a quote and a source reports the source. |
| Guards.CheckUrls | Mirai-CSharp/MiraiHttpSession.cs:983-984 | The url list passes exactly when it is non-null and non-empty; otherwise it fails with its ArgumentException message. |
| Guards.RegisterCommandPayload | Mirai-CSharp/MiraiHttpSession.cs:649-660 | It fails exactly for a null or empty name. Otherwise the payload carries the auth key, name, description and usage as given, and a null alias becomes the empty array. |
| Guards.Version3 | Mirai-CSharp/MiraiHttpSession.cs:1039 | new Version(a, b, c) is well formed and has an undefined revision. |
| Guards.CompareVersions | Mirai-CSharp/MiraiHttpSession.cs:1039 | The comparison gives -1, 0 or 1, and 0 exactly for equal versions. |
| Guards.CompareAntisymmetric | Mirai-CSharp/MiraiHttpSession.cs:1176 | Swapping the operands negates the comparison. |
| Guards.CompareTransitive | Mirai-CSharp/MiraiHttpSession.cs:1176 | "At most" is transitive. |
| Guards.LegacyPictureExcludesVoice | Mirai-CSharp/MiraiHttpSession.cs:1039-1177 | A server old enough for the local picture path (<= 1.7.0) never supports voice upload (>= 1.8.0). |
| Guards.GateGap | Mirai-CSharp/MiraiHttpSession.cs:1039-1177 | 1.7.1 uses the multipart picture upload and still has no voice upload. 1.7.0.0 is already past the legacy gate. 1.8.0 supports voice. |
| Guards.UnknownVersionIsOldest | Mirai-CSharp/MiraiHttpSession.cs:1039-1177 | A null version takes the legacy picture path and has no voice upload. |
| Guards.GatesMonotone | Mirai-CSharp/MiraiHttpSession.cs:1039-1177 | The picture gate holds for every older version and the voice gate for every newer one. |
| Guards.PictureFormat | Mirai-CSharp/MiraiHttpSession.cs:1058-1080 | Jpeg, Png and Gif keep their lower-cased name and are not re-encoded. Every other format is re-encoded as png. |
| Guards.PictureContentType | Mirai-CSharp/MiraiHttpSession.cs:1092 | The content type is "image/" followed by one of jpeg, png or gif. |
| Guards.ReadUploadReply | Mirai-CSharp/MiraiHttpSession.cs:1102 | A reply the JSON reader refuses becomes NotSupportedException; any other reply is kept. |
| Guards.MuteAllEndpoint | Mirai-CSharp/MiraiHttpSession.cs:180 | The endpoint is muteAll or unmuteAll. |
| Guards.MuteAllEndpointInjective | Mirai-CSharp/MiraiHttpSession.cs:180 | The two actions use different endpoints. |
| Guards.ApplyEndpoint | Mirai-CSharp/MiraiHttpSession.cs:380-430 | The endpoint is "resp/" followed by the kind's action path. |
| Guards.ApplyEndpointInjective | Mirai-CSharp/MiraiHttpSession.cs:380-430 | The three request kinds use three different endpoints. |
| Guards.SendEndpoint | Mirai-CSharp/MiraiHttpSession.cs:836-914 | Each target kind has one of the three send endpoints. |
| Guards.SendTargetRecoverable | Mirai-CSharp/MiraiHttpSession.cs:810-817 | The endpoint and the qq and group fields together determine the target. |
| Operations.Requests | Mirai-CSharp/MiraiHttpSession.cs:798-823 | A call sends at most one request, and one exactly when its checks pass and it posts. |
| Operations.Interpret | Mirai-CSharp/MiraiHttpSession.cs:819-822 | A non-zero code fails with the mapped error, except for execute's rewrite. Code 0 succeeds, and a send yields the reply's messageId. A non-JSON body gives a different error per reading: a JSON error, picture not supported, or the body as InvalidOperationException. |
| Operations.PlanOf | Mirai-CSharp/MiraiHttpSession.cs:170-1207 | Computes, per session-scoped call, its argument checks and version gates in source order and the one request it then sends. The *Plan lemmas below state each case. |
| Operations.Perform | Mirai-CSharp/MiraiHttpSession.cs:170-1207 | Computes the result of a call once a session is installed: the check's error, the local answer, or the reading of the reply. RejectedCallSendsNothing, SentMessageId and ExecuteCommandReading state its cases. |
| Operations.RejectedCallSendsNothing | Mirai-CSharp/MiraiHttpSession.cs:213-217 | A call refused by its argument checks sends no request, and its error does not depend on any reply. |
| Operations.PostedRequestCarriesCredential | Mirai-CSharp/MiraiHttpSession.cs:811-817 | Every request a session-scoped call sends carries the session key. The command APIs carry the auth key instead. |
| Operations.MutePlan | Mirai-CSharp/MiraiHttpSession.cs:213-229 | Mute posts exactly for 0 < duration < 30 days, with the group, member and whole seconds. Otherwise it fails with ArgumentOutOfRange("duration"). |
| Operations.SendMessagePlan | Mirai-CSharp/MiraiHttpSession.cs:798-823 | A message is posted exactly when the chain passes its checks. It goes to the target's endpoint with the chain unchanged; otherwise the call fails with the check's error. |
| Operations.SentMessageId | Mirai-CSharp/MiraiHttpSession.cs:819-822 | A successful send returns the messageId in the reply. |
| Operations.UploadPicturePlan | Mirai-CSharp/MiraiHttpSession.cs:1037-1104 | Servers <= 1.7.0 get a local url with no request. Newer ones get a multipart upload as jpeg, png or gif, re-encoded exactly for other formats. |
| Operations.UploadVoicePlan | Mirai-CSharp/MiraiHttpSession.cs:1174-1207 | Voice upload is refused before any request exactly for servers below 1.8.0, and posted otherwise. |
| Operations.ExecuteCommandReading | Mirai-CSharp/MiraiHttpSession.cs:700-728 | Code 5 reports the command as missing; every other reply reads as the register reading. |
| Session.HandshakeUsesIssuedKey | Mirai-CSharp/MiraiHttpSession.cs:463-479 | The first request is auth with the auth key, and every later one carries the issued session key. Only auth is sent exactly when auth fails. |
| Session.HandshakeOutcome | Mirai-CSharp/MiraiHttpSession.cs:463-485 | Computes the outcome of the handshake: the first failing step in the order ConnectAsync awaits them. RollbackReleasesIssuedKey states when it passes. |
| Session.HandshakeRequests | Mirai-CSharp/MiraiHttpSession.cs:463-479 | Computes the handshake requests up to and including the failing one. HandshakeUsesIssuedKey and SetConfigOnlyWhenWebSocketOff state its meaning. |
| Session.RollbackRequests | Mirai-CSharp/MiraiHttpSession.cs:486-491 | Computes the release the rollback sends: none when auth failed, else one with the issued key, and with qq 0 when verification failed. RollbackReleasesIssuedKey states its meaning. |
| Session.SetConfigOnlyWhenWebSocketOff | Mirai-CSharp/MiraiHttpSession.cs:476-478 | POST /config is sent exactly when every earlier step succeeded and the WebSocket is off. It is the last request, with the cache size read and the WebSocket on. |
| Session.RollbackReleasesIssuedKey | Mirai-CSharp/MiraiHttpSession.cs:486-491 | A failed connect sends a release exactly when a session key was issued, with that key and the bound qq (0 when verify failed). The handshake passes exactly when every step does. |
| Session.DeliveriesInOrder | Mirai-CSharp/MiraiHttpSession.cs:1501-1678 | Each frame taken is delivered once, in arrival order, as the event it routes to, never Disconnected. Fewer deliveries than frames happen exactly when a frame ends the loop. |
| Session.RouteNeverDisconnected | Mirai-CSharp/MiraiHttpSession.cs:1505-1676 | No "type" string routes to Disconnected. |
| Session.UnknownFramesKeepTheirJson | Mirai-CSharp/MiraiHttpSession.cs:1671-1675 | A null or unlisted "type" raises UnknownMessage carrying the frame's JSON unchanged. |
| Session.CommandStreamDeliversCommands | Mirai-CSharp/MiraiHttpSession.cs:1700-1707 | On the command stream every parsed frame becomes a CommandExecuted event carrying that frame. |
| Session.EventOf | Mirai-CSharp/MiraiHttpSession.cs:1503-1506 | Computes the event a frame raises or the exception that ends the loop on it. UnknownFramesKeepTheirJson and DeliveriesInOrder state its meaning. |
| Session.Deliveries | Mirai-CSharp/MiraiHttpSession.cs:1501-1678 | Computes the deliveries a run of frames makes, up to the first frame that ends the loop. DeliveriesInOrder states its meaning. |
| Session.LoopExit | Mirai-CSharp/MiraiHttpSession.cs:1501-1682 | Computes how a loop ends: at the first frame it cannot take, or as the stream ends. DeliveriesInOrder ties it to Deliveries. |
| Session.CompareExchange | Mirai-CSharp/MiraiHttpSession.cs:1686 | The exchange returns the old slot and changes the slot only when it held the comparand. |
| Session.FaultGuardAsWrittenFiresForForeignSession | Mirai-CSharp/MiraiHttpSession.cs:1686 | As written, a loop whose session was replaced passes the guard although the slot keeps the other session. |
| Session.FaultGuardIffSlotCleared | Mirai-CSharp/MiraiHttpSession.cs:1715 | The corrected guard holds exactly when the exchange emptied the slot. It differs from the written one exactly when the slot holds another session. |
| Session.SessionInfo.constructor | Mirai-CSharp/MiraiHttpSession.cs:54-71 | A new session record: no options, key, version or canceller, qq 0, not connected. |
| Session.SessionInfo.ReleaseOutcome | Mirai-CSharp/MiraiHttpSession.cs:568-588 | Computes how InternalReleaseAsync ends: the disposed-canceller error, NullReferenceException for null options, or the server's reply. InternalRelease is proved against it. |
| Session.SessionInfo.ReleaseRequests | Mirai-CSharp/MiraiHttpSession.cs:568-588 | Computes the /release that InternalReleaseAsync posts: none when it throws first. InternalRelease, Release and RollbackConnect are proved against it. |
| Session.MiraiHttpSession.constructor | Mirai-CSharp/MiraiHttpSession.cs:47-76 | An empty slot, no plugins and no handlers, not disposed. |
| Session.MiraiHttpSession.Connected | Mirai-CSharp/MiraiHttpSession.cs:40 | Computes `SessionInfo?.Connected ?? false`. ProjectionsFollowSlot states its meaning. |
| Session.MiraiHttpSession.QQNumber | Mirai-CSharp/MiraiHttpSession.cs:45 | Computes `SessionInfo?.QQNumber`. ProjectionsFollowSlot states its meaning. |
| Session.MiraiHttpSession.ProjectionsFollowSlot | Mirai-CSharp/MiraiHttpSession.cs:40-45 | Connected holds exactly while a session is installed, and QQNumber is non-null exactly then. |
| Session.MiraiHttpSession.CheckDisposed | Mirai-CSharp/MiraiHttpSession.cs:1274-1278 | Fails exactly when disposed, with ObjectDisposedException naming MiraiHttpSession. |
| Session.MiraiHttpSession.SafeGetSession | Mirai-CSharp/MiraiHttpSession.cs:1280-1285 | Gives the disposed error, then the not-connected error for an empty slot, else the installed session. |
| Session.MiraiHttpSession.AddPlugin | Mirai-CSharp/MiraiHttpSession.cs:81-85 | Fails exactly when disposed. Otherwise the plugin is appended, and nothing else changes. |
| Session.MiraiHttpSession.RemovePlugin | Mirai-CSharp/MiraiHttpSession.cs:90-94 | Fails exactly when disposed. Otherwise the first occurrence is removed, and nothing else changes. |
| Session.MiraiHttpSession.Subscribe | Mirai-CSharp/MiraiHttpSession.cs:1301-1455 | Adding a handler appends it to its channel's invocation list only. |
| Session.MiraiHttpSession.Unsubscribe | Mirai-CSharp/MiraiHttpSession.cs:1301-1455 | Removing a handler drops its last occurrence from its channel's list only. |
| Session.MiraiHttpSession.InternalRelease | Mirai-CSharp/MiraiHttpSession.cs:568-588 | It marks the session disconnected and cancels and disposes its canceller. It posts /release with the key and qq, or throws before posting when the canceller was already disposed or the options are null. It disposes the client whenever the try was reached. |
| Session.MiraiHttpSession.Release | Mirai-CSharp/MiraiHttpSession.cs:561-566 | Refuses when disposed, and throws when the slot was empty. Otherwise it empties the slot and releases the session it held with one /release request. |
| Session.MiraiHttpSession.Dispose | Mirai-CSharp/MiraiHttpSession.cs:103-124 | The first call sets disposed and empties the slot. If a session was installed, it drops the plugins and every handler and releases that session, disposing its canceller and client. Later calls change nothing. |
| Session.MiraiHttpSession.RollbackConnect | Mirai-CSharp/MiraiHttpSession.cs:486-491 | Empties the slot only if it still holds this attempt, then releases the attempt's session. |
| Session.MiraiHttpSession.RunHandshake | Mirai-CSharp/MiraiHttpSession.cs:463-485 | The outcome is the first failing step. Exactly the handshake requests up to that step are sent. On success the session is live with the options, issued key, qq, version and command-loop flag. |
| Session.MiraiHttpSession.Authenticate | Mirai-CSharp/MiraiHttpSession.cs:465-469 | Sends auth, then verify when auth succeeded. The key and options are stored after auth, the qq only after verify passes. |
| Session.MiraiHttpSession.Configure | Mirai-CSharp/MiraiHttpSession.cs:470-484 | Sends /about and GET /config, then POST /config when the WebSocket is off, stopping at the first failure. On success the session is live with the version. |
| Session.MiraiHttpSession.Connect | Mirai-CSharp/MiraiHttpSession.cs:457-493 | Refuses when disposed, and returns unchanged when a session is installed. Otherwise a new session is installed and filled in, and on a failing step it is rolled back and the failure rethrown. |
| Session.MiraiHttpSession.Call | Mirai-CSharp/MiraiHttpSession.cs:1280-1285 | A session-scoped call fails as SafeGetSession does. Otherwise it sends exactly the requests of the call's plan and returns what that plan gives on the reply. |
| Session.MiraiHttpSession.LoopFault | Mirai-CSharp/MiraiHttpSession.cs:1684-1691 | It uses the corrected guard from the Findings table, not the `!= null` test of the source. Only when the slot still holds the loop's session does it empty the slot, release that session (disconnected, canceller disposed, client disposed, one /release sent) and notify Disconnected with the exception. Otherwise neither the session object nor anything else changes. |
| Session.MiraiHttpSession.Pump | Mirai-CSharp/MiraiHttpSession.cs:1501-1678 | Its loop delivers exactly Deliveries(frames) and ends where LoopExit says. It sends nothing and leaves the slot alone. |
| Session.MiraiHttpSession.ReceiveLoop | Mirai-CSharp/MiraiHttpSession.cs:1495-1721 | A cancelled loop only delivers and leaves its session object unchanged. A faulted loop also takes the fault path, with the corrected guard from the Findings table: it releases the session (canceller and client disposed) and notifies Disconnected exactly when that session is still installed, and otherwise leaves the session object unchanged. |

## Left out

- HTTP, the WebSocket and the server are not modelled as I/O. Each reply is a parameter: a `Handshake` for connecting, a `Reply` for a call, a frame sequence for a loop.
- `AsApiRespAsync` and `AsNoSuccCodeApiRespAsync` are read as the envelope reading. Their file is not part of this model.
- JSON parsing and the deserialization of event args are not modelled. A frame is its raw text with its "type" property, already classified.
- Concurrency is not modelled: the fire-and-forget `_ = InvokeAsync(...)`, the async void loops, interleavings of Connect, Release and the loops, and cancellation tokens. Each `Interlocked` call is one atomic step of a sequential run.
- The reflection over the event fields in DisposeAsync is modelled as emptying the handler map. `Plugins = null!` is modelled as the empty list. This changes what happens to a handler subscribed after DisposeAsync. In the code, the next `InvokeAsync` enumerates the null list and throws NullReferenceException inside its fire-and-forget task (MiraiHttpSession.cs:1466), so that handler never runs. In the model it runs.
- Image decoding, `Guid` file names and ImageHttpListener are left out. The local path of old servers answers `LegacyPictureUrl`.
- `Version.Parse` and the skipping of the leading 'v' in GetVersionAsync are left out. The version arrives parsed.
- TimeSpan is its tick count. Only the `(int)` cast of positive whole seconds is modelled; it cannot overflow inside the accepted range.
- The transcoding stream itself is left out; only when it is used is modelled.
- API calls outside the modelled set are left out: friend, group and member lists, group config, member info, file and message-by-id calls, the static overloads, and the other uploads.
- Behaviours of the code that the model keeps as written:
  - ConnectAsync with a session already installed returns at once without error (MiraiHttpSession.cs:461), as its remarks say (MiraiHttpSession.cs:449-451).
  - ReleaseAsync (MiraiHttpSession.cs:561-566) clears neither the plugins nor the handlers; only DisposeAsync clears them (MiraiHttpSession.cs:115-118).
  - A second ReleaseAsync throws InvalidOperationException, because the slot is already empty (MiraiHttpSession.cs:565).
- Guards.MuteSeconds: the doc comment of MuteAsync promises [1 s, 30 d], but the code checks 0 < duration < 30 d; the model follows the code. A sub-second duration passes and sends 0.
- Session.MiraiHttpSession.InternalRelease: releasing twice does not send twice. A session whose canceller is already disposed throws before posting, as `Canceller.Cancel()` does on a disposed source.
- Session.MiraiHttpSession.LoopFault: the Disconnected event's handler list is read when the fault happens. The notification is a multicast invoke that does not await the handlers' tasks. So only a handler that throws while being invoked (`Throws`) ends the list; a handler whose task faults (`Faults`) acts as a declining one there. The notification's exceptions are discarded, so its calls are logged but its outcome is not.
- Messages.PokeToString: only the six declared kinds are modelled. The C# enum is open: the obsolete parameterless constructor (PokeMessage.cs:61) leaves the kind 0, which gives "[mirai:poke:0,-1]", and a cast can give any other number.
- Operations.Interpret: a successful sendImageMessage, uploadImage or uploadVoice answers `Done`. The image ids (MiraiHttpSession.cs:994-995), the ImageMessage (MiraiHttpSession.cs:1101) and the VoiceMessage (MiraiHttpSession.cs:1206) it returns are not modelled.
- Operations.PlanOf: only the Stream overloads of UploadPictureAsync and UploadVoiceAsync are modelled. The path overloads (MiraiHttpSession.cs:1114-1118, MiraiHttpSession.cs:1216-1220) open a FileStream after SafeGetSession and before the version gate. So a missing file raises FileNotFoundException before NotSupportedException, and on an old server the stream is not closed.
- Session.MiraiHttpSession.Pump: a delivery's plugins and handlers are the ones present when it was started. Their asynchronous completion order is not modelled.

## Findings

| source | as written | input that shows it | evidently intended | confidence | as-written member | corrected member |
|---|---|---|---|---|---|---|
| Mirai-CSharp/MiraiHttpSession.cs:1686 | The loop's fault guard fires when `CompareExchange(ref SessionInfo, null, session)` returns any non-null session. | The slot holds session 2 when the loop of session 1 faults. The guard fires: it releases session 1 again and raises Disconnected, although session 2 is connected and left in the slot. | Fire only when the exchange took this loop's session out of the slot (`== session`). | not executed | Session.FaultGuardAsWrittenFiresForForeignSession | Session.FaultGuardIffSlotCleared |
| Mirai-CSharp/MiraiHttpSession.cs:1715 | The command loop's guard is the same as above. | Same input on the command loop. | Same as above. | not executed | Session.FaultGuardAsWrittenFiresForForeignSession | Session.MiraiHttpSession.LoopFault |
