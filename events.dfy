/**
 * The event channels of MiraiHttpSession (one per public event) and the
 * routing of an inbound frame's "type" discriminator to its channel.
 */
module Events {
  import opened Wrappers
  import ApiErrors
  type Json = ApiErrors.Json

  /** One channel per event of the session, named after the event. */
  datatype Channel =
    | BotOnline | BotPositiveOffline | BotKickedOffline | BotDropped | BotRelogin
    | BotInvitedJoinGroup | FriendMessage | GroupMessage | TempMessage
    | GroupMessageRevoked | FriendMessageRevoked | BotGroupPermissionChanged
    | BotMuted | BotUnmuted | BotJoinedGroup | BotPositiveLeaveGroup | BotKickedOut
    | GroupNameChanged | GroupEntranceAnnouncementChanged | GroupMuteAllChanged
    | GroupAnonymousChatChanged | GroupConfessTalkChanged | GroupMemberInviteChanged
    | GroupMemberJoined | GroupMemberKicked | GroupMemberPositiveLeave
    | GroupMemberCardChanged | GroupMemberSpecialTitleChanged
    | GroupMemberPermissionChanged | GroupMemberMuted | GroupMemberUnmuted
    | NewFriendApply | GroupApply
    | UnknownMessage | Disconnected | CommandExecuted

  /**
   * The channel the event-stream switch picks for a discriminator; any other
   * string goes to UnknownMessage. The cases are grouped by the leading
   * letter of the discriminator.
   */
  function Route(discriminator: string): (ch: Channel)
  {
    if |discriminator| == 0 then UnknownMessage
    else match discriminator[0]
      case 'B' => RouteBot(discriminator)
      case 'G' => RouteGroup(discriminator)
      case 'M' => RouteMember(discriminator)
      case _ => RouteOther(discriminator)
  }

  function RouteBot(discriminator: string): Channel
  {
    match discriminator
    case "BotOnlineEvent" => BotOnline
    case "BotOfflineEventActive" => BotPositiveOffline
    case "BotOfflineEventForce" => BotKickedOffline
    case "BotOfflineEventDropped" => BotDropped
    case "BotReloginEvent" => BotRelogin
    case "BotInvitedJoinGroupRequestEvent" => BotInvitedJoinGroup
    case "BotGroupPermissionChangeEvent" => BotGroupPermissionChanged
    case "BotMuteEvent" => BotMuted
    case "BotUnmuteEvent" => BotUnmuted
    case "BotJoinGroupEvent" => BotJoinedGroup
    case "BotLeaveEventActive" => BotPositiveLeaveGroup
    case "BotLeaveEventKick" => BotKickedOut
    case _ => UnknownMessage
  }

  function RouteGroup(discriminator: string): Channel
  {
    match discriminator
    case "GroupMessage" => GroupMessage
    case "GroupRecallEvent" => GroupMessageRevoked
    case "GroupNameChangeEvent" => GroupNameChanged
    case "GroupEntranceAnnouncementChangeEvent" => GroupEntranceAnnouncementChanged
    case "GroupMuteAllEvent" => GroupMuteAllChanged
    case "GroupAllowAnonymousChatEvent" => GroupAnonymousChatChanged
    case "GroupAllowConfessTalkEvent" => GroupConfessTalkChanged
    case "GroupAllowMemberInviteEvent" => GroupMemberInviteChanged
    case _ => UnknownMessage
  }

  function RouteMember(discriminator: string): Channel
  {
    match discriminator
    case "MemberJoinEvent" => GroupMemberJoined
    case "MemberLeaveEventKick" => GroupMemberKicked
    case "MemberLeaveEventQuit" => GroupMemberPositiveLeave
    case "MemberCardChangeEvent" => GroupMemberCardChanged
    case "MemberSpecialTitleChangeEvent" => GroupMemberSpecialTitleChanged
    case "MemberPermissionChangeEvent" => GroupMemberPermissionChanged
    case "MemberMuteEvent" => GroupMemberMuted
    case "MemberUnmuteEvent" => GroupMemberUnmuted
    case "MemberJoinRequestEvent" => GroupApply
    case _ => UnknownMessage
  }

  function RouteOther(discriminator: string): Channel
  {
    match discriminator
    case "FriendMessage" => FriendMessage
    case "TempMessage" => TempMessage
    case "FriendRecallEvent" => FriendMessageRevoked
    case "NewFriendRequestEvent" => NewFriendApply
    case _ => UnknownMessage
  }

  /** Reference table in the other direction: the discriminator a channel is fed from, if any. */
  function Discriminator(ch: Channel): (d: Option<string>)
    ensures d.None? <==> ch in {UnknownMessage, Disconnected, CommandExecuted}
  {
    match ch
    case BotOnline => Some("BotOnlineEvent")
    case BotPositiveOffline => Some("BotOfflineEventActive")
    case BotKickedOffline => Some("BotOfflineEventForce")
    case BotDropped => Some("BotOfflineEventDropped")
    case BotRelogin => Some("BotReloginEvent")
    case BotInvitedJoinGroup => Some("BotInvitedJoinGroupRequestEvent")
    case FriendMessage => Some("FriendMessage")
    case GroupMessage => Some("GroupMessage")
    case TempMessage => Some("TempMessage")
    case GroupMessageRevoked => Some("GroupRecallEvent")
    case FriendMessageRevoked => Some("FriendRecallEvent")
    case BotGroupPermissionChanged => Some("BotGroupPermissionChangeEvent")
    case BotMuted => Some("BotMuteEvent")
    case BotUnmuted => Some("BotUnmuteEvent")
    case BotJoinedGroup => Some("BotJoinGroupEvent")
    case BotPositiveLeaveGroup => Some("BotLeaveEventActive")
    case BotKickedOut => Some("BotLeaveEventKick")
    case GroupNameChanged => Some("GroupNameChangeEvent")
    case GroupEntranceAnnouncementChanged => Some("GroupEntranceAnnouncementChangeEvent")
    case GroupMuteAllChanged => Some("GroupMuteAllEvent")
    case GroupAnonymousChatChanged => Some("GroupAllowAnonymousChatEvent")
    case GroupConfessTalkChanged => Some("GroupAllowConfessTalkEvent")
    case GroupMemberInviteChanged => Some("GroupAllowMemberInviteEvent")
    case GroupMemberJoined => Some("MemberJoinEvent")
    case GroupMemberKicked => Some("MemberLeaveEventKick")
    case GroupMemberPositiveLeave => Some("MemberLeaveEventQuit")
    case GroupMemberCardChanged => Some("MemberCardChangeEvent")
    case GroupMemberSpecialTitleChanged => Some("MemberSpecialTitleChangeEvent")
    case GroupMemberPermissionChanged => Some("MemberPermissionChangeEvent")
    case GroupMemberMuted => Some("MemberMuteEvent")
    case GroupMemberUnmuted => Some("MemberUnmuteEvent")
    case NewFriendApply => Some("NewFriendRequestEvent")
    case GroupApply => Some("MemberJoinRequestEvent")
    case UnknownMessage => None
    case Disconnected => None
    case CommandExecuted => None
  }

  /** Every listed discriminator routes to the channel the table names. */
  lemma RouteListed(ch: Channel)
    requires Discriminator(ch).Some?
    ensures Route(Discriminator(ch).value) == ch
  {
    if ch in {BotOnline, BotPositiveOffline, BotKickedOffline, BotDropped, BotRelogin, BotInvitedJoinGroup, BotGroupPermissionChanged, BotMuted, BotUnmuted, BotJoinedGroup, BotPositiveLeaveGroup, BotKickedOut} {
      RouteBotListed(ch);
    } else if ch in {GroupMessage, GroupMessageRevoked, GroupNameChanged, GroupEntranceAnnouncementChanged, GroupMuteAllChanged, GroupAnonymousChatChanged, GroupConfessTalkChanged, GroupMemberInviteChanged} {
      RouteGroupListed(ch);
    } else if ch in {GroupMemberJoined, GroupMemberKicked, GroupMemberPositiveLeave, GroupMemberCardChanged, GroupMemberSpecialTitleChanged, GroupMemberPermissionChanged, GroupMemberMuted, GroupMemberUnmuted, GroupApply} {
      RouteMemberListed(ch);
    } else {
      RouteOtherListed(ch);
    }
  }

  /** A string that reaches a named channel is that channel's discriminator. */
  lemma RouteOnlyFromListed(d: string)
    requires Route(d) != UnknownMessage
    ensures Discriminator(Route(d)) == Some(d)
  {
    match d[0]
    case 'B' => RouteBotOnlyListed(d);
    case 'G' => RouteGroupOnlyListed(d);
    case 'M' => RouteMemberOnlyListed(d);
    case _ => RouteOtherOnlyListed(d);
  }

  // The two lemmas above, one leading letter at a time: each proof stays small.

  lemma RouteBotListed(ch: Channel)
    requires ch in {BotOnline, BotPositiveOffline, BotKickedOffline, BotDropped, BotRelogin, BotInvitedJoinGroup, BotGroupPermissionChanged, BotMuted, BotUnmuted, BotJoinedGroup, BotPositiveLeaveGroup, BotKickedOut}
    ensures Route(Discriminator(ch).value) == ch
  {
  }

  lemma RouteBotOnlyListed(d: string)
    requires |d| > 0 && d[0] == 'B' && Route(d) != UnknownMessage
    ensures Discriminator(Route(d)) == Some(d)
  {
    if d in {"BotOnlineEvent", "BotOfflineEventActive", "BotOfflineEventForce"} {
      RouteBotOnlyListedPart1(d);
    } else if d in {"BotOfflineEventDropped", "BotReloginEvent", "BotInvitedJoinGroupRequestEvent"} {
      RouteBotOnlyListedPart2(d);
    } else if d in {"BotGroupPermissionChangeEvent", "BotMuteEvent", "BotUnmuteEvent"} {
      RouteBotOnlyListedPart3(d);
    } else if d in {"BotJoinGroupEvent", "BotLeaveEventActive", "BotLeaveEventKick"} {
      RouteBotOnlyListedPart4(d);
    } else {
      assert false;
    }
  }

  lemma RouteGroupListed(ch: Channel)
    requires ch in {GroupMessage, GroupMessageRevoked, GroupNameChanged, GroupEntranceAnnouncementChanged, GroupMuteAllChanged, GroupAnonymousChatChanged, GroupConfessTalkChanged, GroupMemberInviteChanged}
    ensures Route(Discriminator(ch).value) == ch
  {
  }

  lemma RouteGroupOnlyListed(d: string)
    requires |d| > 0 && d[0] == 'G' && Route(d) != UnknownMessage
    ensures Discriminator(Route(d)) == Some(d)
  {
    if d in {"GroupMessage", "GroupRecallEvent", "GroupNameChangeEvent"} {
      RouteGroupOnlyListedPart1(d);
    } else if d in {"GroupEntranceAnnouncementChangeEvent", "GroupMuteAllEvent", "GroupAllowAnonymousChatEvent"} {
      RouteGroupOnlyListedPart2(d);
    } else if d in {"GroupAllowConfessTalkEvent", "GroupAllowMemberInviteEvent"} {
      RouteGroupOnlyListedPart3(d);
    } else {
      assert false;
    }
  }

  lemma RouteMemberListed(ch: Channel)
    requires ch in {GroupMemberJoined, GroupMemberKicked, GroupMemberPositiveLeave, GroupMemberCardChanged, GroupMemberSpecialTitleChanged, GroupMemberPermissionChanged, GroupMemberMuted, GroupMemberUnmuted, GroupApply}
    ensures Route(Discriminator(ch).value) == ch
  {
  }

  lemma RouteMemberOnlyListed(d: string)
    requires |d| > 0 && d[0] == 'M' && Route(d) != UnknownMessage
    ensures Discriminator(Route(d)) == Some(d)
  {
    if d in {"MemberJoinEvent", "MemberLeaveEventKick", "MemberLeaveEventQuit"} {
      RouteMemberOnlyListedPart1(d);
    } else if d in {"MemberCardChangeEvent", "MemberSpecialTitleChangeEvent", "MemberPermissionChangeEvent"} {
      RouteMemberOnlyListedPart2(d);
    } else if d in {"MemberMuteEvent", "MemberUnmuteEvent", "MemberJoinRequestEvent"} {
      RouteMemberOnlyListedPart3(d);
    } else {
      assert false;
    }
  }

  lemma RouteOtherListed(ch: Channel)
    requires ch in {FriendMessage, TempMessage, FriendMessageRevoked, NewFriendApply}
    ensures Route(Discriminator(ch).value) == ch
  {
  }

  lemma RouteOtherOnlyListed(d: string)
    requires |d| > 0 && d[0] !in {'B', 'G', 'M'} && Route(d) != UnknownMessage
    ensures Discriminator(Route(d)) == Some(d)
  {
  }

  // RouteOnlyFromListed for three strings at a time.

  lemma RouteBotOnlyListedPart1(d: string)
    requires d in {"BotOnlineEvent", "BotOfflineEventActive", "BotOfflineEventForce"}
    ensures Discriminator(Route(d)) == Some(d)
  {
  }

  lemma RouteBotOnlyListedPart2(d: string)
    requires d in {"BotOfflineEventDropped", "BotReloginEvent", "BotInvitedJoinGroupRequestEvent"}
    ensures Discriminator(Route(d)) == Some(d)
  {
  }

  lemma RouteBotOnlyListedPart3(d: string)
    requires d in {"BotGroupPermissionChangeEvent", "BotMuteEvent", "BotUnmuteEvent"}
    ensures Discriminator(Route(d)) == Some(d)
  {
  }

  lemma RouteBotOnlyListedPart4(d: string)
    requires d in {"BotJoinGroupEvent", "BotLeaveEventActive", "BotLeaveEventKick"}
    ensures Discriminator(Route(d)) == Some(d)
  {
  }

  lemma RouteGroupOnlyListedPart1(d: string)
    requires d in {"GroupMessage", "GroupRecallEvent", "GroupNameChangeEvent"}
    ensures Discriminator(Route(d)) == Some(d)
  {
  }

  lemma RouteGroupOnlyListedPart2(d: string)
    requires d in {"GroupEntranceAnnouncementChangeEvent", "GroupMuteAllEvent", "GroupAllowAnonymousChatEvent"}
    ensures Discriminator(Route(d)) == Some(d)
  {
  }

  lemma RouteGroupOnlyListedPart3(d: string)
    requires d in {"GroupAllowConfessTalkEvent", "GroupAllowMemberInviteEvent"}
    ensures Discriminator(Route(d)) == Some(d)
  {
  }

  lemma RouteMemberOnlyListedPart1(d: string)
    requires d in {"MemberJoinEvent", "MemberLeaveEventKick", "MemberLeaveEventQuit"}
    ensures Discriminator(Route(d)) == Some(d)
  {
  }

  lemma RouteMemberOnlyListedPart2(d: string)
    requires d in {"MemberCardChangeEvent", "MemberSpecialTitleChangeEvent", "MemberPermissionChangeEvent"}
    ensures Discriminator(Route(d)) == Some(d)
  {
  }

  lemma RouteMemberOnlyListedPart3(d: string)
    requires d in {"MemberMuteEvent", "MemberUnmuteEvent", "MemberJoinRequestEvent"}
    ensures Discriminator(Route(d)) == Some(d)
  {
  }

  /** Each listed string routes to exactly one channel, and no two listed strings share one. */
  lemma RouteInjective(d1: string, d2: string)
    requires Route(d1) == Route(d2) != UnknownMessage
    ensures d1 == d2
  {
    RouteOnlyFromListed(d1);
    RouteOnlyFromListed(d2);
  }

  /** A string no channel lists goes to UnknownMessage. */
  lemma RouteUnlistedIsUnknown(d: string)
    requires forall ch: Channel :: Discriminator(ch) != Some(d)
    ensures Route(d) == UnknownMessage
  {
    if Route(d) != UnknownMessage {
      RouteOnlyFromListed(d);
    }
  }

  /** What a handler receives for a frame. */
  datatype Payload =
      /** The frame deserialized into the channel's event-args type (not modelled beyond its source). */
    | Decoded(source: Json)
      /** An unknown frame: a clone of the JSON, unchanged. */
    | Raw(json: Json)
      /** The Disconnected event carries the exception that ended the loop. */
    | Fault(error: ApiErrors.Error)

  datatype RoutedEvent = RoutedEvent(channel: Channel, payload: Payload)

  /** The "type" property of an inbound frame, as reading it as a string sees it. */
  datatype TypeProperty =
      /** No such property: the lookup throws. */
    | Absent
      /** JSON null: the string read gives null, which no case label matches. */
    | NullValue
      /** A number, boolean, object or array: the string read throws. */
    | NotText
    | Text(value: string)

  /** An inbound WebSocket message. */
  datatype Frame =
      /** A JSON value and its "type" property. */
    | JsonFrame(json: Json, typeProperty: TypeProperty)
      /** A message that does not parse as JSON. */
    | Garbled

  /** The event-stream switch: the routed channel, and for an unknown discriminator the raw JSON unchanged. */
  function RouteFrame(json: Json, discriminator: string): (e: RoutedEvent)
    ensures e.channel == Route(discriminator)
    ensures e.channel == UnknownMessage <==> e.payload == Raw(json)
    ensures e.channel != UnknownMessage <==> e.payload == Decoded(json)
  {
    var ch := Route(discriminator);
    RoutedEvent(ch, if ch == UnknownMessage then Raw(json) else Decoded(json))
  }

}
