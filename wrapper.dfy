/**
 * The wrapper's in-memory mirror of the backend: the state it keeps, the
 * update handlers that change it, the lookups that read it, the requests it
 * sends on its own and the change notifications it emits.
 *
 * Outbound requests are recorded in `sent` in the order sendRequest receives
 * them; emitted signals are recorded in `emitted` in emission order.
 */
module Wrapper {
  import opened Variant
  import opened States
  import opened Requests
  import opened Records

  /** The signals the wrapper emits, one constructor per signal. */
  datatype Event =
    | VersionDetected(version: string)
    | AuthorizationStateChanged(authorizationState: AuthorizationState)
    | OptionUpdated(optionName: string, optionValue: Value)
    | OwnUserIdFound(ownUserId: string)
    | ConnectionStateChanged(connectionState: ConnectionState)
    | UserUpdated(userId: string, userInformation: Record)
    | FileUpdated(fileId: int, fileInformation: Record)
    | NewChatDiscovered(chatId: string, chatInformation: Record)
    | UnreadMessageCountUpdated(messageCountInformation: Record)
    | UnreadChatCountUpdated(chatCountInformation: Record)
    | ChatLastMessageUpdated(chatId: string, order: string, lastMessage: Record)
    | ChatOrderUpdated(chatId: string, order: string)
    | ChatReadInboxUpdated(chatId: string, lastReadInboxMessageId: string, unreadCount: int)
    | ChatReadOutboxUpdated(chatId: string, lastReadOutboxMessageId: string)
    | BasicGroupUpdated(groupId: int)
    | SuperGroupUpdated(groupId: int)
    | ChatOnlineMemberCountUpdated(chatId: string, onlineMemberCount: int)
    | MessagesReceived(messages: seq<Value>)
    | NewMessageReceived(chatId: string, message: Record)
    | ReceivedMessage(messageId: string, message: Record)
    | MessageSendSucceeded(messageId: string, oldMessageId: string, message: Record)
    | ActiveNotificationsUpdated(notificationGroups: seq<Value>)
    | NotificationGroupUpdated(notificationGroupUpdate: Record)
    | NotificationUpdated(updatedNotification: Record)
    | ChatNotificationSettingsUpdated(chatId: string, chatNotificationSettings: Record)
    | MessageContentUpdated(chatId: string, messageId: string, newContent: Record)
    | MessagesDeleted(chatId: string, messageIds: seq<Value>)

  /** Which of the two group tables an operation works on. */
  datatype GroupKind = BasicGroupKind | SuperGroupKind {
    function Other(): GroupKind {
      if this == BasicGroupKind then SuperGroupKind else BasicGroupKind
    }
  }

  /** The "@type" of a group's "status" sub-record, "" when there is none. */
  function StatusType(groupInfo: Record): string {
    ToString(Lookup(ToMap(Lookup(groupInfo, "status")), "@type"))
  }

  /** A basic group or a super group. The record is created once and then
      updated in place, so earlier holders of the reference see later updates. */
  class Group {
    const groupId: int
    var groupInfo: Record

    constructor (groupId: int)
      ensures this.groupId == groupId && groupInfo == map[]
    {
      this.groupId := groupId;
      groupInfo := map[];
    }

    /** The current user's membership status in this group: a named status
        only when status.@type carries that status's literal, unknown when the
        status or its type is missing. */
    function ChatMemberStatus(): (status: States.ChatMemberStatus)
      reads this
      ensures status != ChatMemberStatusUnknown ==> ChatMemberStatusLiteral(status) == Some(StatusType(groupInfo))
      ensures !("status" in groupInfo && groupInfo["status"].Rec? && "@type" in groupInfo["status"].fields)
              ==> status == ChatMemberStatusUnknown
      ensures forall named :: ChatMemberStatusLiteral(named) == Some(StatusType(groupInfo)) ==> status == named
    {
      var statusType := StatusType(groupInfo);
      if statusType == "" then ChatMemberStatusUnknown else ChatMemberStatusFromString(statusType)
    }
  }

  class TDLibWrapper {
    const environment: Environment

    var version: string
    var authorizationState: AuthorizationState
    var connectionState: ConnectionState
    var options: map<string, Value>
    var allUsers: map<string, Value>
    var userInformation: Record
    var chats: map<string, Value>
    var unreadMessageInformation: Record
    var unreadChatInformation: Record
    var basicGroups: map<int, Group>
    var superGroups: map<int, Group>

    var sent: seq<Request>
    var emitted: seq<Event>

    ghost predicate Valid()
      reads this`basicGroups, this`superGroups, this`allUsers, this`chats,
            this`unreadMessageInformation, this`unreadChatInformation
    {
      && (forall id :: id in basicGroups ==> basicGroups[id].groupId == id)
      && (forall id :: id in superGroups ==> superGroups[id].groupId == id)
      && (forall b, s :: b in basicGroups && s in superGroups ==> basicGroups[b] != superGroups[s])
      && (forall id :: id in allUsers ==> allUsers[id].Rec?)
      && ChatsKeyed(chats)
      && MainScoped(unreadMessageInformation)
      && MainScoped(unreadChatInformation)
    }

    /** The current user's id as text: "" until the my_id option arrives. */
    function OwnUserId(): (id: string)
      reads this`options
      ensures "my_id" !in options ==> id == ""
      ensures "my_id" in options && options["my_id"].Int? ==> ParseDecimal(id) == Some(options["my_id"].i)
      ensures "my_id" in options && options["my_id"].Int? ==> CanonicalDecimal(id)
      ensures "my_id" in options && options["my_id"].Str? ==> id == options["my_id"].s
    {
      ToString(Lookup(options, "my_id"))
    }

    /** The own-user record mirrors the user table's entry for the own id. */
    ghost predicate OwnUserConsistent()
      reads this`userInformation, this`allUsers, this`options
    {
      userInformation == ToMap(Lookup(allUsers, OwnUserId()))
    }

    function Table(kind: GroupKind): map<int, Group>
      reads this`basicGroups, this`superGroups
    {
      if kind == BasicGroupKind then basicGroups else superGroups
    }

    /** The stored information of a group in one table; the empty record for
        an id the table does not hold. */
    function GroupInformation(kind: GroupKind, groupId: int): Record
      reads this`basicGroups, this`superGroups, Table(kind).Values
    {
      if groupId in Table(kind) then Table(kind)[groupId].groupInfo else map[]
    }

    /** Start-up: empty tables, the receiver's initial states, and the two
        settings requests the wrapper sends before any update arrives. */
    constructor (environment: Environment, authorizationState: AuthorizationState, connectionState: ConnectionState)
      ensures Valid() && OwnUserConsistent()
      ensures this.environment == environment
      ensures version == "" && this.authorizationState == authorizationState && this.connectionState == connectionState
      ensures options == map[] && allUsers == map[] && userInformation == map[] && chats == map[]
      ensures unreadMessageInformation == map[] && unreadChatInformation == map[]
      ensures basicGroups == map[] && superGroups == map[]
      ensures sent == [LogVerbosityRequest(), OptionIntegerRequest("notification_group_count_max", 5)]
      ensures emitted == []
    {
      this.environment := environment;
      version := "";
      this.authorizationState := authorizationState;
      this.connectionState := connectionState;
      options, allUsers, userInformation, chats := map[], map[], map[], map[];
      unreadMessageInformation, unreadChatInformation := map[], map[];
      basicGroups, superGroups := map[], map[];
      emitted := [];
      sent := [];
      new;
      SetLogVerbosityLevel();
      SetOptionInteger("notification_group_count_max", 5);
    }

    // -------------------------------------------------------------------
    // Outbound requests

    method SendRequest(request: Request)
      modifies this`sent
      ensures sent == old(sent) + [request]
    {
      sent := sent + [request];
    }

    method SetInitialParameters()
      modifies this`sent
      ensures sent == old(sent) + [ParametersRequest(environment)]
    {
      SendRequest(ParametersRequest(environment));
    }

    method SetEncryptionKey()
      modifies this`sent
      ensures sent == old(sent) + [EncryptionKeyRequest()]
    {
      SendRequest(EncryptionKeyRequest());
    }

    method SetLogVerbosityLevel()
      modifies this`sent
      ensures sent == old(sent) + [LogVerbosityRequest()]
    {
      SendRequest(LogVerbosityRequest());
    }

    method SetOptionInteger(name: string, value: int)
      modifies this`sent
      ensures sent == old(sent) + [OptionIntegerRequest(name, value)]
    {
      SendRequest(OptionIntegerRequest(name, value));
    }

    // -------------------------------------------------------------------
    // State handlers

    method HandleVersionDetected(version: string)
      requires Valid()
      modifies this`version, this`emitted
      ensures Valid()
      ensures this.version == version
      ensures emitted == old(emitted) + [VersionDetected(version)]
    {
      this.version := version;
      emitted := emitted + [VersionDetected(version)];
    }

    /** A recognised name selects its state, an unknown one keeps the current
        state; the two handshake states first send their reply; the resulting
        state is published either way. */
    method HandleAuthorizationStateChanged(name: string)
      requires Valid()
      modifies this`authorizationState, this`sent, this`emitted
      ensures Valid()
      ensures authorizationState == match ParseAuthorizationState(name)
                                     case Some(state) => state
                                     case None => old(authorizationState)
      ensures sent == old(sent) + HandshakeReplies(environment, name)
      ensures emitted == old(emitted) + [AuthorizationStateChanged(authorizationState)]
    {
      // The chain of name comparisons is ParseAuthorizationState; the two
      // handshake states send their reply before the state is assigned.
      var selected := ParseAuthorizationState(name);
      match selected {
        case Some(WaitEncryptionKey) => SetEncryptionKey();
        case Some(WaitTdlibParameters) => SetInitialParameters();
        case _ =>
      }
      if selected.Some? {
        authorizationState := selected.value;
      }
      emitted := emitted + [AuthorizationStateChanged(authorizationState)];
    }

    /** Upsert of one option; the my_id option is also announced as the own id. */
    method HandleOptionUpdated(name: string, value: Value)
      requires Valid()
      modifies this`options, this`emitted
      ensures Valid()
      ensures options == old(options)[name := value]
      ensures emitted == old(emitted) + [OptionUpdated(name, value)]
                         + (if name == "my_id" then [OwnUserIdFound(ToString(value))] else [])
      ensures name != "my_id" && old(OwnUserConsistent()) ==> OwnUserConsistent()
    {
      options := options[name := value];
      emitted := emitted + [OptionUpdated(name, value)];
      if name == "my_id" {
        emitted := emitted + [OwnUserIdFound(ToString(value))];
      }
    }

    method HandleConnectionStateChanged(name: string)
      requires Valid()
      modifies this`connectionState, this`emitted
      ensures Valid()
      ensures connectionState == match ParseConnectionState(name)
                                 case Some(state) => state
                                 case None => old(connectionState)
      ensures emitted == old(emitted) + [ConnectionStateChanged(connectionState)]
    {
      if name == "connectionStateConnecting" {
        connectionState := Connecting;
      } else if name == "connectionStateConnectingToProxy" {
        connectionState := ConnectingToProxy;
      } else if name == "connectionStateReady" {
        connectionState := ConnectionReady;
      } else if name == "connectionStateUpdating" {
        connectionState := Updating;
      } else if name == "connectionStateWaitingForNetwork" {
        connectionState := WaitingForNetwork;
      }
      emitted := emitted + [ConnectionStateChanged(connectionState)];
    }

    /** The complete user record replaces the stored one, and the own-user
        record too when the id is the own id. */
    method HandleUserUpdated(info: Record)
      requires Valid()
      modifies this`allUsers, this`userInformation, this`emitted
      ensures Valid()
      ensures allUsers == old(allUsers)[IdOf(info) := Rec(ApplyUserEvent(ToMap(Lookup(old(allUsers), IdOf(info))), ProfileUpdate(info)))]
      ensures userInformation == if IdOf(info) == OwnUserId() then info else old(userInformation)
      ensures emitted == old(emitted) + [UserUpdated(IdOf(info), info)]
      ensures old(OwnUserConsistent()) ==> OwnUserConsistent()
    {
      var updatedUserId := IdOf(info);
      if updatedUserId == OwnUserId() {
        userInformation := info;
      }
      allUsers := allUsers[updatedUserId := Rec(info)];
      emitted := emitted + [UserUpdated(updatedUserId, info)];
    }

    /** Read-modify-write of the "status" field of the stored user record (of
        an empty record when the user is not yet known), and of the own-user
        record when the id is the own id. */
    method HandleUserStatusUpdated(userId: string, status: Record)
      requires Valid()
      modifies this`allUsers, this`userInformation, this`emitted
      ensures Valid()
      ensures allUsers == old(allUsers)[userId := Rec(ApplyUserEvent(ToMap(Lookup(old(allUsers), userId)), StatusUpdate(status)))]
      ensures userInformation == if userId == OwnUserId() then WithStatus(old(userInformation), status) else old(userInformation)
      ensures emitted == old(emitted) + [UserUpdated(userId, WithStatus(ToMap(Lookup(old(allUsers), userId)), status))]
      ensures old(OwnUserConsistent()) ==> OwnUserConsistent()
    {
      if userId == OwnUserId() {
        userInformation := userInformation["status" := Rec(status)];
      }
      var updatedUserInformation := ToMap(Lookup(allUsers, userId));
      updatedUserInformation := updatedUserInformation["status" := Rec(status)];
      allUsers := allUsers[userId := Rec(updatedUserInformation)];
      emitted := emitted + [UserUpdated(userId, updatedUserInformation)];
    }

    method HandleFileUpdated(info: Record)
      requires Valid()
      modifies this`emitted
      ensures Valid()
      ensures emitted == old(emitted) + [FileUpdated(ToInt(Lookup(info, "id")), info)]
    {
      emitted := emitted + [FileUpdated(ToInt(Lookup(info, "id")), info)];
    }

    /** The discovered chat is stored under its id, replacing any earlier
        record (replaying it is harmless: `DiscoverChatIdempotent`). */
    method HandleNewChatDiscovered(info: Record)
      requires Valid()
      modifies this`chats, this`emitted
      ensures Valid()
      ensures chats == DiscoverChat(old(chats), info)
      ensures emitted == old(emitted) + [NewChatDiscovered(IdOf(info), info)]
    {
      var chatId := IdOf(info);
      chats := chats[chatId := Rec(info)];
      emitted := emitted + [NewChatDiscovered(chatId, info)];
    }

    /** Only main-list counters are accepted, as a whole record; any other
        scope changes nothing and emits nothing. */
    method HandleUnreadMessageCountUpdated(info: Record)
      requires Valid()
      modifies this`unreadMessageInformation, this`emitted
      ensures Valid()
      ensures IsMainChatList(info) ==>
                unreadMessageInformation == info && emitted == old(emitted) + [UnreadMessageCountUpdated(info)]
      ensures !IsMainChatList(info) ==>
                unreadMessageInformation == old(unreadMessageInformation) && emitted == old(emitted)
    {
      if IsMainChatList(info) {
        unreadMessageInformation := info;
        emitted := emitted + [UnreadMessageCountUpdated(info)];
      }
    }

    method HandleUnreadChatCountUpdated(info: Record)
      requires Valid()
      modifies this`unreadChatInformation, this`emitted
      ensures Valid()
      ensures IsMainChatList(info) ==>
                unreadChatInformation == info && emitted == old(emitted) + [UnreadChatCountUpdated(info)]
      ensures !IsMainChatList(info) ==>
                unreadChatInformation == old(unreadChatInformation) && emitted == old(emitted)
    {
      if IsMainChatList(info) {
        unreadChatInformation := info;
        emitted := emitted + [UnreadChatCountUpdated(info)];
      }
    }

    // -------------------------------------------------------------------
    // Groups

    /** Find the group in the chosen table, creating it when absent, and
        replace its information entirely. */
    method UpdateGroup(groupId: int, groupInfo: Record, kind: GroupKind) returns (group: Group)
      requires Valid()
      modifies this`basicGroups, this`superGroups, Table(kind).Values
      ensures Valid()
      ensures group.groupId == groupId && group.groupInfo == groupInfo
      ensures Table(kind) == old(Table(kind))[groupId := group]
      ensures groupId in old(Table(kind)) ==> group == old(Table(kind))[groupId]
      ensures groupId !in old(Table(kind)) ==> fresh(group)
      ensures Table(kind.Other()) == old(Table(kind.Other()))
      ensures GroupInformation(kind, groupId) == groupInfo
      ensures forall id :: id != groupId ==> GroupInformation(kind, id) == old(GroupInformation(kind, id))
      ensures forall id :: GroupInformation(kind.Other(), id) == old(GroupInformation(kind.Other(), id))
    {
      if groupId in Table(kind) {
        group := Table(kind)[groupId];
      } else {
        group := new Group(groupId);
        if kind == BasicGroupKind {
          basicGroups := basicGroups[groupId := group];
        } else {
          superGroups := superGroups[groupId := group];
        }
      }
      group.groupInfo := groupInfo;
    }

    /** The group's record is updated in place (a reference obtained earlier
        sees the new information); every other group is unchanged. */
    method HandleBasicGroupUpdated(groupId: int, info: Record)
      requires Valid()
      modifies this`basicGroups, this`superGroups, this`emitted, basicGroups.Values
      ensures Valid()
      ensures groupId in basicGroups && GetBasicGroup(groupId) == info
      ensures basicGroups == old(basicGroups)[groupId := basicGroups[groupId]]
      ensures groupId in old(basicGroups) ==> basicGroups[groupId] == old(basicGroups[groupId])
      ensures groupId !in old(basicGroups) ==> fresh(basicGroups[groupId])
      ensures forall id :: id != groupId ==> GetBasicGroup(id) == old(GetBasicGroup(id))
      ensures superGroups == old(superGroups)
      ensures forall id :: GetSuperGroup(id) == old(GetSuperGroup(id))
      ensures emitted == old(emitted) + [BasicGroupUpdated(groupId)]
    {
      var group := UpdateGroup(groupId, info, BasicGroupKind);
      assert BasicGroupKind.Other() == SuperGroupKind;
      emitted := emitted + [BasicGroupUpdated(group.groupId)];
    }

    method HandleSuperGroupUpdated(groupId: int, info: Record)
      requires Valid()
      modifies this`basicGroups, this`superGroups, this`emitted, superGroups.Values
      ensures Valid()
      ensures groupId in superGroups && GetSuperGroup(groupId) == info
      ensures superGroups == old(superGroups)[groupId := superGroups[groupId]]
      ensures groupId in old(superGroups) ==> superGroups[groupId] == old(superGroups[groupId])
      ensures groupId !in old(superGroups) ==> fresh(superGroups[groupId])
      ensures forall id :: id != groupId ==> GetSuperGroup(id) == old(GetSuperGroup(id))
      ensures basicGroups == old(basicGroups)
      ensures forall id :: GetBasicGroup(id) == old(GetBasicGroup(id))
      ensures emitted == old(emitted) + [SuperGroupUpdated(groupId)]
    {
      var group := UpdateGroup(groupId, info, SuperGroupKind);
      assert SuperGroupKind.Other() == BasicGroupKind;
      emitted := emitted + [SuperGroupUpdated(group.groupId)];
    }

    /** Lookup across both tables: no group for id 0, otherwise the super
        group if there is one, else the basic group, else none. */
    function GetGroup(groupId: int): (group: Group?)
      reads this
      requires Valid()
      ensures group != null ==> group.groupId == groupId
      ensures group == null <==> groupId == 0 || (groupId !in superGroups && groupId !in basicGroups)
      ensures group != null && groupId in superGroups ==> group == superGroups[groupId]
      ensures group != null && groupId !in superGroups ==> group == basicGroups[groupId]
    {
      if groupId != 0 then
        if groupId in superGroups then superGroups[groupId]
        else if groupId in basicGroups then basicGroups[groupId]
        else null
      else null
    }

    /** The information of a basic group; the empty record for an unknown id. */
    function GetBasicGroup(groupId: int): (info: Record)
      reads this`basicGroups, this`superGroups, basicGroups.Values
      ensures groupId !in basicGroups ==> info == map[]
      ensures groupId in basicGroups ==> info == basicGroups[groupId].groupInfo
    {
      GroupInformation(BasicGroupKind, groupId)
    }

    /** The information of a super group; the empty record for an unknown id. */
    function GetSuperGroup(groupId: int): (info: Record)
      reads this`basicGroups, this`superGroups, superGroups.Values
      ensures groupId !in superGroups ==> info == map[]
      ensures groupId in superGroups ==> info == superGroups[groupId].groupInfo
    {
      GroupInformation(SuperGroupKind, groupId)
    }

    // -------------------------------------------------------------------
    // Other lookups

    /** A known user's stored record; the empty record for an unknown id. The
        own id reads the own-user record while the two are consistent. */
    function GetUserInformation(userId: string): (user: Record)
      reads this
      requires Valid()
      ensures userId !in allUsers ==> user == map[]
      ensures userId in allUsers ==> allUsers[userId] == Rec(user)
      ensures userId == OwnUserId() && OwnUserConsistent() ==> user == userInformation
    {
      ToMap(Lookup(allUsers, userId))
    }

    /** A discovered chat's record, which carries the requested id; the empty
        record for an unknown id. */
    function GetChat(chatId: string): (chat: Record)
      reads this
      requires Valid()
      ensures chatId !in chats ==> chat == map[]
      ensures chatId in chats ==> IdOf(chat) == chatId && chats[chatId] == Rec(chat)
    {
      ToMap(Lookup(chats, chatId))
    }

    // -------------------------------------------------------------------
    // Republished updates: no store change, the signal carries the
    // arguments unchanged.

    method HandleChatLastMessageUpdated(chatId: string, order: string, lastMessage: Record)
      requires Valid()
      modifies this`emitted
      ensures Valid()
      ensures emitted == old(emitted) + [ChatLastMessageUpdated(chatId, order, lastMessage)]
    {
      emitted := emitted + [ChatLastMessageUpdated(chatId, order, lastMessage)];
    }

    method HandleChatOrderUpdated(chatId: string, order: string)
      requires Valid()
      modifies this`emitted
      ensures Valid()
      ensures emitted == old(emitted) + [ChatOrderUpdated(chatId, order)]
    {
      emitted := emitted + [ChatOrderUpdated(chatId, order)];
    }

    method HandleChatReadInboxUpdated(chatId: string, lastReadInboxMessageId: string, unreadCount: int)
      requires Valid()
      modifies this`emitted
      ensures Valid()
      ensures emitted == old(emitted) + [ChatReadInboxUpdated(chatId, lastReadInboxMessageId, unreadCount)]
    {
      emitted := emitted + [ChatReadInboxUpdated(chatId, lastReadInboxMessageId, unreadCount)];
    }

    method HandleChatReadOutboxUpdated(chatId: string, lastReadOutboxMessageId: string)
      requires Valid()
      modifies this`emitted
      ensures Valid()
      ensures emitted == old(emitted) + [ChatReadOutboxUpdated(chatId, lastReadOutboxMessageId)]
    {
      emitted := emitted + [ChatReadOutboxUpdated(chatId, lastReadOutboxMessageId)];
    }

    method HandleChatOnlineMemberCountUpdated(chatId: string, onlineMemberCount: int)
      requires Valid()
      modifies this`emitted
      ensures Valid()
      ensures emitted == old(emitted) + [ChatOnlineMemberCountUpdated(chatId, onlineMemberCount)]
    {
      emitted := emitted + [ChatOnlineMemberCountUpdated(chatId, onlineMemberCount)];
    }

    method HandleMessagesReceived(messages: seq<Value>)
      requires Valid()
      modifies this`emitted
      ensures Valid()
      ensures emitted == old(emitted) + [MessagesReceived(messages)]
    {
      emitted := emitted + [MessagesReceived(messages)];
    }

    method HandleNewMessageReceived(chatId: string, message: Record)
      requires Valid()
      modifies this`emitted
      ensures Valid()
      ensures emitted == old(emitted) + [NewMessageReceived(chatId, message)]
    {
      emitted := emitted + [NewMessageReceived(chatId, message)];
    }

    method HandleMessageInformation(messageId: string, message: Record)
      requires Valid()
      modifies this`emitted
      ensures Valid()
      ensures emitted == old(emitted) + [ReceivedMessage(messageId, message)]
    {
      emitted := emitted + [ReceivedMessage(messageId, message)];
    }

    method HandleMessageSendSucceeded(messageId: string, oldMessageId: string, message: Record)
      requires Valid()
      modifies this`emitted
      ensures Valid()
      ensures emitted == old(emitted) + [MessageSendSucceeded(messageId, oldMessageId, message)]
    {
      emitted := emitted + [MessageSendSucceeded(messageId, oldMessageId, message)];
    }

    method HandleUpdateActiveNotifications(notificationGroups: seq<Value>)
      requires Valid()
      modifies this`emitted
      ensures Valid()
      ensures emitted == old(emitted) + [ActiveNotificationsUpdated(notificationGroups)]
    {
      emitted := emitted + [ActiveNotificationsUpdated(notificationGroups)];
    }

    method HandleUpdateNotificationGroup(notificationGroupUpdate: Record)
      requires Valid()
      modifies this`emitted
      ensures Valid()
      ensures emitted == old(emitted) + [NotificationGroupUpdated(notificationGroupUpdate)]
    {
      emitted := emitted + [NotificationGroupUpdated(notificationGroupUpdate)];
    }

    method HandleUpdateNotification(updatedNotification: Record)
      requires Valid()
      modifies this`emitted
      ensures Valid()
      ensures emitted == old(emitted) + [NotificationUpdated(updatedNotification)]
    {
      emitted := emitted + [NotificationUpdated(updatedNotification)];
    }

    method HandleChatNotificationSettingsUpdated(chatId: string, chatNotificationSettings: Record)
      requires Valid()
      modifies this`emitted
      ensures Valid()
      ensures emitted == old(emitted) + [ChatNotificationSettingsUpdated(chatId, chatNotificationSettings)]
    {
      emitted := emitted + [ChatNotificationSettingsUpdated(chatId, chatNotificationSettings)];
    }

    method HandleMessageContentUpdated(chatId: string, messageId: string, newContent: Record)
      requires Valid()
      modifies this`emitted
      ensures Valid()
      ensures emitted == old(emitted) + [MessageContentUpdated(chatId, messageId, newContent)]
    {
      emitted := emitted + [MessageContentUpdated(chatId, messageId, newContent)];
    }

    method HandleMessagesDeleted(chatId: string, messageIds: seq<Value>)
      requires Valid()
      modifies this`emitted
      ensures Valid()
      ensures emitted == old(emitted) + [MessagesDeleted(chatId, messageIds)]
    {
      emitted := emitted + [MessagesDeleted(chatId, messageIds)];
    }
  }
}
