/**
 * Whole-store runs: a fresh wrapper driven through a short sequence of
 * backend updates, with the observable outcome stated as the result.
 */
module Scenarios {
  import opened Variant
  import opened States
  import opened Requests
  import opened Records
  import opened Wrapper

  /** What each of the three start-up states selects and sends. */
  lemma HandshakeSteps(env: Environment)
    ensures ParseAuthorizationState(AuthorizationStateName(WaitPhoneNumber)) == Some(WaitPhoneNumber)
    ensures HandshakeReplies(env, AuthorizationStateName(WaitTdlibParameters)) == [ParametersRequest(env)]
    ensures HandshakeReplies(env, AuthorizationStateName(WaitEncryptionKey)) == [EncryptionKeyRequest()]
    ensures HandshakeReplies(env, AuthorizationStateName(WaitPhoneNumber)) == []
  {
    AuthorizationStateRoundTrip(WaitTdlibParameters);
    AuthorizationStateRoundTrip(WaitEncryptionKey);
    AuthorizationStateRoundTrip(WaitPhoneNumber);
  }

  /** The three start-up states, handled in turn by a wrapper in any valid
      state, send the parameters and then the key, and leave it waiting for
      the phone number. */
  method RunHandshake(wrapper: TDLibWrapper)
    requires wrapper.Valid()
    modifies wrapper`authorizationState, wrapper`sent, wrapper`emitted
    ensures wrapper.sent == old(wrapper.sent) + [ParametersRequest(wrapper.environment), EncryptionKeyRequest()]
    ensures wrapper.authorizationState == WaitPhoneNumber
  {
    HandshakeSteps(wrapper.environment);
    wrapper.HandleAuthorizationStateChanged(AuthorizationStateName(WaitTdlibParameters));
    wrapper.HandleAuthorizationStateChanged(AuthorizationStateName(WaitEncryptionKey));
    wrapper.HandleAuthorizationStateChanged(AuthorizationStateName(WaitPhoneNumber));
  }

  /** The start-up handshake: after the two settings requests of construction,
      the backend asks for the parameters, then the encryption key, then the
      phone number; the wrapper answers the first two, in that order, and
      ends up waiting for the phone number. */
  method HandshakeScenario(env: Environment) returns (replies: seq<Request>, state: AuthorizationState)
    ensures replies == [ParametersRequest(env), EncryptionKeyRequest()]
    ensures state == WaitPhoneNumber
  {
    var wrapper := new TDLibWrapper(env, Closed, WaitingForNetwork);
    var before := wrapper.sent;
    RunHandshake(wrapper);
    replies := wrapper.sent[|before|..];
    state := wrapper.authorizationState;
  }

  /** The id 1001 prints as the text the status update names it by. */
  lemma PrintedOwnId()
    ensures ToString(Int(1001)) == "1001"
  {
    assert NatToDecimal(1) == "1";
    assert NatToDecimal(10) == "10";
    assert NatToDecimal(100) == "100";
  }

  /** The own user: once my_id is known, the user's profile and then a status
      update both reach the own-user record. */
  method OwnUserScenario(env: Environment) returns (own: Record)
    ensures own == map["id" := Int(1001), "first_name" := Str("Ada"),
                       "status" := Rec(map["@type" := Str("userStatusOnline")])]
  {
    var profile := map["id" := Int(1001), "first_name" := Str("Ada")];
    var online := map["@type" := Str("userStatusOnline")];
    PrintedOwnId();
    assert IdOf(profile) == "1001";
    var wrapper := new TDLibWrapper(env, Closed, WaitingForNetwork);
    wrapper.HandleOptionUpdated("my_id", Int(1001));
    assert wrapper.OwnUserId() == "1001";
    wrapper.HandleUserUpdated(profile);
    assert wrapper.userInformation == profile;
    wrapper.HandleUserStatusUpdated("1001", online);
    assert wrapper.userInformation == WithStatus(profile, online);
    own := wrapper.userInformation;
  }

  /** Before my_id arrives the own id reads as the empty text, which is also
      the id text of a payload without an "id" field: such a payload becomes
      the own-user record, while a payload with an integer id never does. */
  method MissingIdScenario(env: Environment) returns (afterInt: Record, own: Record)
    ensures afterInt == map[]
    ensures own == map["first_name" := Str("Nobody")]
  {
    var wrapper := new TDLibWrapper(env, Closed, WaitingForNetwork);
    wrapper.HandleUserUpdated(map["id" := Int(42), "first_name" := Str("Someone")]);
    afterInt := wrapper.userInformation;
    wrapper.HandleUserUpdated(map["first_name" := Str("Nobody")]);
    own := wrapper.userInformation;
  }

  /** A group reference taken after the first update sees the second one:
      group records are updated in place, not replaced. */
  method GroupInPlaceScenario(env: Environment, first: Record, second: Record) returns (seen: Record)
    ensures seen == second
  {
    var wrapper := new TDLibWrapper(env, Closed, WaitingForNetwork);
    wrapper.HandleBasicGroupUpdated(7, first);
    var group := wrapper.GetGroup(7);
    wrapper.HandleBasicGroupUpdated(7, second);
    seen := group.groupInfo;
  }

  /** Counters for any chat list but the main one are ignored. */
  method UnreadScopeScenario(env: Environment) returns (messages: Record, chats: Record)
    ensures messages == map["chat_list_type" := Str("chatListMain"), "unread_count" := Int(3)]
    ensures chats == map[]
  {
    var wrapper := new TDLibWrapper(env, Closed, WaitingForNetwork);
    wrapper.HandleUnreadMessageCountUpdated(map["chat_list_type" := Str("chatListMain"), "unread_count" := Int(3)]);
    wrapper.HandleUnreadMessageCountUpdated(map["chat_list_type" := Str("chatListArchive"), "unread_count" := Int(9)]);
    wrapper.HandleUnreadChatCountUpdated(map["chat_list_type" := Str("chatListArchive"), "unread_count" := Int(2)]);
    messages := wrapper.unreadMessageInformation;
    chats := wrapper.unreadChatInformation;
  }
}
