/**
 * The closed enumerations of the wrapper and the backend state names that
 * select them: authorization state, connection state and a group member's
 * status.
 */
module States {
  import opened Variant

  datatype AuthorizationState =
    | Closed
    | Closing
    | LoggingOut
    | AuthorizationReady
    | WaitCode
    | WaitEncryptionKey
    | WaitOtherDeviceConfirmation
    | WaitPassword
    | WaitPhoneNumber
    | WaitRegistration
    | WaitTdlibParameters

  /** The backend's name for each authorization state. */
  function AuthorizationStateName(state: AuthorizationState): string {
    match state
    case Closed => "authorizationStateClosed"
    case Closing => "authorizationStateClosing"
    case LoggingOut => "authorizationStateLoggingOut"
    case AuthorizationReady => "authorizationStateReady"
    case WaitCode => "authorizationStateWaitCode"
    case WaitEncryptionKey => "authorizationStateWaitEncryptionKey"
    case WaitOtherDeviceConfirmation => "authorizationStateWaitOtherDeviceConfirmation"
    case WaitPassword => "authorizationStateWaitPassword"
    case WaitPhoneNumber => "authorizationStateWaitPhoneNumber"
    case WaitRegistration => "authorizationStateWaitRegistration"
    case WaitTdlibParameters => "authorizationStateWaitTdlibParameters"
  }

  /** The state an authorization-state name selects; None for a name the
      wrapper does not recognise. */
  function ParseAuthorizationState(name: string): (r: Option<AuthorizationState>)
    ensures r.Some? ==> AuthorizationStateName(r.value) == name
    ensures r.None? ==> forall state :: AuthorizationStateName(state) != name
  {
    if name == "authorizationStateClosed" then Some(Closed)
    else if name == "authorizationStateClosing" then Some(Closing)
    else if name == "authorizationStateLoggingOut" then Some(LoggingOut)
    else if name == "authorizationStateReady" then Some(AuthorizationReady)
    else if name == "authorizationStateWaitCode" then Some(WaitCode)
    else if name == "authorizationStateWaitEncryptionKey" then Some(WaitEncryptionKey)
    else if name == "authorizationStateWaitOtherDeviceConfirmation" then Some(WaitOtherDeviceConfirmation)
    else if name == "authorizationStateWaitPassword" then Some(WaitPassword)
    else if name == "authorizationStateWaitPhoneNumber" then Some(WaitPhoneNumber)
    else if name == "authorizationStateWaitRegistration" then Some(WaitRegistration)
    else if name == "authorizationStateWaitTdlibParameters" then Some(WaitTdlibParameters)
    else None
  }

  /** Every state is recognised by its own name, so the eleven names are distinct. */
  lemma AuthorizationStateRoundTrip(state: AuthorizationState)
    ensures ParseAuthorizationState(AuthorizationStateName(state)) == Some(state)
  {
  }

  datatype ConnectionState =
    | Connecting
    | ConnectingToProxy
    | ConnectionReady
    | Updating
    | WaitingForNetwork

  function ConnectionStateName(state: ConnectionState): string {
    match state
    case Connecting => "connectionStateConnecting"
    case ConnectingToProxy => "connectionStateConnectingToProxy"
    case ConnectionReady => "connectionStateReady"
    case Updating => "connectionStateUpdating"
    case WaitingForNetwork => "connectionStateWaitingForNetwork"
  }

  /** The state a connection-state name selects; None for an unknown name. */
  function ParseConnectionState(name: string): (r: Option<ConnectionState>)
    ensures r.Some? ==> ConnectionStateName(r.value) == name
    ensures r.None? ==> forall state :: ConnectionStateName(state) != name
  {
    if name == "connectionStateConnecting" then Some(Connecting)
    else if name == "connectionStateConnectingToProxy" then Some(ConnectingToProxy)
    else if name == "connectionStateReady" then Some(ConnectionReady)
    else if name == "connectionStateUpdating" then Some(Updating)
    else if name == "connectionStateWaitingForNetwork" then Some(WaitingForNetwork)
    else None
  }

  lemma ConnectionStateRoundTrip(state: ConnectionState)
    ensures ParseConnectionState(ConnectionStateName(state)) == Some(state)
  {
  }

  datatype ChatMemberStatus =
    | ChatMemberStatusMember
    | ChatMemberStatusLeft
    | ChatMemberStatusCreator
    | ChatMemberStatusAdministrator
    | ChatMemberStatusRestricted
    | ChatMemberStatusBanned
    | ChatMemberStatusUnknown

  /** The backend's type name of each named status; the unknown status has none. */
  function ChatMemberStatusLiteral(status: ChatMemberStatus): Option<string> {
    match status
    case ChatMemberStatusMember => Some("chatMemberStatusMember")
    case ChatMemberStatusLeft => Some("chatMemberStatusLeft")
    case ChatMemberStatusCreator => Some("chatMemberStatusCreator")
    case ChatMemberStatusAdministrator => Some("chatMemberStatusAdministrator")
    case ChatMemberStatusRestricted => Some("chatMemberStatusRestricted")
    case ChatMemberStatusBanned => Some("chatMemberStatusBanned")
    case ChatMemberStatusUnknown => None
  }

  /** Total: a named status for its own literal, the unknown status for every
      other string. */
  function ChatMemberStatusFromString(name: string): (r: ChatMemberStatus)
    ensures ChatMemberStatusLiteral(r) == Some(name)
         || (r == ChatMemberStatusUnknown && forall status :: ChatMemberStatusLiteral(status) != Some(name))
    ensures forall status :: ChatMemberStatusLiteral(status) == Some(name) ==> r == status
  {
    if name == "chatMemberStatusMember" then ChatMemberStatusMember
    else if name == "chatMemberStatusLeft" then ChatMemberStatusLeft
    else if name == "chatMemberStatusCreator" then ChatMemberStatusCreator
    else if name == "chatMemberStatusAdministrator" then ChatMemberStatusAdministrator
    else if name == "chatMemberStatusRestricted" then ChatMemberStatusRestricted
    else if name == "chatMemberStatusBanned" then ChatMemberStatusBanned
    else ChatMemberStatusUnknown
  }

  lemma ChatMemberStatusRoundTrip(status: ChatMemberStatus)
    requires status != ChatMemberStatusUnknown
    ensures ChatMemberStatusFromString(ChatMemberStatusLiteral(status).value) == status
  {
  }
}
