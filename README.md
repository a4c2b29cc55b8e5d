# TDLibWrapper state store

A Dafny model of the state store inside `TDLibWrapper`, the object in
harbour-fernschreiber that sits between the QML front end and TDLib's JSON
client. The receiver thread decodes backend updates and calls the wrapper's
`handle*` slots. The slots keep an in-memory mirror of the backend up to date and emit a Qt
signal for each change. The mirror holds:

- the authorization state and the connection state;
- the option table;
- the user table and the own-user record;
- the chat table;
- the two unread counters;
- the basic-group and super-group tables.

Two authorization states make the wrapper answer the backend on its own.
At start-up it also sends two settings requests.

The model has six modules:

- `Variant` (`variant.dfy`): the `QVariant` values the handlers receive, as a
  datatype, together with `value(key)`, `toMap()`, `toString()` and
  `toInt()`. Integers print as canonical decimal text and parse back. The
  round-trip, uniqueness and injectivity of that text are proved, so two
  integer ids compare equal as text exactly when they are equal.
- `States` (`states.dfy`): the authorization-state, connection-state and
  member-status enumerations, with the backend names that select them.
- `Requests` (`requests.dfy`): the outbound requests the wrapper issues by
  itself, and the handshake transcript of a run of authorization states.
- `Records` (`records.dfy`): the record-level rules. A user record absorbs a
  profile update (replace) or a status update (merge of one field). A
  discovered chat is filed under its id. An unread counter belongs to the
  main chat list or to another one.
- `Wrapper` (`wrapper.dfy`): the `TDLibWrapper` class, whose fields mirror
  the C++ members, and the `Group` class, whose `groupInfo` is updated in
  place.
  - `sent` is the sequence of requests handed to `sendRequest`.
  - `emitted` is the sequence of signals, in emission order.
  - Each handler's `ensures` keep every field the C++ slot does not write;
    `emitted` grows by the slot's signals.
  - `Valid()` is the store invariant every handler preserves:
    - group tables keyed by the group's own id;
    - the two tables never share a record;
    - every stored user is a record;
    - every chat is filed under its own id;
    - both stored unread counters are unset or main-list counters.
- `Scenarios` (`scenarios.dfy`): fresh wrappers driven through short update
  sequences, each with its observable outcome proved.

## Model

| member | source | states |
|---|---|---|
| Variant.Lookup | src/tdlibwrapper.cpp:601 | `QVariantMap::value`: a missing key reads as an invalid value, a present key as its stored value |
| Variant.ToMap | src/tdlibwrapper.cpp:406-410 | `toMap()`: a map converts to itself; a non-empty result means the value was that map, so anything else converts to the empty map |
| Variant.ToString | src/tdlibwrapper.cpp:601-602 | `toString()`: a string converts to itself; an invalid value, a list or a map converts to ""; a boolean converts to "true" or "false"; an integer converts to its canonical decimal text (no leading zero, a '-' exactly for a negative number) that parses back to it; the empty text never comes from an integer or a boolean |
| Variant.ToInt | src/tdlibwrapper.cpp:624-627 | `toInt()`: the result is a 32-bit integer; an integer is narrowed by two's-complement truncation (kept when in range); a numeric string within 64 bits is narrowed the same way; a non-numeric string or one outside 64 bits gives 0; true gives 1 and false 0; an invalid value (a missing key), a list or a map gives 0 |
| Variant.ParseIntToString | src/tdlibwrapper.cpp:601-602 | decimal parsing inverts decimal printing for every integer (the induction is in `NatToDecimalValue`) |
| Variant.NatToDecimalValue | src/tdlibwrapper.cpp:601-602 | the digits printed for a natural number denote that number |
| Variant.CanonicalDigitsArePrinted | src/tdlibwrapper.cpp:601-602 | a digit string without a leading zero is the printing of the number it denotes |
| Variant.CanonicalDecimalUnique | src/tdlibwrapper.cpp:601-602 | the text of an integer is the only canonical decimal text that parses to it, so the canonical and parse-back clauses of `toString()` fix the text of an id exactly |
| Variant.IntToStringInjective | src/tdlibwrapper.cpp:601-602 | two integer ids have the same text iff they are equal, so the own-id comparison on text is the comparison on ids |
| States.ParseAuthorizationState | src/tdlibwrapper.cpp:517-567 | a recognised name selects the state whose name it is; no state has an unrecognised name |
| States.AuthorizationStateRoundTrip | src/tdlibwrapper.cpp:517-567 | each of the eleven states is selected by its own name (so the names are distinct) |
| States.ParseConnectionState | src/tdlibwrapper.cpp:578-597 | a recognised name selects the connection state whose name it is; no state has an unrecognised name |
| States.ConnectionStateRoundTrip | src/tdlibwrapper.cpp:578-597 | each of the five connection states is selected by its own name |
| States.ChatMemberStatusFromString | src/tdlibwrapper.cpp:824-834 | total: each of the six literals gives exactly its own status, and the unknown status comes exactly when no named status has that literal |
| States.ChatMemberStatusRoundTrip | src/tdlibwrapper.cpp:824-834 | every named status is recovered from its literal |
| Requests.ParametersRequest | src/tdlibwrapper.cpp:737-757 | a `setTdlibParameters` request whose database directory is the application data directory plus `/tdlib` |
| Requests.EncryptionKeyRequest | src/tdlibwrapper.cpp:759-767 | a `checkDatabaseEncryptionKey` request with the empty key |
| Requests.LogVerbosityRequest | src/tdlibwrapper.cpp:769-776 | a `setLogVerbosityLevel` request with `new_verbosity_level` 2 |
| Requests.OptionIntegerRequest | src/tdlibwrapper.cpp:328-339 | a `setOption` request carrying the name, and the integer value inside a record tagged `optionValueInteger` |
| Requests.SilentWithoutHandshakeStates | src/tdlibwrapper.cpp:517-567 | a run of authorization states that never selects either handshake state sends nothing |
| Requests.StartupHandshake | src/tdlibwrapper.cpp:539-563 | the run WaitTdlibParameters, WaitEncryptionKey, WaitPhoneNumber sends exactly the parameters and then the key |
| Records.WithStatus | src/tdlibwrapper.cpp:611-622 | the merged record has the new status and exactly the other fields of the old record, unchanged |
| Records.StatusUpdatesKeepProfile | src/tdlibwrapper.cpp:611-622 | any run of status updates keeps every non-status field and leaves the last status |
| Records.LastProfileWins | src/tdlibwrapper.cpp:599-622 | after profile and status updates, the non-status fields are those of the last profile update |
| Records.DiscoverChat | src/tdlibwrapper.cpp:629-634 | the chat is stored whole under its own id, no other chat changes, and the keyed-by-id invariant is kept |
| Records.DiscoverChatIdempotent | src/tdlibwrapper.cpp:629-634 | replaying a discovery changes nothing |
| Wrapper.Group.constructor | src/tdlibwrapper.cpp:806-810 | a new group carries its id and empty information |
| Wrapper.Group.ChatMemberStatus | src/tdlibwrapper.cpp:836-840 | a named status exactly when `status.@type` is its literal (both directions); unknown when the status or its type is missing or empty |
| Wrapper.TDLibWrapper.constructor | src/tdlibwrapper.cpp:46-93 | empty tables, the given initial states, and exactly the log-verbosity and `notification_group_count_max` = 5 requests sent |
| Wrapper.TDLibWrapper.SendRequest | src/tdlibwrapper.cpp:107-113 | appends the request to the outbound log |
| Wrapper.TDLibWrapper.SetInitialParameters | src/tdlibwrapper.cpp:737-757 | sends exactly the parameters request |
| Wrapper.TDLibWrapper.SetEncryptionKey | src/tdlibwrapper.cpp:759-767 | sends exactly the encryption-key request |
| Wrapper.TDLibWrapper.SetLogVerbosityLevel | src/tdlibwrapper.cpp:769-776 | sends exactly the log-verbosity request |
| Wrapper.TDLibWrapper.SetOptionInteger | src/tdlibwrapper.cpp:328-339 | sends exactly the integer-option request |
| Wrapper.TDLibWrapper.OwnUserId | src/tdlibwrapper.cpp:601-602 | the own id as text: "" while the my_id option is absent; the canonical decimal text of an integer my_id, which parses back to it; a string my_id as it is |
| Wrapper.TDLibWrapper.HandleVersionDetected | src/tdlibwrapper.cpp:511-515 | stores the version and publishes it |
| Wrapper.TDLibWrapper.HandleAuthorizationStateChanged | src/tdlibwrapper.cpp:517-567 | a recognised name selects its state, an unknown name keeps the old one; the handshake replies of that name (`HandshakeReplies`) are appended to the sent requests; the resulting state is published (the body sends the reply before it assigns the state, as the source does) |
| Wrapper.TDLibWrapper.HandleOptionUpdated | src/tdlibwrapper.cpp:569-576 | upserts the option; emits the own-id signal iff the name is my_id; any other option keeps the own-user record consistent |
| Wrapper.TDLibWrapper.HandleConnectionStateChanged | src/tdlibwrapper.cpp:578-597 | a recognised name selects its state, an unknown one keeps the old one; the state is published |
| Wrapper.TDLibWrapper.HandleUserUpdated | src/tdlibwrapper.cpp:599-609 | the user's record is replaced under its id text; the own-user record is replaced iff that id is the own id; consistency is kept |
| Wrapper.TDLibWrapper.HandleUserStatusUpdated | src/tdlibwrapper.cpp:611-622 | the status is merged into the stored record (into an empty one for an unknown user) and into the own record for the own id; consistency is kept |
| Wrapper.TDLibWrapper.HandleFileUpdated | src/tdlibwrapper.cpp:624-627 | publishes the file with its id narrowed by `toInt()` |
| Wrapper.TDLibWrapper.HandleNewChatDiscovered | src/tdlibwrapper.cpp:629-634 | the chat table becomes the discovery of the payload: stored under its id, every other chat unchanged |
| Wrapper.TDLibWrapper.HandleUnreadMessageCountUpdated | src/tdlibwrapper.cpp:636-642 | a main-list counter replaces the stored one and is published; any other changes nothing and emits nothing |
| Wrapper.TDLibWrapper.HandleUnreadChatCountUpdated | src/tdlibwrapper.cpp:644-650 | a main-list counter replaces the stored one and is published; any other changes nothing and emits nothing |
| Wrapper.TDLibWrapper.UpdateGroup | src/tdlibwrapper.cpp:804-813 | reuses the stored record or files a fresh one under the id, replaces its information, leaves every other group and the other table unchanged |
| Wrapper.TDLibWrapper.HandleBasicGroupUpdated | src/tdlibwrapper.cpp:672-675 | the basic group reads back the new information, updated in place; other basic groups and all super groups are unchanged; its id is published |
| Wrapper.TDLibWrapper.HandleSuperGroupUpdated | src/tdlibwrapper.cpp:677-680 | the super group reads back the new information, updated in place; other super groups and all basic groups are unchanged; its id is published |
| Wrapper.TDLibWrapper.GetGroup | src/tdlibwrapper.cpp:815-822 | none for id 0 or an id in neither table; otherwise the super group if there is one, else the basic group, carrying that id |
| Wrapper.TDLibWrapper.GetBasicGroup | src/tdlibwrapper.cpp:422-432 | the empty record for an id not in the basic table, otherwise that group's current information; after an update it reads back the new information (`HandleBasicGroupUpdated`) |
| Wrapper.TDLibWrapper.GetSuperGroup | src/tdlibwrapper.cpp:434-444 | the empty record for an id not in the super table, otherwise that group's current information; after an update it reads back the new information (`HandleSuperGroupUpdated`) |
| Wrapper.TDLibWrapper.GetUserInformation | src/tdlibwrapper.cpp:401-410 | the stored record for a known user, the empty record otherwise; for the own id, the own-user record, while the two are consistent (`OwnUserConsistent`) |
| Wrapper.TDLibWrapper.GetChat | src/tdlibwrapper.cpp:446-450 | the stored chat, which carries the requested id; the empty record for an unknown id |
| Wrapper.TDLibWrapper.HandleChatLastMessageUpdated | src/tdlibwrapper.cpp:652-655 | republishes its arguments; no stored field changes |
| Wrapper.TDLibWrapper.HandleChatOrderUpdated | src/tdlibwrapper.cpp:657-660 | republishes its arguments; no stored field changes |
| Wrapper.TDLibWrapper.HandleChatReadInboxUpdated | src/tdlibwrapper.cpp:662-665 | republishes its arguments; no stored field changes |
| Wrapper.TDLibWrapper.HandleChatReadOutboxUpdated | src/tdlibwrapper.cpp:667-670 | republishes its arguments; no stored field changes |
| Wrapper.TDLibWrapper.HandleChatOnlineMemberCountUpdated | src/tdlibwrapper.cpp:682-685 | republishes its arguments; no stored field changes |
| Wrapper.TDLibWrapper.HandleMessagesReceived | src/tdlibwrapper.cpp:687-690 | republishes its arguments; no stored field changes |
| Wrapper.TDLibWrapper.HandleNewMessageReceived | src/tdlibwrapper.cpp:692-695 | republishes its arguments; no stored field changes |
| Wrapper.TDLibWrapper.HandleMessageInformation | src/tdlibwrapper.cpp:697-700 | republishes its arguments as the received-message signal; no stored field changes |
| Wrapper.TDLibWrapper.HandleMessageSendSucceeded | src/tdlibwrapper.cpp:702-705 | republishes its arguments; no stored field changes |
| Wrapper.TDLibWrapper.HandleUpdateActiveNotifications | src/tdlibwrapper.cpp:707-710 | republishes its arguments; no stored field changes |
| Wrapper.TDLibWrapper.HandleUpdateNotificationGroup | src/tdlibwrapper.cpp:712-715 | republishes its arguments; no stored field changes |
| Wrapper.TDLibWrapper.HandleUpdateNotification | src/tdlibwrapper.cpp:717-720 | republishes its arguments; no stored field changes |
| Wrapper.TDLibWrapper.HandleChatNotificationSettingsUpdated | src/tdlibwrapper.cpp:722-725 | republishes its arguments; no stored field changes |
| Wrapper.TDLibWrapper.HandleMessageContentUpdated | src/tdlibwrapper.cpp:727-730 | republishes its arguments; no stored field changes |
| Wrapper.TDLibWrapper.HandleMessagesDeleted | src/tdlibwrapper.cpp:732-735 | republishes its arguments; no stored field changes |
| Scenarios.HandshakeSteps | src/tdlibwrapper.cpp:539-563 | WaitTdlibParameters sends the parameters, WaitEncryptionKey the key, WaitPhoneNumber nothing and selects its own state |
| Scenarios.PrintedOwnId | src/tdlibwrapper.cpp:601-602 | the integer id 1001 reads as the text "1001" |
| Scenarios.RunHandshake | src/tdlibwrapper.cpp:517-567 | from any valid state, the three start-up states send exactly the parameters and then the key, and leave the wrapper waiting for the phone number |
| Scenarios.HandshakeScenario | src/tdlibwrapper.cpp:517-567 | on a fresh wrapper, the states WaitTdlibParameters, WaitEncryptionKey, WaitPhoneNumber send exactly the parameters and then the key, and leave the wrapper waiting for the phone number |
| Scenarios.OwnUserScenario | src/tdlibwrapper.cpp:569-622 | with my_id 1001, user 1001's profile and then its status both reach the own-user record, which holds id, first name and status |
| Scenarios.MissingIdScenario | src/tdlibwrapper.cpp:599-609 | before my_id arrives, the update of user 42 (an integer id) leaves the own-user record empty, while a later payload without an id becomes the own-user record |
| Scenarios.GroupInPlaceScenario | src/tdlibwrapper.cpp:804-822 | a group reference taken after one update sees the information of a later update |
| Scenarios.UnreadScopeScenario | src/tdlibwrapper.cpp:636-650 | archive-list counters are ignored; only the main-list counter is stored |

The getters that return one field unchanged are the class's public fields
in the model:
`getVersion`, `getAuthorizationState`, `getConnectionState`,
`getUserInformation()`, `getUnreadMessageInformation` and
`getUnreadChatInformation` (src/tdlibwrapper.cpp:115-128, 401-420).

Where the code and the natural reading of its design differ, the model
follows the code:

- A user update replaces the stored user record. It does not merge the
  payload into it field by field.
- Before the `my_id` option arrives, the own id reads as the empty text.
  A user payload without an `id` field has the same empty id text, so it
  becomes the own-user record (`Scenarios.MissingIdScenario`).
- Changing `my_id` does not refresh the own-user record from the user table.
  This is why `HandleOptionUpdated` keeps consistency only for other option
  names.

## Left out

- Qt signal/slot wiring and the receiver thread (src/tdlibwrapper.cpp:61-89), logging (`LOG`/`qDebug`, e.g. lines 109 and 603-617), and the destructor's wait loop (95-105). Each handler is one atomic step, and signals are entries appended to `emitted`.
- JSON serialisation and `td_json_client_send` in `sendRequest`. Both are foreign calls. A request is kept as the record handed to `sendRequest`.
- The device and build inputs of `setInitialParameters`: `TDLIB_API_ID`/`TDLIB_API_HASH`, the application data path, the system locale, `/etc/hw-release` and the OS name. They are the fields of `Requests.Environment`, given to the wrapper's constructor.
- The database directory creation, D-Bus, open-with, screen-saver, file-copy and settings code (src/tdlibwrapper.cpp:52-57, 452-509, 778-802). All of it is I/O.
- The stateless request builders (src/tdlibwrapper.cpp:130-399) other than `setOptionInteger`. They write no state, and the map-thumbnail request uses floating point.
- The wrapper's initial authorization and connection states. The constructor (src/tdlibwrapper.cpp:46-93) never assigns either one, and tdlibwrapper.h is not part of this model, so they are constructor parameters.
- src/notificationmanager.h declares members only. It has no behaviour to model.
- Variant.ToInt: the string path follows Qt 5's `QVariant::toInt`, which reads the text as a 64-bit number and then narrows it; Qt's own source is not part of this model. Qt's parser also accepts surrounding whitespace, while the model's parser accepts only an optional sign followed by digits.
- Variant.Value: floating-point numbers are not modelled, so `toString()` of a double has no counterpart.
- Wrapper.TDLibWrapper.HandleAuthorizationStateChanged: the eleven independent comparisons of the source are written as one lookup through `ParseAuthorizationState`. This is equivalent, because each name selects at most one state (`States.AuthorizationStateRoundTrip`).
- The model does not track pointers held outside the store. `GetGroup` returns the live record, and `Scenarios.GroupInPlaceScenario` shows that later updates reach it. It does not model the record's deletion in the destructor.
