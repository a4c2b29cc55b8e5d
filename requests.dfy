/**
 * The outbound requests the wrapper issues on its own: the two replies of the
 * authorization handshake and the two settings sent at start-up. A request is
 * the record handed to sendRequest, tagged by its "@type" field.
 */
module Requests {
  import opened Variant
  import opened States

  type Request = map<string, Value>

  /** The request's type name, as sendRequest logs it. */
  function RequestType(request: Request): string {
    ToString(Lookup(request, "@type"))
  }

  /** What setInitialParameters reads from the device and the build: the API
      credentials, the application data directory, the system locale, the
      NAME entry of /etc/hw-release (None when absent) and the OS name. */
  datatype Environment = Environment(
    apiId: Value,
    apiHash: Value,
    appDataLocation: string,
    localeName: string,
    hardwareName: Option<string>,
    productName: string)

  function InitialParameters(env: Environment): map<string, Value> {
    map[
      "api_id" := env.apiId,
      "api_hash" := env.apiHash,
      "database_directory" := Str(env.appDataLocation + "/tdlib"),
      "use_file_database" := Bool(true),
      "use_chat_info_database" := Bool(true),
      "use_message_database" := Bool(true),
      "use_secret_chats" := Bool(false),
      "system_language_code" := Str(env.localeName),
      "device_model" := Str(match env.hardwareName case Some(name) => name case None => "Unknown Mobile Device"),
      "system_version" := Str(env.productName),
      "application_version" := Str("0.2")
    ]
  }

  /** setInitialParameters: the reply to authorizationStateWaitTdlibParameters. */
  function ParametersRequest(env: Environment): (r: Request)
    ensures RequestType(r) == "setTdlibParameters"
    ensures Lookup(ToMap(Lookup(r, "parameters")), "database_directory") == Str(env.appDataLocation + "/tdlib")
  {
    map["@type" := Str("setTdlibParameters"), "parameters" := Rec(InitialParameters(env))]
  }

  /** setEncryptionKey: the reply to authorizationStateWaitEncryptionKey, always
      with the empty key. */
  function EncryptionKeyRequest(): (r: Request)
    ensures RequestType(r) == "checkDatabaseEncryptionKey"
    ensures Lookup(r, "encryption_key") == Str("")
  {
    map["@type" := Str("checkDatabaseEncryptionKey"), "encryption_key" := Str("")]
  }

  function LogVerbosityRequest(): (r: Request)
    ensures RequestType(r) == "setLogVerbosityLevel"
    ensures Lookup(r, "new_verbosity_level") == Int(2)
  {
    map["@type" := Str("setLogVerbosityLevel"), "new_verbosity_level" := Int(2)]
  }

  /** setOptionInteger: an integer option wrapped as optionValueInteger. */
  function OptionIntegerRequest(name: string, value: int): (r: Request)
    ensures RequestType(r) == "setOption" && Lookup(r, "name") == Str(name)
    ensures Lookup(ToMap(Lookup(r, "value")), "@type") == Str("optionValueInteger")
    ensures Lookup(ToMap(Lookup(r, "value")), "value") == Int(value)
  {
    map[
      "@type" := Str("setOption"),
      "name" := Str(name),
      "value" := Rec(map["@type" := Str("optionValueInteger"), "value" := Int(value)])
    ]
  }

  /** The requests an authorization-state change sends before the new state is
      published: one for each of the two handshake states, none otherwise. */
  function HandshakeReplies(env: Environment, name: string): seq<Request> {
    match ParseAuthorizationState(name)
    case Some(WaitTdlibParameters) => [ParametersRequest(env)]
    case Some(WaitEncryptionKey) => [EncryptionKeyRequest()]
    case _ => []
  }

  /** All requests sent while the backend walks through a sequence of
      authorization states. */
  function HandshakeTranscript(env: Environment, names: seq<string>): seq<Request> {
    if names == [] then [] else HandshakeTranscript(env, names[..|names| - 1]) + HandshakeReplies(env, names[|names| - 1])
  }

  /** Only the two handshake states ever produce a request: a run of states
      that never enters either of them sends nothing. */
  lemma {:induction false} SilentWithoutHandshakeStates(env: Environment, names: seq<string>)
    requires forall k :: 0 <= k < |names| ==>
      ParseAuthorizationState(names[k]) != Some(WaitTdlibParameters) && ParseAuthorizationState(names[k]) != Some(WaitEncryptionKey)
    ensures HandshakeTranscript(env, names) == []
  {
    if names != [] {
      var prefix := names[..|names| - 1];
      assert forall k :: 0 <= k < |prefix| ==> prefix[k] == names[k];
      SilentWithoutHandshakeStates(env, prefix);
      assert HandshakeReplies(env, names[|names| - 1]) == [];
    }
  }

  /** The start-up handshake: parameters, then the encryption key, then the
      phone-number prompt yields exactly the two replies, in that order. */
  lemma StartupHandshake(env: Environment)
    ensures HandshakeTranscript(env, ["authorizationStateWaitTdlibParameters",
                                      "authorizationStateWaitEncryptionKey",
                                      "authorizationStateWaitPhoneNumber"])
         == [ParametersRequest(env), EncryptionKeyRequest()]
  {
    var names := ["authorizationStateWaitTdlibParameters",
                  "authorizationStateWaitEncryptionKey",
                  "authorizationStateWaitPhoneNumber"];
    assert names[..|names| - 1] == names[..2];
    assert names[..2][..1] == names[..1];
    assert names[..1][..0] == [];
    assert HandshakeTranscript(env, names[..1]) == [ParametersRequest(env)];
    assert HandshakeTranscript(env, names[..2]) == [ParametersRequest(env), EncryptionKeyRequest()];
  }
}
