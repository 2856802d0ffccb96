/**
 * Connection configuration, token resolution and the authorization header.
 *
 * `GetConfig` reads the plugin's configuration out of the host connection's
 * `Config` interface with a type assertion to the value type `linearConfig`;
 * anything else yields the zero configuration. `connect` starts from the
 * `LINEAR_TOKEN` environment value, lets a non-nil configured token replace
 * it, and refuses an empty result. The transport it installs sets the
 * `Authorization` header of every request it forwards.
 *
 * The environment is a parameter; the HTTP client, the endpoint and the
 * wrapped transport are not part of this model.
 */
module Connection {
  import opened Common

  /** `linearConfig`: both fields are pointers, nil when the option is not set. */
  datatype LinearConfig = LinearConfig(token: Option<string>, pageSize: Option<int>)

  const ZeroConfig: LinearConfig := LinearConfig(None, None)

  /** The dynamic value held by the connection's `Config` interface. */
  datatype ConfigValue =
    | ConfigStruct(config: LinearConfig)   // a `linearConfig` value
    | ConfigPointer(config: LinearConfig)  // a `*linearConfig`
    | OtherConfig                          // a value of any other type

  /** A host connection; `config` is None when its `Config` interface is nil. */
  datatype HostConnection = HostConnection(config: Option<ConfigValue>)

  /**
   * The instance `ConfigInstance` hands the host to parse a connection's
   * configuration into: a `*linearConfig`. The model assumes the host stores
   * this pointer as returned; the host SDK is not part of this model.
   */
  function ConfigInstance(parsed: LinearConfig): (v: ConfigValue)
    ensures v.ConfigPointer? && v.config == parsed
  {
    ConfigPointer(parsed)
  }

  /**
   * `GetConfig`: a result other than the zero config comes only from a
   * `Config` holding a `linearConfig` value, and such a value is returned as
   * it is; a nil connection, a nil `Config` or any other dynamic type gives
   * the zero config.
   */
  function GetConfig(connection: Option<HostConnection>): (c: LinearConfig)
    ensures c != ZeroConfig ==> connection == Some(HostConnection(Some(ConfigStruct(c))))
    ensures connection.Some? && connection.value.config.Some? && connection.value.config.value.ConfigStruct? ==>
              c == connection.value.config.value.config
  {
    if connection.None? || connection.value.config.None? then ZeroConfig
    else match connection.value.config.value
      case ConfigStruct(config) => config
      case _ => ZeroConfig
  }

  /** The token `connect` ends up with: a configured token, even an empty one, replaces the environment's. */
  function ResolveToken(env: string, config: LinearConfig): (token: string)
    ensures config.token.Some? ==> token == config.token.value
    ensures config.token.None? ==> token == env
  {
    if config.token.Some? then config.token.value else env
  }

  /** The client `connect` builds, reduced to the key its transport sends. */
  datatype Client = Client(token: string)

  /** `connect`: an empty resolved token is the fixed configuration error; otherwise a client with that token. */
  function Connect(env: string, connection: Option<HostConnection>): (r: Result<Client>)
    ensures r.Failure? <==> ResolveToken(env, GetConfig(connection)) == ""
    ensures r.Failure? ==> r.error == ConfigurationError(TokenMissingMessage)
    ensures r.Success? ==> r.value.token == ResolveToken(env, GetConfig(connection)) && r.value.token != ""
  {
    var token := ResolveToken(env, GetConfig(connection));
    if token == "" then Failure(ConfigurationError(TokenMissingMessage)) else Success(Client(token))
  }

  /** With no configured token (here: no connection at all), the environment value decides. */
  lemma EnvironmentTokenUsed(env: string)
    ensures env != "" ==> Connect(env, None) == Success(Client(env))
    ensures env == "" ==> Connect(env, None) == Failure(ConfigurationError(TokenMissingMessage))
  {
  }

  /** A configured empty token still replaces the environment value, so `connect` fails whatever the environment holds. */
  lemma ConfiguredEmptyTokenWins(env: string, pageSize: Option<int>)
    ensures Connect(env, Some(HostConnection(Some(ConfigStruct(LinearConfig(Some(""), pageSize))))))
         == Failure(ConfigurationError(TokenMissingMessage))
  {
  }

  /**
   * As written, if the host stores the `*linearConfig` that `ConfigInstance`
   * returns, it fails `GetConfig`'s assertion to the value type, so its token
   * is never seen: `connect` behaves as if there were no configuration at all.
   */
  lemma ConfiguredTokenIgnored(env: string, token: string, pageSize: Option<int>)
    ensures GetConfig(Some(HostConnection(Some(ConfigInstance(LinearConfig(Some(token), pageSize)))))) == ZeroConfig
    ensures Connect(env, Some(HostConnection(Some(ConfigInstance(LinearConfig(Some(token), pageSize))))))
         == Connect(env, None)
    ensures token != "" ==>
              Connect("", Some(HostConnection(Some(ConfigInstance(LinearConfig(Some(token), pageSize)))))).Failure?
  {
  }

  /** The evidently intended extraction: accept the configuration whether it is held by value or by pointer. */
  function GetConfigIntended(connection: Option<HostConnection>): (c: LinearConfig)
    ensures c != ZeroConfig ==> connection.Some? && connection.value.config.Some? && !connection.value.config.value.OtherConfig?
    ensures connection.Some? && connection.value.config.Some? && !connection.value.config.value.OtherConfig? ==>
              c == connection.value.config.value.config
  {
    if connection.None? || connection.value.config.None? then ZeroConfig
    else match connection.value.config.value
      case ConfigStruct(config) => config
      case ConfigPointer(config) => config
      case OtherConfig => ZeroConfig
  }

  /** `connect` over the intended extraction. */
  function ConnectIntended(env: string, connection: Option<HostConnection>): (r: Result<Client>)
    ensures r.Failure? <==> ResolveToken(env, GetConfigIntended(connection)) == ""
    ensures r.Success? ==> r.value.token == ResolveToken(env, GetConfigIntended(connection))
  {
    var token := ResolveToken(env, GetConfigIntended(connection));
    if token == "" then Failure(ConfigurationError(TokenMissingMessage)) else Success(Client(token))
  }

  /** With the intended extraction, a configured non-empty token is the one the client uses, whatever the environment. */
  lemma IntendedConfiguredTokenUsed(env: string, token: string, pageSize: Option<int>)
    requires token != ""
    ensures ConnectIntended(env, Some(HostConnection(Some(ConfigInstance(LinearConfig(Some(token), pageSize))))))
         == Success(Client(token))
  {
  }

  /** The header map after `Header.Set("Authorization", "Bearer " + key)`. */
  function WithAuthorization(header: map<string, seq<string>>, key: string): (h: map<string, seq<string>>)
    ensures "Authorization" in h && h["Authorization"] == ["Bearer " + key]
    ensures forall name :: name != "Authorization" ==> (name in h <==> name in header)
    ensures forall name :: name != "Authorization" && name in header ==> h[name] == header[name]
  {
    header["Authorization" := ["Bearer " + key]]
  }

  /** An outgoing HTTP request, reduced to its header map. */
  class HttpRequest {
    var header: map<string, seq<string>>

    constructor (header: map<string, seq<string>>)
      ensures this.header == header
    {
      this.header := header;
    }
  }

  /** `authedTransport`: the transport `connect` installs, holding the resolved token. */
  class AuthedTransport {
    const key: string

    constructor (key: string)
      ensures this.key == key
    {
      this.key := key;
    }

    /**
     * `RoundTrip` before it hands the request to the wrapped transport: the
     * `Authorization` header becomes exactly `Bearer <key>`, replacing any
     * earlier value, and every other header is left as it was.
     */
    method RoundTrip(req: HttpRequest)
      modifies req
      ensures req.header == WithAuthorization(old(req.header), key)
      ensures req.header["Authorization"] == ["Bearer " + key]
      ensures forall name :: name != "Authorization" && name in old(req.header) ==> req.header[name] == old(req.header)[name]
    {
      req.header := req.header["Authorization" := ["Bearer " + key]];
    }
  }
}
