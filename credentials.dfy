/** Decoding the per-issuer configuration and turning its secret reference
    into a provider session (main.go:65-73, 85-100, 218-229). */
module Credentials {
  import opened Wrappers
  import opened Errors

  type Bytes = seq<bv8>

  /** cert-manager's SecretKeySelector: a secret's name and a key inside it. */
  datatype SecretKeySelector = SecretKeySelector(name: string, key: string)

  /** softlayerDNSProviderConfig, JSON fields `username` and `apiKeySecretRef`. */
  datatype Config = Config(username: string, apiKeySecretRef: SecretKeySelector)

  /** Go's zero value of the config struct. */
  const ZeroConfig := Config("", SecretKeySelector("", ""))

  /** `json.Unmarshal` into a zero config: a partial decoder whose failure
      carries the parser's message. */
  type Decoder = Bytes -> Result<Config, string>

  /** A secret's key/value payload. */
  type SecretData = map<string, Bytes>

  /** The credential store: (namespace, secret name) to the secret, or why not. */
  type SecretStore = (string, string) -> Result<SecretData, string>

  /** An authenticated SoftLayer session (`session.New(username, apiKey)`). */
  datatype Session = Session(username: string, apiKey: Bytes)

  /** loadConfig: an absent blob is the zero config, a present one is decoded. */
  function LoadConfig(blob: Option<Bytes>, decode: Decoder): (r: Result<Config, Error>)
    ensures blob.None? ==> r == Ok(ZeroConfig)
    ensures blob.Some? ==> (r.Ok? <==> decode(blob.value).Ok?)
    ensures blob.Some? && r.Ok? ==> r.value == decode(blob.value).value
    ensures r.Err? ==> blob.Some? && r.error == ConfigDecodeError(decode(blob.value).error)
  {
    match blob
    case None => Ok(ZeroConfig)
    case Some(raw) =>
      match decode(raw)
      case Ok(cfg) => Ok(cfg)
      case Err(why) => Err(ConfigDecodeError(why))
  }

  /** provider: fetch the referenced secret in the namespace, look the key up
      in it, and open a session with the configured username and that key. */
  function Provider(cfg: Config, namespace: string, secrets: SecretStore): (r: Result<Session, Error>)
    ensures var fetched := secrets(namespace, cfg.apiKeySecretRef.name);
      && (r.Ok? <==> fetched.Ok? && cfg.apiKeySecretRef.key in fetched.value)
      && (r.Ok? ==> r.value == Session(cfg.username, fetched.value[cfg.apiKeySecretRef.key]))
      && (fetched.Err? ==> r == Err(SecretUnavailable(fetched.error)))
      && (fetched.Ok? && cfg.apiKeySecretRef.key !in fetched.value ==>
            r == Err(SecretKeyNotFound(cfg.apiKeySecretRef.key, cfg.apiKeySecretRef.name, namespace)))
  {
    var ref := cfg.apiKeySecretRef;
    match secrets(namespace, ref.name)
    case Err(why) => Err(SecretUnavailable(why))
    case Ok(data) =>
      if ref.key in data then Ok(Session(cfg.username, data[ref.key]))
      else Err(SecretKeyNotFound(ref.key, ref.name, namespace))
  }
}
