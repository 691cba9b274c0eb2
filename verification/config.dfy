/** Gateway settings and the durable WordPress option store the gateway keeps
    its redirect passphrase and cached public key in. */
module Config {
  import opened PhpValues
  import ChipApi

  /** The saved gateway settings the core reads (`is_active`, `secret_key`,
      `brand_id`, `debug`, `email_fallback`, `payment_method_whitelist`), plus
      the site's own `CHIP_FOR_FLUENTCART_ROOT_URL`, `None` when the site does
      not define it. */
  datatype Settings = Settings(
    isActive: string,
    secretKey: string,
    brandId: string,
    debug: string,
    emailFallback: string,
    whitelist: seq<string>,
    siteRootUrl: Option<string>)

  /** The option store: option name to stored value. */
  type Options = map<string, Value>

  const RedirectPassphraseOption := "chip-for-fluent-cart-redirect-passphrase"
  const PublicKeyOption := "chip-for-fluent-cart-public-key"

  /** `get_option($name, $default)`. */
  function GetOption(options: Options, name: string, default: Value): (r: Value)
    ensures name in options ==> r == options[name]
    ensures name !in options ==> r == default
  {
    if name in options then options[name] else default
  }

  /** `isDebugEnabled()`. */
  predicate DebugEnabled(s: Settings) {
    s.debug == "yes"
  }

  /** `new ChipFluentCartApi($secret_key, $brand_id, $logger, $debug)` with
      `$debug` derived from the settings as 'yes' or 'no'; the client's root
      is the site's `CHIP_FOR_FLUENTCART_ROOT_URL`, or CHIP's own when the site
      defines none. */
  function ApiClient(s: Settings, brandId: string): (c: ChipApi.Client)
    ensures c.debug == "yes" <==> DebugEnabled(s)
    ensures c.secretKey == s.secretKey && c.brandId == brandId
    ensures s.siteRootUrl.None? ==> c.rootUrl == ChipApi.DefaultRootUrl
    ensures s.siteRootUrl.Some? ==> c.rootUrl == s.siteRootUrl.value
  {
    var root := match s.siteRootUrl
      case None => ChipApi.DefaultRootUrl
      case Some(url) => url;
    ChipApi.Client(root, s.secretKey, brandId, if DebugEnabled(s) then "yes" else "no")
  }

  /** Both API credentials are configured. */
  predicate HasCredentials(s: Settings) {
    !EmptyString(s.secretKey) && !EmptyString(s.brandId)
  }
}
