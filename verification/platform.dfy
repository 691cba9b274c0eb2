/** The outside world the gateway talks to, as uninterpreted functions: the HTTP
    transport, the JSON codec, base64 and OpenSSL, WordPress's text sanitiser
    and the clock. Nothing here is given a meaning beyond its type. */
module Platform {
  import opened PhpValues

  /** One outbound HTTP request as handed to `wp_remote_request`. `body` is
      `None` when the request is sent without a body. */
  datatype HttpRequest = HttpRequest(
    verb: string,
    url: string,
    body: Option<string>,
    headers: seq<(string, string)>)

  /** What `wp_remote_retrieve_response_code` and `wp_remote_retrieve_body`
      return; a transport error reads as code 0 with an empty body. */
  datatype HttpResponse = HttpResponse(code: int, body: string)

  datatype Env = Env(
    send: HttpRequest -> HttpResponse,
    /** `json_decode($s, true)`: `None` when `json_last_error()` reports an error. */
    jsonDecode: string -> Option<Value>,
    /** `wp_json_encode`. */
    jsonEncode: Value -> string,
    /** `base64_decode`: `None` for PHP's `false`. */
    base64Decode: string -> Option<string>,
    /** `openssl_verify(data, signature, key, OPENSSL_ALGO_SHA256)`:
        1 valid, 0 invalid, -1 or false on error. */
    opensslVerify: (string, string, Value) -> int,
    /** `sanitize_text_field`. */
    sanitizeText: string -> string,
    /** `time()`. */
    now: nat)
}
