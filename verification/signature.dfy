/** Webhook signature verification (`verifySignature`): the `X-Signature`
    header is base64-decoded and checked with OpenSSL (SHA-256) against the
    exact raw request body. Both primitives are uninterpreted. */
module Signature {
  import opened PhpValues
  import opened Platform

  /** `verifySignature`: fails closed. A signature that does not decode is
      rejected without consulting OpenSSL, and only a verifier result of
      exactly 1 is accepted (0 and the error results are not). */
  function VerifySignature(env: Env, rawBody: string, signature: string, publicKey: Value): (ok: bool)
    ensures env.base64Decode(signature).None? ==> !ok
    ensures ok <==> env.base64Decode(signature).Some?
                    && env.opensslVerify(rawBody, env.base64Decode(signature).value, publicKey) == 1
  {
    match env.base64Decode(signature)
    case None => false
    case Some(decoded) => env.opensslVerify(rawBody, decoded, publicKey) == 1
  }
}
