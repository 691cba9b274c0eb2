/** The webhook endpoint (`handleIPN`): a fixed ladder of checks on the raw
    request, each rejecting with its own status code, before the payload is
    handed to `processWebhook`. */
module Webhook {
  import opened PhpValues
  import opened Platform
  import opened Config
  import opened Store
  import opened PublicKeys
  import opened Signature
  import opened Reconciliation

  /** The request as received: the raw body and the `X-Signature` header. */
  datatype IpnRequest = IpnRequest(rawBody: string, signatureHeader: Option<string>)

  datatype IpnResponse = IpnResponse(code: int, body: string)

  /** The response sent (`None` when the status sync threw out of the
      handler) and the state afterwards. */
  datatype IpnRun = IpnRun(response: Option<IpnResponse>, state: State)

  /** The decoded payload, when the body is non-empty, decodes without error
      and is truthy. */
  function Payload(env: Env, req: IpnRequest): (r: Option<Value>)
    ensures r.Some? ==> !EmptyString(req.rawBody) && env.jsonDecode(req.rawBody) == r && !Empty(r.value)
    ensures r.None? ==> EmptyString(req.rawBody) || env.jsonDecode(req.rawBody).None? || Empty(env.jsonDecode(req.rawBody).value)
  {
    if EmptyString(req.rawBody) then None
    else match env.jsonDecode(req.rawBody)
      case None => None
      case Some(data) => if Empty(data) then None else Some(data)
  }

  function BrandOf(data: Value): Value {
    Field(data, "brand_id", Str(""))
  }

  /** The signature header after `wp_unslash`, or "" when absent. */
  function SignatureText(req: IpnRequest): string {
    match req.signatureHeader
    case None => ""
    case Some(h) => StripSlashes(h)
  }

  /** The checks before the public key is needed: a payload from the
      configured brand, carrying a signature. */
  predicate WellFormed(settings: Settings, env: Env, req: IpnRequest) {
    && Payload(env, req).Some?
    && !Empty(BrandOf(Payload(env, req).value))
    && BrandOf(Payload(env, req).value) == Str(settings.brandId)
    && !EmptyString(SignatureText(req))
  }

  /** The key the endpoint verifies with: the configured brand's, via the cache. */
  function KeyFor(s: State, settings: Settings, env: Env): KeyLookup {
    GetPublicKey(s.options, settings, settings.brandId, env)
  }

  /** Every check passes: well formed, a non-empty key is available, and the
      signature verifies over the exact raw body. */
  predicate Authentic(s: State, settings: Settings, env: Env, req: IpnRequest) {
    && WellFormed(settings, env, req)
    && KeyFor(s, settings, env).key.Some?
    && !Empty(KeyFor(s, settings, env).key.value)
    && VerifySignature(env, req.rawBody, SignatureText(req), KeyFor(s, settings, env).key.value)
  }

  function Reject(s: State, code: int, body: string): IpnRun {
    IpnRun(Some(IpnResponse(code, body)), s)
  }

  /** `handleIPN`. */
  function HandleIpn(s: State, settings: Settings, env: Env, sync: Sync, req: IpnRequest): (r: IpnRun)
    // The checks, in order, each with its own response.
    ensures EmptyString(req.rawBody) ==> r == Reject(s, 400, "Empty request body")
    ensures r.response == Some(IpnResponse(400, "Invalid JSON")) <==> !EmptyString(req.rawBody) && Payload(env, req).None?
    ensures r.response == Some(IpnResponse(400, "Missing brand_id")) <==>
              Payload(env, req).Some? && Empty(BrandOf(Payload(env, req).value))
    ensures r.response == Some(IpnResponse(400, "Brand ID mismatch")) <==>
              && Payload(env, req).Some? && !Empty(BrandOf(Payload(env, req).value))
              && BrandOf(Payload(env, req).value) != Str(settings.brandId)
    ensures r.response == Some(IpnResponse(400, "Missing signature")) <==>
              && Payload(env, req).Some? && !Empty(BrandOf(Payload(env, req).value))
              && BrandOf(Payload(env, req).value) == Str(settings.brandId) && EmptyString(SignatureText(req))
    ensures r.response == Some(IpnResponse(500, "Failed to get public key")) <==>
              WellFormed(settings, env, req)
              && (KeyFor(s, settings, env).key.None? || Empty(KeyFor(s, settings, env).key.value))
    ensures r.response == Some(IpnResponse(400, "Invalid signature")) <==>
              && WellFormed(settings, env, req)
              && KeyFor(s, settings, env).key.Some? && !Empty(KeyFor(s, settings, env).key.value)
              && !VerifySignature(env, req.rawBody, SignatureText(req), KeyFor(s, settings, env).key.value)
    // Nothing is consulted or changed before the request is well formed.
    ensures !WellFormed(settings, env, req) ==> r.state == s && r.response.Some? && r.response.value.code == 400
    // Rejections reach no order, transaction or lock; at most the key cache changes.
    ensures !Authentic(s, settings, env, req) ==>
              && r.response.Some? && (r.response.value.code == 400 || r.response.value.code == 500)
              && r.state == s.(options := r.state.options)
    // The payload is processed exactly when every check passes, and the
    // reply is then 200 unless the sync threw.
    ensures Authentic(s, settings, env, req) ==>
              var run := ProcessWebhook(s.(options := KeyFor(s, settings, env).options), Payload(env, req).value, sync);
              r.state == run.state && (r.response == Some(IpnResponse(200, "OK")) <==> !run.raised)
    ensures r.response == Some(IpnResponse(200, "OK")) ==> Authentic(s, settings, env, req)
  {
    if EmptyString(req.rawBody) then Reject(s, 400, "Empty request body")
    else if Payload(env, req).None? then Reject(s, 400, "Invalid JSON")
    else
      var data := Payload(env, req).value;
      if Empty(BrandOf(data)) then Reject(s, 400, "Missing brand_id")
      else if Str(settings.brandId) != BrandOf(data) then Reject(s, 400, "Brand ID mismatch")
      else if EmptyString(SignatureText(req)) then Reject(s, 400, "Missing signature")
      else
        var lookup := KeyFor(s, settings, env);
        var cached := s.(options := lookup.options);
        if lookup.key.None? || Empty(lookup.key.value) then Reject(cached, 500, "Failed to get public key")
        else if !VerifySignature(env, req.rawBody, SignatureText(req), lookup.key.value) then
          Reject(cached, 400, "Invalid signature")
        else
          var run := ProcessWebhook(cached, data, sync);
          IpnRun(if run.raised then None else Some(IpnResponse(200, "OK")), run.state)
  }

  /** A forged request is never processed: whatever the payload claims, a
      signature the verifier rejects leaves every order and transaction as
      it was. */
  lemma ForgedSignatureChangesNothing(s: State, settings: Settings, env: Env, sync: Sync, req: IpnRequest)
    requires WellFormed(settings, env, req)
    requires KeyFor(s, settings, env).key.Some?
    requires !VerifySignature(env, req.rawBody, SignatureText(req), KeyFor(s, settings, env).key.value)
    ensures var r := HandleIpn(s, settings, env, sync, req);
            && r.state.orders == s.orders && r.state.transactions == s.transactions && r.state.writes == s.writes
            && r.response.Some? && r.response.value.code != 200
  {
  }

  /** Under a sound sync an accepted notification always answers 200: a
      well-formed request whose signature verifies against the non-empty
      key the cache or the API supplies. */
  lemma AuthenticAnswersOk(s: State, settings: Settings, env: Env, sync: Sync, req: IpnRequest, key: Value)
    requires SyncSound(sync)
    requires WellFormed(settings, env, req)
    requires KeyFor(s, settings, env).key == Some(key) && !Empty(key)
    requires VerifySignature(env, req.rawBody, SignatureText(req), key)
    ensures HandleIpn(s, settings, env, sync, req).response == Some(IpnResponse(200, "OK"))
  {
    assert Authentic(s, settings, env, req);
    var cached := s.(options := KeyFor(s, settings, env).options);
    var data := Payload(env, req).value;
    match WebhookTarget(cached, data)
    case None =>
    case Some((oi, ti)) =>
      var orderId := cached.orders[oi].id;
      if !IsPaid(cached.orders[oi]) {
        var written := MarkSucceeded(Acquire(cached, orderId), ti, WebhookPurchaseId(data), WebhookLabel(data));
        assert SyncMarksPaid(written, orderId, sync(written, orderId, ti));
      }
  }
}
