/** `POST /api/deploy-webhook` (backend/server.js): the checks a GitHub
    delivery passes before the deploy script runs. The HMAC-SHA256 digest and
    `JSON.parse` are parameters; running `deploy.sh` is the `Deploy` outcome. */
module DeployWebhook {
  import opened Wrappers

  type Bytes = seq<bv8>

  /** `req.body` after `express.raw`: a `Buffer`, or anything else. */
  datatype RawBody = NotBuffer | Buffer(bytes: Bytes)

  datatype Delivery = Delivery(
    signature: Option<string>,  // header X-Hub-Signature-256
    event: Option<string>,      // header X-GitHub-Event
    body: RawBody)

  datatype Outcome =
    | Reject(status: int, error: string)
    | Pong                         // 200 { ok, message: 'pong' }
    | Ignored(reason: Option<string>) // 200 { ok, ignored[, reason] }
    | Crash                        // reading `ref` of a `null` payload throws: 500
    | Deploy                       // reaches `exec('bash deploy.sh')`

  const MainRef := "refs/heads/main"

  /** `'sha256=' + hmac(secret, body).hex`, the header value GitHub sends. */
  function ExpectedSignature(secret: string, bytes: Bytes, hexDigest: (string, Bytes) -> string): string {
    "sha256=" + hexDigest(secret, bytes)
  }

  /** `payload.ref || ''`: `None` models the `TypeError` thrown when the
      payload is `null`; a falsy `ref` reads as the empty string. */
  function RefOf(payload: Json): Option<Json> {
    match payload
    case JNull => None
    case JObject(fields) =>
      var r := Get(fields, "ref");
      Some(if Truthy(r) then r.value else JString(""))
    case _ => Some(JString(""))
  }

  /** The handler's decision. The checks run in a fixed order, so each
      rejection is decided by the earlier checks alone, and only a verified
      push of `refs/heads/main` reaches the deploy step. */
  function Handle(secret: string, d: Delivery, hexDigest: (string, Bytes) -> string,
                  parse: Bytes -> Option<Json>): (r: Outcome)
    ensures secret == "" ==> r == Reject(503, "Webhook not configured (WEBHOOK_SECRET missing)")
    ensures secret != "" && (d.signature.None? || d.signature == Some("")) ==>
              r == Reject(401, "Missing X-Hub-Signature-256")
    ensures r.Reject? && r.status == 400 ==>
              d.body.NotBuffer? || parse(d.body.bytes).None?
    ensures secret != "" && d.signature.Some? && d.signature.value != "" && d.body.NotBuffer? ==>
              r == Reject(400, "Invalid body")
    ensures secret != "" && d.body.Buffer?
            && d.signature == Some(ExpectedSignature(secret, d.body.bytes, hexDigest)) ==>
              (parse(d.body.bytes).None? <==> r == Reject(400, "Invalid JSON"))
    ensures (&& secret != "" && d.body.Buffer?
             && d.signature == Some(ExpectedSignature(secret, d.body.bytes, hexDigest))
             && parse(d.body.bytes).Some?) ==> !r.Reject?
    ensures !r.Reject? ==>
              && secret != "" && d.body.Buffer?
              && d.signature == Some(ExpectedSignature(secret, d.body.bytes, hexDigest))
              && parse(d.body.bytes).Some?
    ensures !r.Reject? && d.event == Some("push") ==>
              var ref := RefOf(parse(d.body.bytes).value);
              (ref.None? <==> r.Crash?)
              && (ref.Some? && ref.value != JString(MainRef) <==> r == Ignored(Some("not main branch")))
    ensures r == Pong <==> !r.Reject? && d.event == Some("ping")
    ensures r.Deploy? <==>
              && !r.Reject? && d.event == Some("push")
              && RefOf(parse(d.body.bytes).value) == Some(JString(MainRef))
  {
    if secret == "" then
      Reject(503, "Webhook not configured (WEBHOOK_SECRET missing)")
    else if d.signature.None? || d.signature.value == "" then
      Reject(401, "Missing X-Hub-Signature-256")
    else if !d.body.Buffer? then
      Reject(400, "Invalid body")
    else if d.signature.value != ExpectedSignature(secret, d.body.bytes, hexDigest) then
      Reject(401, "Invalid signature")
    else match parse(d.body.bytes)
      case None => Reject(400, "Invalid JSON")
      case Some(payload) =>
        if d.event == Some("ping") then Pong
        else if d.event != Some("push") then Ignored(None)
        else match RefOf(payload)
          case None => Crash
          case Some(ref) =>
            if ref != JString(MainRef) then Ignored(Some("not main branch")) else Deploy
  }

  /** A configured hook with a present but wrong signature answers 401 whatever
      the event and whatever the body parses to. */
  lemma WrongSignatureIsUnauthorized(secret: string, d: Delivery, e: Option<string>,
                                     hexDigest: (string, Bytes) -> string,
                                     parse: Bytes -> Option<Json>, parse': Bytes -> Option<Json>)
    requires secret != "" && d.signature.Some? && d.signature.value != "" && d.body.Buffer?
    requires d.signature.value != ExpectedSignature(secret, d.body.bytes, hexDigest)
    ensures Handle(secret, d, hexDigest, parse) == Reject(401, "Invalid signature")
    ensures Handle(secret, d.(event := e), hexDigest, parse) == Handle(secret, d, hexDigest, parse')
  {
  }

  /** A verified `ping` whose body parses is answered with pong. */
  lemma VerifiedPingIsPong(secret: string, d: Delivery, hexDigest: (string, Bytes) -> string,
                           parse: Bytes -> Option<Json>)
    requires secret != "" && d.body.Buffer?
    requires d.signature == Some(ExpectedSignature(secret, d.body.bytes, hexDigest))
    requires parse(d.body.bytes).Some? && d.event == Some("ping")
    ensures Handle(secret, d, hexDigest, parse) == Pong
  {
  }

  /** A verified push of `refs/heads/main` reaches the deploy step. */
  lemma VerifiedMainPushDeploys(secret: string, d: Delivery, hexDigest: (string, Bytes) -> string,
                                parse: Bytes -> Option<Json>)
    requires secret != "" && d.body.Buffer?
    requires d.signature == Some(ExpectedSignature(secret, d.body.bytes, hexDigest))
    requires parse(d.body.bytes).Some? && d.event == Some("push")
    requires RefOf(parse(d.body.bytes).value) == Some(JString(MainRef))
    ensures Handle(secret, d, hexDigest, parse) == Deploy
  {
  }

  /** A verified delivery whose event is neither `ping` nor `push` is
      acknowledged as ignored and never deploys. */
  lemma OtherEventsIgnored(secret: string, d: Delivery, hexDigest: (string, Bytes) -> string,
                           parse: Bytes -> Option<Json>)
    requires secret != "" && d.body.Buffer?
    requires d.signature == Some(ExpectedSignature(secret, d.body.bytes, hexDigest))
    requires parse(d.body.bytes).Some?
    requires d.event != Some("ping") && d.event != Some("push")
    ensures Handle(secret, d, hexDigest, parse) == Ignored(None)
  {
  }
}
