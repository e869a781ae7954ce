/** lib/paystack.ts: the sandbox-key guard, webhook signature verification
    over an opaque HMAC-SHA512, and the request each Paystack call sends.
    The network is an oracle: each call receives the reply its request gets. */
module Paystack {
  import opened Common
  import opened Text

  const SandboxPrefix: string := "sk_test_"
  const PaystackBase: string := "https://api.paystack.co"
  const SandboxKeyError: string := "PAYSTACK_SECRET_KEY must be a sandbox (sk_test_) key for testing"

  /** HMAC-SHA512 (RFC 2104 over FIPS 180-4) as an uninterpreted keyed hash:
      it maps (key bytes, message bytes) to digest bytes. */
  type Hmac = (seq<byte>, seq<byte>) -> seq<byte>

  /** `assertSandboxKey()`: returns only for a test secret key. */
  function AssertSandboxKey(secretKey: string): (r: Outcome<()>)
    ensures r.Returned? <==> StartsWith(secretKey, SandboxPrefix)
  {
    if StartsWith(secretKey, SandboxPrefix) then Returned(()) else Threw(SandboxKeyError)
  }

  /** `crypto.timingSafeEqual(a, b)`: throws when the lengths differ. */
  function TimingSafeEqual(a: seq<byte>, b: seq<byte>): (r: Outcome<bool>)
    ensures r.Threw? <==> |a| != |b|
    ensures r == Returned(true) <==> a == b
  {
    if |a| != |b| then Threw("Input buffers must have the same byte length") else Returned(a == b)
  }

  /** `hmac.digest('hex')` of the UTF-8 raw body under the UTF-8 secret key. */
  function ExpectedSignature(secretKey: string, hmac: Hmac, rawBody: string): string {
    HexEncode(hmac(Utf8Encode(secretKey), Utf8Encode(rawBody)))
  }

  /** `verifyWebhookSignature(rawBody, signature)`. */
  function VerifyWebhookSignature(secretKey: string, hmac: Hmac, rawBody: string, signature: Option<string>): Outcome<bool> {
    match AssertSandboxKey(secretKey)
    case Threw(e) => Threw(e)
    case Returned(_) =>
      if !Truthy(signature) then Returned(false)
      else
        var computed := ExpectedSignature(secretKey, hmac, rawBody);
        match TimingSafeEqual(Utf8Encode(computed), Utf8Encode(signature.value))
        case Threw(_) => Returned(false)
        case Returned(same) => Returned(same)
  }

  /** With a sandbox key the check never throws, and it accepts exactly the
      lower-case hex HMAC of the raw body, compared character for character;
      an absent or empty signature is rejected. */
  lemma SignatureAcceptedIff(secretKey: string, hmac: Hmac, rawBody: string, signature: Option<string>)
    requires StartsWith(secretKey, SandboxPrefix)
    ensures VerifyWebhookSignature(secretKey, hmac, rawBody, signature)
         == Returned(Truthy(signature) && signature.value == ExpectedSignature(secretKey, hmac, rawBody))
  {
    if Truthy(signature) {
      var computed := ExpectedSignature(secretKey, hmac, rawBody);
      var a, b := Utf8Encode(computed), Utf8Encode(signature.value);
      if |a| == |b| && a == b {
        Utf8MatchesAscii(signature.value, computed);
      }
    }
  }

  /** An accepted signature is the hex text of the body's digest: decoding
      it gives the digest back, so it fixes the digest of the body. */
  lemma AcceptedSignatureDecodesToDigest(secretKey: string, hmac: Hmac, rawBody: string, signature: string)
    requires VerifyWebhookSignature(secretKey, hmac, rawBody, Some(signature)) == Returned(true)
    ensures HexDecode(signature) == Some(hmac(Utf8Encode(secretKey), Utf8Encode(rawBody)))
  {
    SignatureAcceptedIff(secretKey, hmac, rawBody, Some(signature));
    HexRoundTrip(hmac(Utf8Encode(secretKey), Utf8Encode(rawBody)));
  }

  // ---------------------------------------------------------------------
  // initializeTransaction

  /** The metadata the core passes: `{ user_id, plan }`. */
  datatype Metadata = Metadata(userId: string, plan: string)

  /** The JSON body of `POST /transaction/initialize`. `amount` is `None`
      when the caller's value is not a number and JSON drops it. */
  datatype InitBody = InitBody(email: string, amount: Option<int>, callbackUrl: string,
                               metadata: Metadata, currency: Option<string>)

  datatype InitRequest = InitRequest(url: string, authorization: string, body: InitBody)

  datatype InitData = InitData(authorizationUrl: string)

  /** What the provider answers: a reply with `res.ok`, its JSON text and
      its `data`, or a failure of `fetch`/`res.json()`. */
  datatype InitReply = InitAnswered(ok: bool, json: string, data: InitData) | InitFetchFailed(message: string)

  /** `initializeTransaction(email, amount, callback_url, metadata, currency)`:
      the request it sends (none when the key guard throws) and its outcome. */
  function InitializeTransaction(secretKey: string, email: string, amount: Option<int>, callbackUrl: string,
                                 metadata: Metadata, reply: InitReply, currency: string := "KES")
    : (r: (Option<InitRequest>, Outcome<InitData>))
    ensures r.0.Some? <==> StartsWith(secretKey, SandboxPrefix)
    ensures r.0.Some? ==> r.0.value.body == InitBody(email, amount, callbackUrl, metadata,
                                                     if currency != "" then Some(currency) else None)
    ensures r.0.Some? ==> (r.0.value.url == PaystackBase + "/transaction/initialize"
                           && r.0.value.authorization == "Bearer " + secretKey)
    ensures r.1.Returned? <==> StartsWith(secretKey, SandboxPrefix) && reply.InitAnswered? && reply.ok
    ensures r.1.Returned? ==> r.1.value == reply.data
  {
    match AssertSandboxKey(secretKey)
    case Threw(e) => (None, Threw(e))
    case Returned(_) =>
      var body := InitBody(email, amount, callbackUrl, metadata, if currency != "" then Some(currency) else None);
      var request := InitRequest(PaystackBase + "/transaction/initialize", "Bearer " + secretKey, body);
      match reply
      case InitFetchFailed(m) => (Some(request), Threw(m))
      case InitAnswered(ok, json, data) =>
        if !ok then (Some(request), Threw("Paystack initialize error: " + json)) else (Some(request), Returned(data))
  }

  // ---------------------------------------------------------------------
  // verifyTransaction

  /** The parts of the verified transaction the core reads: `status`,
      `metadata.user_id`, `metadata.plan`. */
  datatype TxData = TxData(status: Option<string>, userId: Option<string>, plan: Option<string>)

  datatype TxReply = TxAnswered(ok: bool, json: string, data: TxData) | TxFetchFailed(message: string)

  datatype VerifyRequest = VerifyRequest(url: string, authorization: string)

  function VerifyUrl(reference: string): string {
    PaystackBase + "/transaction/verify/" + EncodeURIComponent(reference)
  }

  /** `verifyTransaction(reference)`: the GET it sends and its outcome. */
  function VerifyTransaction(secretKey: string, reference: string, reply: TxReply)
    : (r: (Option<VerifyRequest>, Outcome<TxData>))
    ensures r.0.Some? <==> StartsWith(secretKey, SandboxPrefix)
    ensures r.0.Some? ==> r.0.value == VerifyRequest(VerifyUrl(reference), "Bearer " + secretKey)
    ensures r.1.Returned? <==> StartsWith(secretKey, SandboxPrefix) && reply.TxAnswered? && reply.ok
    ensures r.1.Returned? ==> r.1.value == reply.data
  {
    match AssertSandboxKey(secretKey)
    case Threw(e) => (None, Threw(e))
    case Returned(_) =>
      var request := VerifyRequest(VerifyUrl(reference), "Bearer " + secretKey);
      match reply
      case TxFetchFailed(m) => (Some(request), Threw(m))
      case TxAnswered(ok, json, data) =>
        if !ok then (Some(request), Threw("Paystack verify error: " + json)) else (Some(request), Returned(data))
  }

  /** The reference becomes exactly one path segment after the fixed prefix:
      its encoding holds no `/`, `?` or `#`, and it is the reference itself
      exactly when the reference has only unreserved characters. */
  lemma VerifyUrlIsOneSegment(reference: string)
    ensures var prefix := PaystackBase + "/transaction/verify/";
      var segment := VerifyUrl(reference)[|prefix|..];
      && StartsWith(VerifyUrl(reference), prefix)
      && segment == EncodeURIComponent(reference)
      && (forall i :: 0 <= i < |segment| ==> segment[i] != '/' && segment[i] != '?' && segment[i] != '#')
      && (segment == reference <==> forall i :: 0 <= i < |reference| ==> IsUriUnreserved(reference[i]))
  {
    var prefix := PaystackBase + "/transaction/verify/";
    assert VerifyUrl(reference)[..|prefix|] == prefix;
    assert VerifyUrl(reference)[|prefix|..] == EncodeURIComponent(reference);
    EncodeURIComponentIsSafe(reference);
    EncodeURIComponentIdentity(reference);
  }

  /** Every exported operation runs the key guard first: with a non-sandbox
      key each of them throws and sends nothing. */
  lemma NonSandboxKeyStopsEverything(secretKey: string, hmac: Hmac, rawBody: string, signature: Option<string>,
                                     email: string, amount: Option<int>, callbackUrl: string, metadata: Metadata,
                                     initReply: InitReply, reference: string, txReply: TxReply)
    requires !StartsWith(secretKey, SandboxPrefix)
    ensures VerifyWebhookSignature(secretKey, hmac, rawBody, signature) == Threw(SandboxKeyError)
    ensures InitializeTransaction(secretKey, email, amount, callbackUrl, metadata, initReply) == (None, Threw(SandboxKeyError))
    ensures VerifyTransaction(secretKey, reference, txReply) == (None, Threw(SandboxKeyError))
  {
  }
}
