/** app/api/paystack-webhook/route.ts: the signature gate, then
    `charge.success` / `charge.failed` / any other event applied to the
    profile row whose `id` is the event's `metadata.user_id`. */
module PaystackWebhook {
  import opened Common
  import opened Text
  import opened Store
  import opened Paystack

  /** 30 * 24 * 60 * 60 * 1000 ms. */
  const ThirtyDaysMs: int := 2592000000

  /** The parts of the parsed body the route reads: `event` (when it is a
      string) and `data.metadata.user_id` (when it is a string). */
  datatype WebhookBody = WebhookBody(event: Option<string>, userId: Option<string>)

  /** `JSON.parse(raw)` followed by the property reads: `Malformed` when
      either throws (a syntax error, or a `null` body). */
  datatype ParseResult = Malformed | Parsed(body: WebhookBody)

  /** The request: the `x-paystack-signature` header and the raw body text. */
  datatype WebhookRequest = WebhookRequest(signature: Option<string>, rawBody: string)

  /** The server's secret key and the HMAC it computes with. */
  datatype Secrets = Secrets(secretKey: string, hmac: Hmac)

  const Unauthorized: Reply := Json(401, "{ok:false}")
  const Accepted: Reply := Json(200, "{ok:true}")
  const ServerError: Reply := Json(500, "{ok:false}")

  /** `{ subscription_active: true, subscription_expires_at: now + 30 days }`. */
  function ActivatePatch(now: int): ProfilePatch {
    ProfilePatch(Some(true), Some(now + ThirtyDaysMs), None, None, None, None)
  }

  /** `{ subscription_active: false }`. */
  const DeactivatePatch: ProfilePatch := ProfilePatch(Some(false), None, None, None, None, None)

  /** The transition an event applies to the profiles, keyed on `id`. */
  function ApplyEvent(profiles: map<string, Profile>, event: Option<string>, userId: string, now: int)
    : map<string, Profile>
  {
    if event == Some("charge.success") then UpdateWhereId(profiles, userId, ActivatePatch(now))
    else if event == Some("charge.failed") then UpdateWhereId(profiles, userId, DeactivatePatch)
    else profiles
  }

  /** The route as a function of the tables: its reply and the tables it
      leaves. An update error is not inspected: the table is unchanged and
      the reply is still 200. */
  function Webhook(t: Tables, s: Secrets, parse: string -> ParseResult, req: WebhookRequest,
                   now: int, updateFails: bool): (Reply, Tables)
  {
    match VerifyWebhookSignature(s.secretKey, s.hmac, req.rawBody, req.signature)
    case Threw(_) => (ServerError, t)
    case Returned(valid) =>
      if !valid then (Unauthorized, t)
      else
        match parse(req.rawBody)
        case Malformed => (ServerError, t)
        case Parsed(body) =>
          if !Truthy(body.userId) then (Accepted, t)
          else if updateFails then (Accepted, t)
          else (Accepted, t.(profiles := ApplyEvent(t.profiles, body.event, body.userId.value, now)))
  }

  /** `POST /api/paystack-webhook`. */
  method Post(db: Database, s: Secrets, parse: string -> ParseResult, req: WebhookRequest, now: int, updateFails: bool)
    returns (reply: Reply)
    modifies db
    ensures (reply, db.Snapshot()) == Webhook(old(db.Snapshot()), s, parse, req, now, updateFails)
  {
    var signature := if Truthy(req.signature) then req.signature else None;
    var verified := VerifyWebhookSignature(s.secretKey, s.hmac, req.rawBody, signature);
    if verified.Threw? {
      return ServerError;
    }
    if !verified.value {
      return Unauthorized;
    }
    var parsed := parse(req.rawBody);
    if parsed.Malformed? {
      return ServerError;
    }
    var event := parsed.body.event;
    var userId := parsed.body.userId;
    if !Truthy(userId) {
      return Accepted;
    }
    if event == Some("charge.success") {
      if !updateFails {
        db.profiles := UpdateWhereId(db.profiles, userId.value, ActivatePatch(now));
      }
    } else if event == Some("charge.failed") {
      if !updateFails {
        db.profiles := UpdateWhereId(db.profiles, userId.value, DeactivatePatch);
      }
    }
    return Accepted;
  }

  /** Only the profiles ever change, and only on a 200. */
  lemma WebhookTouchesOnlyProfiles(t: Tables, s: Secrets, parse: string -> ParseResult, req: WebhookRequest,
                                   now: int, updateFails: bool)
    ensures var (reply, t2) := Webhook(t, s, parse, req, now, updateFails);
      && t2.commissions == t.commissions && t2.links == t.links && t2.notifications == t.notifications
      && (reply != Accepted ==> t2 == t)
      && reply in {Accepted, Unauthorized, ServerError}
  {
  }

  /** Fail closed: a sandbox key and a signature other than the hex HMAC of
      the raw text give 401 with no change, whatever the body would parse
      to; the body is only parsed after the signature has been accepted. */
  lemma BadSignatureIsRejected(t: Tables, s: Secrets, parse: string -> ParseResult, req: WebhookRequest,
                               now: int, updateFails: bool)
    requires StartsWith(s.secretKey, SandboxPrefix)
    requires !Truthy(req.signature) || req.signature.value != ExpectedSignature(s.secretKey, s.hmac, req.rawBody)
    ensures Webhook(t, s, parse, req, now, updateFails) == (Unauthorized, t)
  {
    SignatureAcceptedIff(s.secretKey, s.hmac, req.rawBody, req.signature);
  }

  /** With a valid signature: a body that does not parse gives 500, and one
      without `metadata.user_id` gives 200; neither changes anything. */
  lemma UnattributedEventsChangeNothing(t: Tables, s: Secrets, parse: string -> ParseResult, req: WebhookRequest,
                                        now: int, updateFails: bool)
    requires StartsWith(s.secretKey, SandboxPrefix)
    requires Truthy(req.signature) && req.signature.value == ExpectedSignature(s.secretKey, s.hmac, req.rawBody)
    ensures parse(req.rawBody).Malformed? ==> Webhook(t, s, parse, req, now, updateFails) == (ServerError, t)
    ensures parse(req.rawBody).Parsed? && !Truthy(parse(req.rawBody).body.userId) ==>
              Webhook(t, s, parse, req, now, updateFails) == (Accepted, t)
  {
    SignatureAcceptedIff(s.secretKey, s.hmac, req.rawBody, req.signature);
  }

  /** With a valid signature and an attributed event, the reply is 200
      whatever the event and whether or not the update fails: an update
      error is not inspected, and then nothing is written. */
  lemma AttributedEventIsAccepted(t: Tables, s: Secrets, parse: string -> ParseResult, req: WebhookRequest,
                                  now: int, updateFails: bool)
    requires StartsWith(s.secretKey, SandboxPrefix)
    requires Truthy(req.signature) && req.signature.value == ExpectedSignature(s.secretKey, s.hmac, req.rawBody)
    requires parse(req.rawBody).Parsed? && Truthy(parse(req.rawBody).body.userId)
    ensures var b := parse(req.rawBody).body;
      Webhook(t, s, parse, req, now, updateFails)
        == (Accepted, if updateFails then t else t.(profiles := ApplyEvent(t.profiles, b.event, b.userId.value, now)))
  {
    SignatureAcceptedIff(s.secretKey, s.hmac, req.rawBody, req.signature);
  }

  /** What each event does to a valid profiles table: `charge.success` sets
      exactly `subscription_active` and `subscription_expires_at` on the rows
      whose `id` is the user id; `charge.failed` sets only
      `subscription_active`; any other event changes nothing. Every other
      row is unchanged and the table stays valid. */
  lemma ApplyEventFacts(profiles: map<string, Profile>, event: Option<string>, userId: string, now: int)
    requires ProfilesValid(profiles)
    ensures var r := ApplyEvent(profiles, event, userId, now);
      && ProfilesValid(r) && r.Keys == profiles.Keys
      && (forall k :: k in profiles && profiles[k].id != userId ==> r[k] == profiles[k])
      && (forall k :: k in profiles && profiles[k].id == userId && event == Some("charge.success") ==>
            r[k] == profiles[k].(subscriptionActive := true, subscriptionExpiresAt := Some(now + ThirtyDaysMs)))
      && (forall k :: k in profiles && profiles[k].id == userId && event == Some("charge.failed") ==>
            r[k] == profiles[k].(subscriptionActive := false))
      && (event != Some("charge.success") && event != Some("charge.failed") ==> r == profiles)
  {
    if event == Some("charge.success") {
      UpdateWhereIdFacts(profiles, userId, ActivatePatch(now));
    } else if event == Some("charge.failed") {
      UpdateWhereIdFacts(profiles, userId, DeactivatePatch);
    }
  }

  /** Replay: delivering the same signed event again at the same clock
      gives the same reply and leaves the tables as one delivery did. */
  lemma WebhookReplayIsIdempotent(t: Tables, s: Secrets, parse: string -> ParseResult, req: WebhookRequest,
                                  now: int, updateFails: bool)
    ensures var (reply1, t1) := Webhook(t, s, parse, req, now, updateFails);
      Webhook(t1, s, parse, req, now, updateFails) == (reply1, t1)
  {
    var (reply1, t1) := Webhook(t, s, parse, req, now, updateFails);
    match parse(req.rawBody)
    case Malformed =>
    case Parsed(body) =>
      if Truthy(body.userId) && !updateFails {
        var uid := body.userId.value;
        if body.event == Some("charge.success") {
          UpdateWhereIdIdempotent(t.profiles, uid, ActivatePatch(now));
        } else if body.event == Some("charge.failed") {
          UpdateWhereIdIdempotent(t.profiles, uid, DeactivatePatch);
        }
      }
  }

  /** The route matches `metadata.user_id` against the `id` column: when no
      row has that `id` (for instance when the row is only known under its
      `user_id`), a `charge.success` changes nothing at all. */
  lemma UnmatchedIdChangesNothing(profiles: map<string, Profile>, event: Option<string>, userId: string, now: int)
    requires forall k :: k in profiles ==> profiles[k].id != userId
    ensures ApplyEvent(profiles, event, userId, now) == profiles
  {
  }

  /** Out-of-order delivery is last-write-wins on `subscription_active`:
      a failure after a success leaves the row inactive, a success after a
      failure leaves it active with a fresh expiry. */
  lemma LastEventWins(profiles: map<string, Profile>, userId: string, now1: int, now2: int, k: string)
    requires k in profiles && profiles[k].id == userId
    ensures ApplyEvent(ApplyEvent(profiles, Some("charge.success"), userId, now1), Some("charge.failed"), userId, now2)[k]
            == profiles[k].(subscriptionActive := false, subscriptionExpiresAt := Some(now1 + ThirtyDaysMs))
    ensures ApplyEvent(ApplyEvent(profiles, Some("charge.failed"), userId, now1), Some("charge.success"), userId, now2)[k]
            == profiles[k].(subscriptionActive := true, subscriptionExpiresAt := Some(now2 + ThirtyDaysMs))
  {
  }
}
