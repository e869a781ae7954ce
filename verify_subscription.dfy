/** app/api/verify-subscription/route.ts: the browser's return from the
    checkout. The reference is looked up with the provider, checked, and the
    profile row whose `id` is `metadata.user_id` is activated. */
module VerifySubscription {
  import opened Common
  import opened Text
  import opened Store
  import opened Paystack
  import PaystackWebhook

  const DefaultPlan: string := "Standard"
  const DefaultOrigin: string := "http://localhost:3000"
  const SuccessPath: string := "/dashboard?subscription=success"

  const MissingReference: Reply := Json(400, "{error:'Missing reference'}")
  const PaymentNotSuccessful: Reply := Json(402, "{error:'Payment not successful'}")
  const MissingUserId: Reply := Json(400, "{error:'Missing metadata.user_id'}")
  const DbError: Reply := Json(500, "{error:'DB error'}")
  const ServerError: Reply := Json(500, "{error:'Server error'}")

  /** The request: the `reference` query parameter and the `origin` header;
      `appUrl` is `NEXT_PUBLIC_APP_URL`. */
  datatype VerifyRequestIn = VerifyRequestIn(reference: Option<string>, originHeader: Option<string>,
                                             appUrl: Option<string>)

  /** `{ subscription_active: true, subscription_expires_at: now + 30 days, plan }`. */
  function ActivateWithPlanPatch(now: int, plan: string): ProfilePatch {
    ProfilePatch(Some(true), Some(now + PaystackWebhook.ThirtyDaysMs), Some(plan), None, None, None)
  }

  /** `origin || NEXT_PUBLIC_APP_URL || 'http://localhost:3000'`. */
  function Origin(req: VerifyRequestIn): string {
    OrElse(req.originHeader, OrElse(req.appUrl, DefaultOrigin))
  }

  /** The outcome of one GET: the reply, the provider request it made (if
      any), and the tables it leaves. */
  datatype VerifyOutcome = VerifyOutcome(reply: Reply, lookup: Option<Paystack.VerifyRequest>, tables: Tables)

  /** The route as a function of the tables. `reply` is the provider's
      answer to the lookup; `updateFails` is the store's update error. */
  function Verify(t: Tables, secretKey: string, req: VerifyRequestIn, reply: TxReply, now: int, updateFails: bool)
    : VerifyOutcome
  {
    if !Truthy(req.reference) then VerifyOutcome(MissingReference, None, t)
    else
      var (lookup, outcome) := VerifyTransaction(secretKey, req.reference.value, reply);
      match outcome
      case Threw(_) => VerifyOutcome(ServerError, lookup, t)
      case Returned(data) =>
        if data.status != Some("success") then VerifyOutcome(PaymentNotSuccessful, lookup, t)
        else
          var plan := OrElse(data.plan, DefaultPlan);
          if !Truthy(data.userId) then VerifyOutcome(MissingUserId, lookup, t)
          else if updateFails then VerifyOutcome(DbError, lookup, t)
          else VerifyOutcome(Redirect(Origin(req) + SuccessPath), lookup,
                             t.(profiles := UpdateWhereId(t.profiles, data.userId.value, ActivateWithPlanPatch(now, plan))))
  }

  /** `GET /api/verify-subscription`. */
  method Get(db: Database, secretKey: string, req: VerifyRequestIn, reply: TxReply, now: int, updateFails: bool)
    returns (response: Reply, lookup: Option<Paystack.VerifyRequest>)
    modifies db
    ensures var o := Verify(old(db.Snapshot()), secretKey, req, reply, now, updateFails);
      response == o.reply && lookup == o.lookup && db.Snapshot() == o.tables
  {
    lookup := None;
    var reference := req.reference;
    if !Truthy(reference) {
      return MissingReference, lookup;
    }
    var call := VerifyTransaction(secretKey, reference.value, reply);
    lookup := call.0;
    var verified := call.1;
    if verified.Threw? {
      return ServerError, lookup;
    }
    var data := verified.value;
    if data.status != Some("success") {
      return PaymentNotSuccessful, lookup;
    }
    var plan := OrElse(data.plan, DefaultPlan);
    var userId := data.userId;
    if !Truthy(userId) {
      return MissingUserId, lookup;
    }
    if updateFails {
      return DbError, lookup;
    }
    db.profiles := UpdateWhereId(db.profiles, userId.value, ActivateWithPlanPatch(now, plan));
    return Redirect(Origin(req) + SuccessPath), lookup;
  }

  /** The reply decides the effect: the tables change only on the success
      redirect, which always goes to `<origin>/dashboard?subscription=success`;
      a missing reference is answered before any provider lookup. */
  lemma VerifyOutcomes(t: Tables, secretKey: string, req: VerifyRequestIn, reply: TxReply, now: int, updateFails: bool)
    ensures var o := Verify(t, secretKey, req, reply, now, updateFails);
      && (!Truthy(req.reference) ==> o == VerifyOutcome(MissingReference, None, t))
      && (!o.reply.Redirect? ==> o.tables == t)
      && (o.reply.Redirect? ==> o.reply.location == Origin(req) + SuccessPath && StartsWith(o.reply.location, Origin(req)))
      && o.tables.commissions == t.commissions && o.tables.links == t.links
      && o.reply.Status() in {307, 400, 402, 500}
  {
    var o := Verify(t, secretKey, req, reply, now, updateFails);
    if o.reply.Redirect? {
      assert (Origin(req) + SuccessPath)[..|Origin(req)|] == Origin(req);
    }
  }

  /** A provider status other than 'success' gives 402 and no change; a
      successful lookup without `metadata.user_id` gives 400 and no change. */
  lemma UnpaidOrUnattributedChangesNothing(t: Tables, secretKey: string, req: VerifyRequestIn, data: TxData,
                                           json: string, now: int, updateFails: bool)
    requires Truthy(req.reference) && StartsWith(secretKey, SandboxPrefix)
    ensures data.status != Some("success") ==>
      Verify(t, secretKey, req, TxAnswered(true, json, data), now, updateFails).reply == PaymentNotSuccessful
    ensures data.status == Some("success") && !Truthy(data.userId) ==>
      Verify(t, secretKey, req, TxAnswered(true, json, data), now, updateFails).reply == MissingUserId
    ensures !Verify(t, secretKey, req, TxAnswered(true, json, data), now, updateFails).reply.Redirect? ==>
      Verify(t, secretKey, req, TxAnswered(true, json, data), now, updateFails).tables == t
  {
  }

  /** A successful, attributed lookup whose update fails is answered 500
      with no redirect and no change. */
  lemma UpdateErrorIsServerError(t: Tables, secretKey: string, req: VerifyRequestIn, data: TxData,
                                 json: string, now: int)
    requires Truthy(req.reference) && StartsWith(secretKey, SandboxPrefix)
    requires data.status == Some("success") && Truthy(data.userId)
    ensures var o := Verify(t, secretKey, req, TxAnswered(true, json, data), now, true);
      o.reply == DbError && o.reply.Status() == 500 && o.tables == t
  {
  }

  /** On success the rows whose `id` is the user id get exactly
      `subscription_active = true`, the 30-day expiry and the plan from the
      metadata, 'Standard' when it has none; every other row is unchanged. */
  lemma ActivationFacts(t: Tables, secretKey: string, req: VerifyRequestIn, txData: TxData, json: string, now: int)
    requires ProfilesValid(t.profiles)
    requires Truthy(req.reference) && StartsWith(secretKey, SandboxPrefix)
    requires txData.status == Some("success") && Truthy(txData.userId)
    ensures var o := Verify(t, secretKey, req, TxAnswered(true, json, txData), now, false);
      var uid := txData.userId.value;
      && o.reply == Redirect(Origin(req) + SuccessPath)
      && ProfilesValid(o.tables.profiles) && o.tables.profiles.Keys == t.profiles.Keys
      && (forall k :: k in t.profiles && t.profiles[k].id != uid ==> o.tables.profiles[k] == t.profiles[k])
      && (forall k :: k in t.profiles && t.profiles[k].id == uid ==>
            o.tables.profiles[k] == t.profiles[k].(subscriptionActive := true,
                                                    subscriptionExpiresAt := Some(now + PaystackWebhook.ThirtyDaysMs),
                                                    plan := Some(if Truthy(txData.plan) then txData.plan.value else DefaultPlan)))
  {
    var plan := OrElse(txData.plan, DefaultPlan);
    UpdateWhereIdFacts(t.profiles, txData.userId.value, ActivateWithPlanPatch(now, plan));
  }

  /** The two activation paths agree: a `charge.success` webhook and a
      successful verification for the same user at the same clock leave
      the same profiles in either order. */
  lemma ActivationPathsCommute(profiles: map<string, Profile>, userId: string, now: int, plan: string)
    ensures var a := PaystackWebhook.ActivatePatch(now);
      var v := ActivateWithPlanPatch(now, plan);
      UpdateWhereId(UpdateWhereId(profiles, userId, a), userId, v)
        == UpdateWhereId(UpdateWhereId(profiles, userId, v), userId, a)
  {
    var a := PaystackWebhook.ActivatePatch(now);
    var v := ActivateWithPlanPatch(now, plan);
    var left := UpdateWhereId(UpdateWhereId(profiles, userId, a), userId, v);
    var right := UpdateWhereId(UpdateWhereId(profiles, userId, v), userId, a);
    forall k | k in profiles
      ensures left[k] == right[k]
    {
    }
  }
}
