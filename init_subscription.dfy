/** app/api/init-subscription/route.ts: validate a checkout request in a
    fixed order (fields, user, Early Access cap, price) and start a Paystack
    transaction whose callback is the verification route. The route only
    reads the store. */
module InitSubscription {
  import opened Common
  import opened Text
  import opened Store
  import opened Paystack
  import VerifySubscription

  const EarlyAccess: string := "Early Access"
  const Standard: string := "Standard"
  const EarlyAccessLimit: nat := 10
  const EarlyAccessPrice: int := 49900
  const StandardPrice: int := 99900
  const CallbackPath: string := "/api/verify-subscription"

  const MissingFields: Reply := Json(400, "{error:'Missing planName or userId'}")
  const DbError: Reply := Json(500, "{error:'DB error'}")
  const UserNotFound: Reply := Json(404, "{error:'User not found'}")
  const EarlyAccessFull: Reply := Json(409, "{error:'Early Access full'}")
  const UnknownPlan: Reply := Json(400, "{error:'Unknown plan'}")
  const ServerError: Reply := Json(500, "{error:'Server error'}")

  function AuthorizationReply(authorizationUrl: string): Reply {
    Json(200, "{authorization_url:" + authorizationUrl + "}")
  }

  /** The names a plain object literal inherits from `Object.prototype`;
      indexing `PRICE_MAP` with one of them yields a truthy non-number. */
  const InheritedNames: set<string> := {"constructor", "hasOwnProperty", "isPrototypeOf", "propertyIsEnumerable",
    "toLocaleString", "toString", "valueOf", "__defineGetter__", "__defineSetter__", "__lookupGetter__",
    "__lookupSetter__", "__proto__"}

  /** `PRICE_MAP[planName]`. */
  datatype PriceLookup = Amount(value: int) | Inherited | Missing

  function PriceOf(planName: string): (r: PriceLookup)
    ensures r.Amount? <==> planName == EarlyAccess || planName == Standard
    ensures r.Missing? <==> planName != EarlyAccess && planName != Standard && planName !in InheritedNames
  {
    if planName == EarlyAccess then Amount(EarlyAccessPrice)
    else if planName == Standard then Amount(StandardPrice)
    else if planName in InheritedNames then Inherited
    else Missing
  }

  /** The amount sent to Paystack: an inherited member is not a number and
      is taken as dropped from the JSON body, as `JSON.stringify` does for
      a function-valued member (`__proto__`, an object, is not told apart). */
  function AmountSent(p: PriceLookup): Option<int> {
    if p.Amount? then Some(p.value) else None
  }

  /** The request: the body fields (`Unparsable` when `request.json()` or
      the destructuring throws), the `origin` header and
      `NEXT_PUBLIC_APP_URL`. */
  datatype InitBody = Unparsable | Body(planName: Option<string>, userId: Option<string>)
  datatype InitRequestIn = InitRequestIn(body: InitBody, originHeader: Option<string>, appUrl: Option<string>)

  /** The store's faults for the two queries. */
  datatype InitEnv = InitEnv(lookupFails: bool, countFails: bool)

  /** The keys of the rows whose `id` is `id`. */
  function RowsWithId(profiles: map<string, Profile>, id: string): set<string> {
    set k | k in profiles && profiles[k].id == id
  }

  /** `select('id, email').eq('id', userId).maybeSingle()`: an error, more
      than one row, no row, or the row. */
  datatype ProfileLookup = LookupError | NoProfile | Found(profile: Profile)

  ghost function ProfileById(profiles: map<string, Profile>, id: string, fails: bool): (r: ProfileLookup)
    ensures r.Found? ==> r.profile in profiles.Values && r.profile.id == id
    ensures r.NoProfile? <==> !fails && forall k :: k in profiles ==> profiles[k].id != id
  {
    var rows := RowsWithId(profiles, id);
    assert rows == {} <==> forall k :: k in profiles ==> profiles[k].id != id by {
      if rows != {} {
        var k :| k in rows;
        assert k in profiles && profiles[k].id == id;
      } else {
        forall k | k in profiles
          ensures profiles[k].id != id
        {
          assert k !in rows;
        }
      }
    }
    if fails || |rows| > 1 then LookupError
    else if |rows| == 0 then NoProfile
    else
      var k :| k in rows;
      Found(profiles[k])
  }

  /** The active Early Access subscribers the cap counts. */
  function EarlyAccessCount(profiles: map<string, Profile>): nat {
    |set k | k in profiles && profiles[k].plan == Some(EarlyAccess) && profiles[k].subscriptionActive|
  }

  function Origin(req: InitRequestIn): string {
    OrElse(req.originHeader, OrElse(req.appUrl, VerifySubscription.DefaultOrigin))
  }

  /** The outcome: the reply and the Paystack request sent, if any. */
  datatype InitOutcome = InitOutcome(reply: Reply, request: Option<InitRequest>)

  /** `POST /api/init-subscription` as a function of the store. */
  ghost function InitSubscription(t: Tables, secretKey: string, req: InitRequestIn, env: InitEnv, reply: InitReply)
    : InitOutcome
  {
    match req.body
    case Unparsable => InitOutcome(ServerError, None)
    case Body(planName, userId) =>
      if !Truthy(planName) || !Truthy(userId) then InitOutcome(MissingFields, None)
      else
        match ProfileById(t.profiles, userId.value, env.lookupFails)
        case LookupError => InitOutcome(DbError, None)
        case NoProfile => InitOutcome(UserNotFound, None)
        case Found(profile) =>
          if planName.value == EarlyAccess && env.countFails then InitOutcome(DbError, None)
          else if planName.value == EarlyAccess && EarlyAccessCount(t.profiles) >= EarlyAccessLimit then
            InitOutcome(EarlyAccessFull, None)
          else
            var price := PriceOf(planName.value);
            if price.Missing? then InitOutcome(UnknownPlan, None)
            else
              var (request, init) := InitializeTransaction(secretKey, profile.email, AmountSent(price),
                                                           Origin(req) + CallbackPath,
                                                           Metadata(userId.value, planName.value), reply, "KES");
              match init
              case Threw(_) => InitOutcome(ServerError, request)
              case Returned(data) => InitOutcome(AuthorizationReply(data.authorizationUrl), request)
  }

  /** The price table: 49900 for Early Access, 99900 for Standard; any
      other plan is refused unless it names an inherited member. */
  lemma PriceTable(planName: string)
    ensures PriceOf(EarlyAccess) == Amount(49900) && PriceOf(Standard) == Amount(99900)
    ensures planName !in InheritedNames && planName != EarlyAccess && planName != Standard ==> PriceOf(planName) == Missing
    ensures PriceOf("constructor") == Inherited
  {
  }

  /** The checks run in order and each one answers before anything later is
      consulted: fields (400), then the user by `id` (500 on error, 404 when
      absent), then the Early Access cap (500 on error, 409 at ten), then
      the price (400). None of these sends a Paystack request. */
  lemma ValidationOrder(t: Tables, secretKey: string, req: InitRequestIn, env: InitEnv, reply: InitReply)
    requires req.body.Body?
    ensures var o := InitSubscription(t, secretKey, req, env, reply);
      var b := req.body;
      var found := ProfileById(t.profiles, b.userId.GetOr(""), env.lookupFails);
      && (!Truthy(b.planName) || !Truthy(b.userId) ==> o == InitOutcome(MissingFields, None))
      && (Truthy(b.planName) && Truthy(b.userId) ==>
            && (env.lookupFails ==> o == InitOutcome(DbError, None))
            && (found.NoProfile? ==> o == InitOutcome(UserNotFound, None))
            && (found.Found? && b.planName.value == EarlyAccess ==>
                  && (env.countFails ==> o == InitOutcome(DbError, None))
                  && (!env.countFails && EarlyAccessCount(t.profiles) >= EarlyAccessLimit ==>
                        o == InitOutcome(EarlyAccessFull, None)))
            && (found.Found? && PriceOf(b.planName.value).Missing? ==> o == InitOutcome(UnknownPlan, None)))
  {
  }

  /** A request is sent only past every check, and then it is the
      initialization of the plan's price in KES for the profile's email,
      with metadata `{ user_id, plan }` and the verification route as
      callback. A 200 carries the provider's `authorization_url`. */
  lemma SentRequestShape(t: Tables, secretKey: string, req: InitRequestIn, env: InitEnv, reply: InitReply)
    ensures var o := InitSubscription(t, secretKey, req, env, reply);
      o.request.Some? ==>
        && req.body.Body? && Truthy(req.body.planName) && Truthy(req.body.userId)
        && var planName := req.body.planName.value;
           var found := ProfileById(t.profiles, req.body.userId.value, env.lookupFails);
           && found.Found?
           && !PriceOf(planName).Missing?
           && (planName == EarlyAccess ==> EarlyAccessCount(t.profiles) < EarlyAccessLimit)
           && StartsWith(secretKey, SandboxPrefix)
           && o.request.value.url == PaystackBase + "/transaction/initialize"
           && o.request.value.body == Paystack.InitBody(found.profile.email, AmountSent(PriceOf(planName)),
                                                        Origin(req) + CallbackPath,
                                                        Metadata(req.body.userId.value, planName), Some("KES"))
    ensures var o := InitSubscription(t, secretKey, req, env, reply);
      o.reply.Status() == 200 ==> o.request.Some? && reply.InitAnswered? && reply.ok
                                  && o.reply == AuthorizationReply(reply.data.authorizationUrl)
  {
  }

  /** The cap is a hard stop: with ten or more active Early Access rows an
      Early Access checkout never reaches Paystack. A Standard checkout
      never consults the count: its outcome is the same whether the count
      query would fail or not. */
  lemma EarlyAccessCapIsHardStop(t: Tables, secretKey: string, req: InitRequestIn, env: InitEnv, reply: InitReply)
    requires req.body.Body? && req.body.planName == Some(EarlyAccess)
    requires EarlyAccessCount(t.profiles) >= EarlyAccessLimit
    ensures InitSubscription(t, secretKey, req, env, reply).request.None?
    ensures var standard := req.(body := req.body.(planName := Some(Standard)));
      InitSubscription(t, secretKey, standard, env, reply)
        == InitSubscription(t, secretKey, standard, env.(countFails := !env.countFails), reply)
  {
  }

  /** Checkout and verification fit together: when the provider echoes the
      metadata this route sent and reports success, the verification route
      activates exactly the row this route found by `id`, with the plan
      that was bought. */
  lemma InitThenVerifyActivatesFoundRow(t: Tables, secretKey: string, req: InitRequestIn, env: InitEnv,
                                        reply: InitReply, vreq: VerifySubscription.VerifyRequestIn,
                                        json: string, now: int)
    requires ProfilesValid(t.profiles) && Truthy(vreq.reference)
    ensures var o := InitSubscription(t, secretKey, req, env, reply);
      o.request.Some? ==>
        var m := o.request.value.body.metadata;
        var found := ProfileById(t.profiles, m.userId, env.lookupFails);
        var v := VerifySubscription.Verify(t, secretKey, vreq, TxAnswered(true, json, TxData(Some("success"), Some(m.userId), Some(m.plan))), now, false);
        && found.Found?
        && v.reply.Redirect?
        && v.tables.profiles[found.profile.userId]
             == found.profile.(subscriptionActive := true,
                               subscriptionExpiresAt := Some(now + VerifySubscription.PaystackWebhook.ThirtyDaysMs),
                               plan := Some(m.plan))
  {
    var o := InitSubscription(t, secretKey, req, env, reply);
    if o.request.Some? {
      var m := o.request.value.body.metadata;
      var data := TxData(Some("success"), Some(m.userId), Some(m.plan));
      VerifySubscription.ActivationFacts(t, secretKey, vreq, data, json, now);
    }
  }
}
