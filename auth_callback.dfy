/** app/api/auth/callback/route.ts: after sign-in, create (or refresh) the
    user's profile, then a default tracking link, and map each failure to
    its reply. */
module AuthCallback {
  import opened Common
  import opened Store
  import opened DbServer

  /** The fields of the JSON body the route reads. `referrerId` stands for
      a `referrerId` the sender may include; the route never reads it. */
  datatype CallbackBody = CallbackBody(userId: Option<string>, email: Option<string>, fullName: Option<string>,
                                       referrerId: Option<string>)

  /** `await req.json()` and the destructuring: `Unparsable` when either
      throws (a syntax error, or a `null` body). */
  datatype CallbackParse = Unparsable | Body(body: CallbackBody)

  const MissingFields: Reply := Json(400, "{error:'Missing userId or email'}")
  const ProfileFailed: Reply := Json(500, "{error:'Failed to create profile'}")
  const LinkFailed: Reply := Json(500, "{error:'Failed to create tracking link'}")
  const InternalError: Reply := Json(500, "{error:'Internal error'}")
  const Created: Reply := Json(201, "{success:true, profile, link}")

  /** The outcome of one POST: the reply, the profile and link it carries,
      the number of slug queries made, and the tables it leaves. */
  datatype CallbackOutcome = CallbackOutcome(reply: Reply, profile: Option<Profile>, link: Option<TrackingLink>,
                                             slugQueries: nat, tables: Tables)

  /** The route as a function of the tables. */
  function Callback(t: Tables, parsed: CallbackParse, penv: ProfileEnv, lenv: LinkEnv): CallbackOutcome {
    match parsed
    case Unparsable => CallbackOutcome(InternalError, None, None, 0, t)
    case Body(b) =>
      if !Truthy(b.userId) || !Truthy(b.email) then CallbackOutcome(MissingFields, None, None, 0, t)
      else
        var (profile, t1) := CreateProfileSpec(t, b.userId.value, b.email.value, b.fullName, None, penv);
        if profile.None? then CallbackOutcome(ProfileFailed, None, None, 0, t1)
        else
          var (link, t2) := CreateLinkSpec(t1, b.userId.value, lenv);
          var queries := SlugSearch(t1.links, lenv.slugs, lenv.slugLookupFails, 0).1;
          if link.None? then CallbackOutcome(LinkFailed, None, None, queries, t2)
          else CallbackOutcome(Created, profile, link, queries, t2)
  }

  /** `POST /api/auth/callback`. */
  method Post(db: Database, parsed: CallbackParse, penv: ProfileEnv, lenv: LinkEnv)
    returns (reply: Reply, profile: Option<Profile>, link: Option<TrackingLink>, slugQueries: nat)
    modifies db
    ensures var o := Callback(old(db.Snapshot()), parsed, penv, lenv);
      reply == o.reply && profile == o.profile && link == o.link && slugQueries == o.slugQueries
      && db.Snapshot() == o.tables
  {
    profile, link, slugQueries := None, None, 0;
    if parsed.Unparsable? {
      return InternalError, profile, link, slugQueries;
    }
    var userId, email, fullName := parsed.body.userId, parsed.body.email, parsed.body.fullName;
    if !Truthy(userId) || !Truthy(email) {
      return MissingFields, profile, link, slugQueries;
    }
    var created := CreateProfile(db, userId.value, email.value, fullName, None, penv);
    if created.None? {
      return ProfileFailed, profile, link, slugQueries;
    }
    var newLink, queries := CreateDefaultTrackingLink(db, userId.value, lenv);
    slugQueries := queries;
    if newLink.None? {
      return LinkFailed, profile, link, slugQueries;
    }
    return Created, created, newLink, slugQueries;
  }

  /** A body that does not parse gives 500 and one without a truthy
      `userId` or `email` gives 400; neither touches the store or queries a
      slug. Every reply is one of 201, 400 and 500, and only the commission
      and notification tables are never touched. */
  lemma CallbackReplies(t: Tables, parsed: CallbackParse, penv: ProfileEnv, lenv: LinkEnv)
    ensures var o := Callback(t, parsed, penv, lenv);
      && (parsed.Unparsable? ==> o == CallbackOutcome(InternalError, None, None, 0, t))
      && (parsed.Body? && (!Truthy(parsed.body.userId) || !Truthy(parsed.body.email)) ==>
            o == CallbackOutcome(MissingFields, None, None, 0, t))
      && o.reply in {Created, MissingFields, ProfileFailed, LinkFailed, InternalError}
      && o.tables.commissions == t.commissions && o.tables.notifications == t.notifications
      && (o.reply == Created <==> o.profile.Some? && o.link.Some?)
  {
  }

  /** The route passes no referrer to `createProfile`, whatever the body
      carries: every referrer already stored is kept, and a profile the
      route creates has none. */
  lemma CallbackNeverSetsReferrer(t: Tables, parsed: CallbackParse, penv: ProfileEnv, lenv: LinkEnv)
    ensures var t2 := Callback(t, parsed, penv, lenv).tables;
      forall k :: k in t2.profiles ==>
        t2.profiles[k].referrerId == (if k in t.profiles then t.profiles[k].referrerId else None)
  {
  }

  /** Profile first, then link: a profile failure gives 500 with the store
      untouched and no slug query made; a link failure gives 500 but keeps
      the profile that was written, and adds no link. */
  lemma FailuresAreSequenced(t: Tables, b: CallbackBody, penv: ProfileEnv, lenv: LinkEnv)
    requires Truthy(b.userId) && Truthy(b.email)
    ensures var o := Callback(t, Body(b), penv, lenv);
      var (p, t1) := CreateProfileSpec(t, b.userId.value, b.email.value, b.fullName, None, penv);
      && (p.None? ==> o.reply == ProfileFailed && o.tables == t && o.slugQueries == 0)
      && (p.Some? ==> o.reply != ProfileFailed && o.slugQueries >= 1)
      && (o.reply == LinkFailed ==> o.tables == t1 && o.tables.links == t.links)
  {
    var (p, t1) := CreateProfileSpec(t, b.userId.value, b.email.value, b.fullName, None, penv);
    SlugSearchFacts(t1.links, lenv.slugs, lenv.slugLookupFails, 0);
    CreateLinkFacts(t1, b.userId.value, lenv);
  }

  /** On 201 the reply carries the stored profile and the one link the call
      appended: a default, active link owned by the user. */
  lemma SuccessAppendsOneLink(t: Tables, parsed: CallbackParse, penv: ProfileEnv, lenv: LinkEnv)
    requires ProfilesValid(t.profiles)
    ensures var o := Callback(t, parsed, penv, lenv);
      o.reply == Created ==>
        && parsed.Body? && ProfilesValid(o.tables.profiles)
        && o.profile.value == o.tables.profiles[parsed.body.userId.value]
        && o.tables.links == t.links + [o.link.value]
        && o.link.value.ownerUserId == parsed.body.userId.value
        && o.link.value.isDefault && o.link.value.isActive
  {
    var o := Callback(t, parsed, penv, lenv);
    if o.reply == Created {
      var b := parsed.body;
      var (p, t1) := CreateProfileSpec(t, b.userId.value, b.email.value, b.fullName, None, penv);
      CreateProfileFacts(t, b.userId.value, b.email.value, b.fullName, None, penv);
      CreateLinkFacts(t1, b.userId.value, lenv);
    }
  }

  /** No per-user dedupe: two successful sign-ins by the same user leave two
      more default links for that user. */
  lemma RepeatedSignInAddsTwoLinks(t: Tables, b: CallbackBody, penv1: ProfileEnv, lenv1: LinkEnv,
                                   penv2: ProfileEnv, lenv2: LinkEnv)
    ensures var o1 := Callback(t, Body(b), penv1, lenv1);
      var o2 := Callback(o1.tables, Body(b), penv2, lenv2);
      o1.reply == Created && o2.reply == Created ==>
        && |o2.tables.links| == |t.links| + 2
        && o2.tables.links[|t.links|].ownerUserId == b.userId.value && o2.tables.links[|t.links|].isDefault
        && o2.tables.links[|t.links| + 1].ownerUserId == b.userId.value && o2.tables.links[|t.links| + 1].isDefault
  {
    var o1 := Callback(t, Body(b), penv1, lenv1);
    var o2 := Callback(o1.tables, Body(b), penv2, lenv2);
    if o1.reply == Created && o2.reply == Created {
      var (p1, t1) := CreateProfileSpec(t, b.userId.value, b.email.value, b.fullName, None, penv1);
      CreateLinkFacts(t1, b.userId.value, lenv1);
      var (p2, t2) := CreateProfileSpec(o1.tables, b.userId.value, b.email.value, b.fullName, None, penv2);
      CreateLinkFacts(t2, b.userId.value, lenv2);
    }
  }
}
