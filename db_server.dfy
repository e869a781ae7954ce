/** lib/db.server.ts: profile creation (an upsert on `user_id` that never
    replaces a referrer it can see) and the default tracking link with its
    bounded search for a free slug. */
module DbServer {
  import opened Common
  import opened Text
  import opened Store

  const MaxSlugAttempts: nat := 10
  const DefaultLinkLabel: string := "My First Lead Tracker"
  const DefaultLinkDescription: string := "Set your target URL and start capturing leads"

  // ---------------------------------------------------------------------
  // createProfile

  /** The store's side of one `createProfile` call: whether the existence
      query and the upsert fail, the `id` a newly inserted row receives, and
      the clock. */
  datatype ProfileEnv = ProfileEnv(lookupFails: bool, upsertFails: bool, newRowId: string, now: int)

  /** The columns `createProfile` sends: `referrerId` is `None` when the
      object carries no `referrer_id`. */
  datatype ProfileData = ProfileData(userId: string, email: string, fullName: string,
                                     referrerId: Option<string>, updatedAt: int)

  /** `select('user_id, referrer_id').eq('user_id', userId).maybeSingle()`;
      an error leaves `data` null, which reads as "no profile". */
  function ExistingProfile(profiles: map<string, Profile>, userId: string, lookupFails: bool): Option<Profile> {
    if lookupFails || userId !in profiles then None else Some(profiles[userId])
  }

  /** The object that is upserted. `referrer_id` is included only when a
      referrer is given and the profile seen has none. */
  function BuildProfileData(existing: Option<Profile>, userId: string, email: string, fullName: Option<string>,
                            referrerId: Option<string>, now: int): ProfileData
  {
    var includeReferrer := Truthy(referrerId) && (existing.None? || !Truthy(existing.value.referrerId));
    ProfileData(userId, email, OrElse(fullName, BeforeFirst(email, '@')),
                if includeReferrer then referrerId else None, now)
  }

  /** `upsert(data, { onConflict: 'user_id' }).select().single()`: an
      existing row takes the columns sent and keeps the others; a new row
      gets `newRowId` and the table's defaults, and fails when that `id` is
      already in use. */
  function UpsertProfile(profiles: map<string, Profile>, d: ProfileData, newRowId: string)
    : Option<map<string, Profile>>
  {
    if d.userId in profiles then
      var p := profiles[d.userId];
      Some(profiles[d.userId := p.(email := d.email, fullName := d.fullName,
                                   referrerId := if d.referrerId.Some? then d.referrerId else p.referrerId,
                                   updatedAt := d.updatedAt)])
    else if exists k :: k in profiles && profiles[k].id == newRowId then None
    else
      Some(profiles[d.userId := Profile(newRowId, d.userId, d.email, d.fullName, d.referrerId, None, false, None,
                                        false, None, d.updatedAt)])
  }

  /** `createProfile(userId, email, fullName, referrerId)` as a function of
      the tables: the row it returns (`None` for null) and the new tables. */
  function CreateProfileSpec(t: Tables, userId: string, email: string, fullName: Option<string>,
                             referrerId: Option<string>, env: ProfileEnv): (Option<Profile>, Tables)
  {
    var d := BuildProfileData(ExistingProfile(t.profiles, userId, env.lookupFails), userId, email, fullName,
                              referrerId, env.now);
    if env.upsertFails then (None, t)
    else
      match UpsertProfile(t.profiles, d, env.newRowId)
      case None => (None, t)
      case Some(m) => (Some(m[userId]), t.(profiles := m))
  }

  method CreateProfile(db: Database, userId: string, email: string, fullName: Option<string>,
                       referrerId: Option<string>, env: ProfileEnv)
    returns (profile: Option<Profile>)
    modifies db
    ensures (profile, db.Snapshot()) == CreateProfileSpec(old(db.Snapshot()), userId, email, fullName, referrerId, env)
  {
    var existingProfile := ExistingProfile(db.profiles, userId, env.lookupFails);
    var profileData := BuildProfileData(existingProfile, userId, email, fullName, referrerId, env.now);
    if env.upsertFails {
      return None;
    }
    var written := UpsertProfile(db.profiles, profileData, env.newRowId);
    if written.None? {
      return None;
    }
    db.profiles := written.value;
    return Some(db.profiles[userId]);
  }

  /** One profile per user, and the table stays valid: the returned row is
      the one stored under the user, with the given email and the full name
      or, without one, the part of the email before '@'; every other user's
      row is unchanged. An upsert error returns null and changes nothing. */
  lemma CreateProfileFacts(t: Tables, userId: string, email: string, fullName: Option<string>,
                           referrerId: Option<string>, env: ProfileEnv)
    requires ProfilesValid(t.profiles)
    ensures var (r, t2) := CreateProfileSpec(t, userId, email, fullName, referrerId, env);
      && ProfilesValid(t2.profiles)
      && t2.commissions == t.commissions && t2.links == t.links && t2.notifications == t.notifications
      && (env.upsertFails ==> r.None?)
      && (r.None? ==> t2 == t)
      && (r.Some? ==> && t2.profiles.Keys == t.profiles.Keys + {userId}
                      && r.value == t2.profiles[userId] && r.value.userId == userId && r.value.email == email
                      && r.value.fullName == (if Truthy(fullName) then fullName.value else BeforeFirst(email, '@'))
                      && (forall k :: k in t.profiles && k != userId ==> t2.profiles[k] == t.profiles[k]))
  {
    var d := BuildProfileData(ExistingProfile(t.profiles, userId, env.lookupFails), userId, email, fullName,
                              referrerId, env.now);
    assert d.userId == userId && d.email == email;
    UpsertProfileFacts(t.profiles, d, env.newRowId);
  }

  /** The upsert keeps the table valid and touches only the row of
      `d.userId`, which then carries the email and full name sent. */
  lemma UpsertProfileFacts(profiles: map<string, Profile>, d: ProfileData, newRowId: string)
    requires ProfilesValid(profiles)
    ensures var m := UpsertProfile(profiles, d, newRowId);
      m.Some? ==>
        && ProfilesValid(m.value)
        && m.value.Keys == profiles.Keys + {d.userId}
        && m.value[d.userId].userId == d.userId && m.value[d.userId].email == d.email
        && m.value[d.userId].fullName == d.fullName
        && (forall k :: k in profiles && k != d.userId ==> m.value[k] == profiles[k])
  {
    var m := UpsertProfile(profiles, d, newRowId);
    if m.Some? && d.userId !in profiles {
      assert forall k :: k in profiles ==> profiles[k].id != newRowId;
    }
  }

  /** Write-once referrer: when the existence query succeeds and the stored
      row already has a referrer, `createProfile` keeps it whatever referrer
      it is given; otherwise a given referrer is stored. */
  lemma ReferrerIsWriteOnce(t: Tables, userId: string, email: string, fullName: Option<string>,
                            referrerId: Option<string>, env: ProfileEnv)
    ensures var (r, t2) := CreateProfileSpec(t, userId, email, fullName, referrerId, env);
      && (!env.lookupFails && userId in t.profiles && Truthy(t.profiles[userId].referrerId) ==>
            t2.profiles[userId].referrerId == t.profiles[userId].referrerId)
      && (r.Some? && Truthy(referrerId) && (userId !in t.profiles || !Truthy(t.profiles[userId].referrerId)) ==>
            r.value.referrerId == referrerId)
      && (r.Some? && !Truthy(referrerId) && userId in t.profiles ==>
            r.value.referrerId == t.profiles[userId].referrerId)
  {
  }

  /** The write-once rule depends on the existence query: when it fails,
      the stored row reads as absent and a given referrer replaces the
      stored one. */
  lemma LookupFaultOverwritesReferrer(t: Tables, userId: string, email: string, fullName: Option<string>,
                                      referrerId: Option<string>, env: ProfileEnv)
    requires env.lookupFails && !env.upsertFails && userId in t.profiles && Truthy(referrerId)
    ensures CreateProfileSpec(t, userId, email, fullName, referrerId, env).1.profiles[userId].referrerId == referrerId
  {
  }

  // ---------------------------------------------------------------------
  // createDefaultTrackingLink

  /** The slug search: attempt k draws `slugs(k)` and accepts it when the
      slug query fails (its `data` is null) or finds no row. The result is
      the accepted slug, if any, and the number of queries made. */
  function SlugSearch(links: seq<TrackingLink>, slugs: nat -> string, lookupFails: nat -> bool, attempts: nat)
    : (Option<string>, nat)
    requires attempts <= MaxSlugAttempts
    decreases MaxSlugAttempts - attempts
  {
    if attempts == MaxSlugAttempts then (None, attempts)
    else if lookupFails(attempts) || !SlugTaken(links, slugs(attempts)) then (Some(slugs(attempts)), attempts + 1)
    else SlugSearch(links, slugs, lookupFails, attempts + 1)
  }

  /** What the search promises: at most ten queries; every attempt before
      the last met an existing slug; an accepted slug is the last one drawn
      and, unless its query failed, no link had it. No slug is accepted only
      when all ten attempts collided. */
  lemma {:induction false} SlugSearchFacts(links: seq<TrackingLink>, slugs: nat -> string, lookupFails: nat -> bool,
                                           attempts: nat)
    requires attempts <= MaxSlugAttempts
    decreases MaxSlugAttempts - attempts
    ensures var (found, tried) := SlugSearch(links, slugs, lookupFails, attempts);
      && attempts <= tried <= MaxSlugAttempts
      && (found.Some? ==> && attempts < tried
                          && (forall k :: attempts <= k < tried - 1 ==> !lookupFails(k) && SlugTaken(links, slugs(k)))
                          && found.value == slugs(tried - 1)
                          && (lookupFails(tried - 1) || !SlugTaken(links, found.value)))
      && (found.None? ==> && tried == MaxSlugAttempts
                          && forall k :: attempts <= k < MaxSlugAttempts ==> !lookupFails(k) && SlugTaken(links, slugs(k)))
  {
    if attempts < MaxSlugAttempts && !(lookupFails(attempts) || !SlugTaken(links, slugs(attempts))) {
      SlugSearchFacts(links, slugs, lookupFails, attempts + 1);
      assert SlugSearch(links, slugs, lookupFails, attempts) == SlugSearch(links, slugs, lookupFails, attempts + 1);
    }
  }

  /** The store's side of one `createDefaultTrackingLink` call. */
  datatype LinkEnv = LinkEnv(slugs: nat -> string, slugLookupFails: nat -> bool, insertFails: bool, now: int)

  function DefaultLink(userId: string, slug: string, now: int): TrackingLink {
    TrackingLink(userId, slug, DefaultLinkLabel, DefaultLinkDescription, None, true, true, now, now)
  }

  /** `createDefaultTrackingLink(userId)` as a function of the tables. */
  function CreateLinkSpec(t: Tables, userId: string, env: LinkEnv): (Option<TrackingLink>, Tables) {
    var slug := SlugSearch(t.links, env.slugs, env.slugLookupFails, 0).0.GetOr("");
    if slug == "" || env.insertFails then (None, t)
    else (Some(DefaultLink(userId, slug, env.now)), t.(links := t.links + [DefaultLink(userId, slug, env.now)]))
  }

  method CreateDefaultTrackingLink(db: Database, userId: string, env: LinkEnv)
    returns (link: Option<TrackingLink>, queries: nat)
    modifies db
    ensures (link, db.Snapshot()) == CreateLinkSpec(old(db.Snapshot()), userId, env)
    ensures queries == SlugSearch(old(db.links), env.slugs, env.slugLookupFails, 0).1
  {
    var slug := "";
    var attempts := 0;
    while attempts < MaxSlugAttempts
      invariant attempts <= MaxSlugAttempts
      invariant SlugSearch(db.links, env.slugs, env.slugLookupFails, attempts)
             == SlugSearch(db.links, env.slugs, env.slugLookupFails, 0)
      decreases MaxSlugAttempts - attempts
    {
      var randomSlug := env.slugs(attempts);
      var exists_ := !env.slugLookupFails(attempts) && SlugTaken(db.links, randomSlug);
      if !exists_ {
        slug := randomSlug;
        queries := attempts + 1;
        assert SlugSearch(db.links, env.slugs, env.slugLookupFails, 0) == (Some(slug), queries);
        break;
      }
      attempts := attempts + 1;
    }
    if attempts == MaxSlugAttempts {
      queries := attempts;
      assert SlugSearch(db.links, env.slugs, env.slugLookupFails, 0) == (None, queries);
    }
    if slug == "" || env.insertFails {
      return None, queries;
    }
    var created := DefaultLink(userId, slug, env.now);
    db.links := db.links + [created];
    return Some(created), queries;
  }

  /** The link call either adds exactly one default link for the user, with
      no target URL, at the end of the table, or adds nothing and returns
      null; a link it adds has a slug no link had, unless the slug query
      failed. */
  lemma CreateLinkFacts(t: Tables, userId: string, env: LinkEnv)
    ensures var (r, t2) := CreateLinkSpec(t, userId, env);
      && t2.profiles == t.profiles && t2.commissions == t.commissions && t2.notifications == t.notifications
      && (r.None? ==> t2 == t)
      && (r.Some? ==> && t2.links == t.links + [r.value]
                      && r.value.ownerUserId == userId && r.value.isDefault && r.value.isActive
                      && r.value.targetUrl.None? && r.value.slug != ""
                      && var tried := SlugSearch(t.links, env.slugs, env.slugLookupFails, 0).1;
                         (env.slugLookupFails(tried - 1) || !SlugTaken(t.links, r.value.slug)))
  {
    SlugSearchFacts(t.links, env.slugs, env.slugLookupFails, 0);
  }

  /** Ten collisions in a row: null, and nothing is inserted. */
  lemma AllSlugsTakenInsertsNothing(t: Tables, userId: string, env: LinkEnv)
    requires forall k :: 0 <= k < MaxSlugAttempts ==> !env.slugLookupFails(k) && SlugTaken(t.links, env.slugs(k))
    ensures CreateLinkSpec(t, userId, env) == (None, t)
  {
    SlugSearchFacts(t.links, env.slugs, env.slugLookupFails, 0);
  }
}
