/** The rows of the four tables the core reads and writes (`profiles`,
    `commission_notifications`, `tracking_links`, `notifications`), the
    store's own write semantics (keyed update, upsert on a conflict key,
    insert), and a `Database` object holding the tables.

    `profiles` is one map keyed by its `user_id` column (the conflict key of
    the profile upsert); each row also carries the `id` column, and the
    operations that filter on `id` say so by name (`UpdateWhereId`).
    `commission_notifications` is kept in insertion order, which stands in for
    the table's `created_at` order. */
module Store {
  import opened Common

  // ---------------------------------------------------------------------
  // profiles

  datatype Profile = Profile(
    id: string,
    userId: string,
    email: string,
    fullName: string,
    referrerId: Option<string>,
    plan: Option<string>,
    subscriptionActive: bool,
    subscriptionExpiresAt: Option<int>,
    commissionNotified: bool,
    commissionNotifiedAt: Option<int>,
    updatedAt: int)

  /** The object passed to `update({...})` on `profiles`: a column is `None`
      when the object does not mention it. */
  datatype ProfilePatch = ProfilePatch(
    subscriptionActive: Option<bool>,
    subscriptionExpiresAt: Option<int>,
    plan: Option<string>,
    commissionNotified: Option<bool>,
    commissionNotifiedAt: Option<int>,
    updatedAt: Option<int>)

  function ApplyPatch(p: Profile, u: ProfilePatch): Profile {
    p.(subscriptionActive := u.subscriptionActive.GetOr(p.subscriptionActive),
       subscriptionExpiresAt := if u.subscriptionExpiresAt.Some? then u.subscriptionExpiresAt else p.subscriptionExpiresAt,
       plan := if u.plan.Some? then u.plan else p.plan,
       commissionNotified := u.commissionNotified.GetOr(p.commissionNotified),
       commissionNotifiedAt := if u.commissionNotifiedAt.Some? then u.commissionNotifiedAt else p.commissionNotifiedAt,
       updatedAt := u.updatedAt.GetOr(p.updatedAt))
  }

  /** Each row sits under its own `user_id`, and `id` is unique (primary key). */
  predicate ProfilesValid(m: map<string, Profile>) {
    && (forall k :: k in m ==> m[k].userId == k)
    && (forall k1, k2 :: k1 in m && k2 in m && k1 != k2 ==> m[k1].id != m[k2].id)
  }

  /** `update(u).eq('id', id)`: every row whose `id` column is `id`. */
  function UpdateWhereId(m: map<string, Profile>, id: string, u: ProfilePatch): map<string, Profile> {
    map k | k in m :: if m[k].id == id then ApplyPatch(m[k], u) else m[k]
  }

  /** `update(u).eq('user_id', userId)`. */
  function UpdateWhereUserId(m: map<string, Profile>, userId: string, u: ProfilePatch): map<string, Profile> {
    if userId in m then m[userId := ApplyPatch(m[userId], u)] else m
  }

  /** Writing the same patch again changes nothing: a patch sets absolute values. */
  lemma ApplyPatchIdempotent(p: Profile, u: ProfilePatch)
    ensures ApplyPatch(ApplyPatch(p, u), u) == ApplyPatch(p, u)
  {
  }

  /** A keyed update preserves the table invariant and touches only the rows
      it selects, and only in the columns its patch names. */
  lemma UpdateWhereIdFacts(m: map<string, Profile>, id: string, u: ProfilePatch)
    requires ProfilesValid(m)
    ensures var r := UpdateWhereId(m, id, u);
      && ProfilesValid(r)
      && r.Keys == m.Keys
      && (forall k :: k in m && m[k].id != id ==> r[k] == m[k])
      && (forall k :: k in m && m[k].id == id ==> r[k] == ApplyPatch(m[k], u))
  {
  }

  /** Replaying an update by `id` yields the same table as applying it once. */
  lemma UpdateWhereIdIdempotent(m: map<string, Profile>, id: string, u: ProfilePatch)
    ensures UpdateWhereId(UpdateWhereId(m, id, u), id, u) == UpdateWhereId(m, id, u)
  {
    var once := UpdateWhereId(m, id, u);
    var twice := UpdateWhereId(once, id, u);
    forall k | k in m
      ensures twice[k] == once[k]
    {
      ApplyPatchIdempotent(m[k], u);
    }
  }

  lemma UpdateWhereUserIdFacts(m: map<string, Profile>, userId: string, u: ProfilePatch)
    requires ProfilesValid(m)
    ensures var r := UpdateWhereUserId(m, userId, u);
      && ProfilesValid(r)
      && r.Keys == m.Keys
      && (forall k :: k in m && k != userId ==> r[k] == m[k])
      && (userId in m ==> r[userId] == ApplyPatch(m[userId], u))
  {
  }

  // ---------------------------------------------------------------------
  // commission_notifications

  datatype CommissionStatus = Pending | Success | Failed

  datatype CommissionRow = CommissionRow(
    userId: string,
    referrerId: string,
    paymentReference: string,
    userEmail: string,
    amount: int,
    status: CommissionStatus,
    responseData: Option<string>,
    errorMessage: Option<string>,
    retryCount: nat,
    createdAt: int,
    updatedAt: int)

  /** The object `recordCommissionNotification` upserts. A field that the
      source leaves `undefined` is dropped by JSON serialisation, so it is
      `None` here and is not written. */
  datatype CommissionWrite = CommissionWrite(
    userId: string,
    referrerId: string,
    paymentReference: string,
    userEmail: string,
    amount: int,
    status: CommissionStatus,
    responseData: Option<string>,
    errorMessage: Option<string>,
    retryCount: nat)

  /** The conflict key `(user_id, payment_reference)`. */
  type NotificationKey = (string, string)

  function RowKey(r: CommissionRow): NotificationKey { (r.userId, r.paymentReference) }
  function WriteKey(w: CommissionWrite): NotificationKey { (w.userId, w.paymentReference) }

  /** The row stored under `key`, if any (the first, the only one when keys are unique). */
  function Lookup(rows: seq<CommissionRow>, key: NotificationKey): (r: Option<CommissionRow>)
    ensures r.Some? ==> r.value in rows && RowKey(r.value) == key
    ensures r.None? ==> forall i :: 0 <= i < |rows| ==> RowKey(rows[i]) != key
  {
    if rows == [] then None
    else if RowKey(rows[0]) == key then Some(rows[0])
    else Lookup(rows[1..], key)
  }

  /** At most one row per conflict key. */
  predicate UniqueKeys(rows: seq<CommissionRow>) {
    rows == [] || (Lookup(rows[1..], RowKey(rows[0])).None? && UniqueKeys(rows[1..]))
  }

  /** With unique keys, every stored row is what `Lookup` finds under its key. */
  lemma {:induction false} LookupFindsEveryRow(rows: seq<CommissionRow>, i: nat)
    requires UniqueKeys(rows) && i < |rows|
    ensures Lookup(rows, RowKey(rows[i])) == Some(rows[i])
  {
    if i > 0 {
      LookupFindsEveryRow(rows[1..], i - 1);
      assert rows[1..][i - 1] == rows[i];
    }
  }

  /** On conflict: the columns the write carries overwrite the stored ones;
      `created_at` and the omitted columns keep their stored values. */
  function Merge(stored: CommissionRow, w: CommissionWrite, now: int): CommissionRow {
    CommissionRow(w.userId, w.referrerId, w.paymentReference, w.userEmail, w.amount, w.status,
                  if w.responseData.Some? then w.responseData else stored.responseData,
                  if w.errorMessage.Some? then w.errorMessage else stored.errorMessage,
                  w.retryCount, stored.createdAt, now)
  }

  function Insert(w: CommissionWrite, now: int): CommissionRow {
    CommissionRow(w.userId, w.referrerId, w.paymentReference, w.userEmail, w.amount, w.status,
                  w.responseData, w.errorMessage, w.retryCount, now, now)
  }

  /** `upsert(w, { onConflict: 'user_id,payment_reference' })`. */
  function Upsert(rows: seq<CommissionRow>, w: CommissionWrite, now: int): seq<CommissionRow> {
    if rows == [] then [Insert(w, now)]
    else if RowKey(rows[0]) == WriteKey(w) then [Merge(rows[0], w, now)] + rows[1..]
    else [rows[0]] + Upsert(rows[1..], w, now)
  }

  /** What an upsert does to the table: the key's row is merged or appended,
      keys stay unique, every other key finds what it found before, and
      existing rows keep their position (so the creation order is kept). */
  lemma {:induction false} UpsertFacts(rows: seq<CommissionRow>, w: CommissionWrite, now: int)
    requires UniqueKeys(rows)
    ensures var r := Upsert(rows, w, now);
      && UniqueKeys(r)
      && Lookup(r, WriteKey(w)) == Some(match Lookup(rows, WriteKey(w))
                                        case Some(stored) => Merge(stored, w, now)
                                        case None => Insert(w, now))
      && (forall k :: k != WriteKey(w) ==> Lookup(r, k) == Lookup(rows, k))
      && |r| == |rows| + (if Lookup(rows, WriteKey(w)).None? then 1 else 0)
      && (forall i :: 0 <= i < |rows| ==> RowKey(r[i]) == RowKey(rows[i]))
      && (forall i :: 0 <= i < |rows| && RowKey(rows[i]) != WriteKey(w) ==> r[i] == rows[i])
  {
    var r := Upsert(rows, w, now);
    if rows != [] && RowKey(rows[0]) == WriteKey(w) {
      assert r[1..] == rows[1..];
      forall k | k != WriteKey(w)
        ensures Lookup(r, k) == Lookup(rows, k)
      {
        assert Lookup(r, k) == Lookup(r[1..], k);
      }
    } else if rows != [] {
      UpsertFacts(rows[1..], w, now);
      assert r[1..] == Upsert(rows[1..], w, now);
      forall k | k != WriteKey(w)
        ensures Lookup(r, k) == Lookup(rows, k)
      {
        if RowKey(rows[0]) != k {
          assert Lookup(r, k) == Lookup(r[1..], k);
        }
      }
      forall i | 0 <= i < |rows|
        ensures RowKey(r[i]) == RowKey(rows[i])
        ensures RowKey(rows[i]) != WriteKey(w) ==> r[i] == rows[i]
      {
        if i > 0 {
          assert r[i] == r[1..][i - 1];
          assert rows[i] == rows[1..][i - 1];
        }
      }
    }
  }

  /** The rows with `status = 'failed'` and `retry_count < max`, in table order. */
  function FailedBelow(rows: seq<CommissionRow>, max: nat): (r: seq<CommissionRow>)
    ensures |r| <= |rows|
    ensures forall i :: 0 <= i < |r| ==> r[i] in rows && r[i].status == Failed && r[i].retryCount < max
  {
    if rows == [] then []
    else (if rows[0].status == Failed && rows[0].retryCount < max then [rows[0]] else [])
         + FailedBelow(rows[1..], max)
  }

  /** The filter distributes over concatenation, so the rows it keeps stay
      in table order. */
  lemma {:induction false} FailedBelowConcat(a: seq<CommissionRow>, b: seq<CommissionRow>, max: nat)
    ensures FailedBelow(a + b, max) == FailedBelow(a, max) + FailedBelow(b, max)
  {
    if a != [] {
      assert (a + b)[1..] == a[1..] + b;
      FailedBelowConcat(a[1..], b, max);
    } else {
      assert a + b == b;
    }
  }

  /** Every failed row below the bound is among the ones `FailedBelow` keeps. */
  lemma {:induction false} FailedBelowComplete(rows: seq<CommissionRow>, max: nat, i: nat)
    requires i < |rows| && rows[i].status == Failed && rows[i].retryCount < max
    ensures rows[i] in FailedBelow(rows, max)
  {
    if i > 0 {
      FailedBelowComplete(rows[1..], max, i - 1);
      assert rows[1..][i - 1] == rows[i];
    }
  }

  // ---------------------------------------------------------------------
  // tracking_links and notifications

  datatype TrackingLink = TrackingLink(
    ownerUserId: string,
    slug: string,
    labelText: string,
    description: string,
    targetUrl: Option<string>,
    isDefault: bool,
    isActive: bool,
    createdAt: int,
    updatedAt: int)

  /** `select('id').eq('slug', slug)` returns at least one row. */
  predicate SlugTaken(links: seq<TrackingLink>, slug: string) {
    exists i :: 0 <= i < |links| && links[i].slug == slug
  }

  datatype Notification = Notification(
    id: string,
    ownerUserId: string,
    message: string,
    isRead: bool,
    createdAt: int)

  // ---------------------------------------------------------------------
  // The database

  datatype Tables = Tables(
    profiles: map<string, Profile>,
    commissions: seq<CommissionRow>,
    links: seq<TrackingLink>,
    notifications: seq<Notification>)

  predicate TablesValid(t: Tables) {
    ProfilesValid(t.profiles) && UniqueKeys(t.commissions)
  }

  /** The store, as the server-side client reaches it; every route and
      library function of the core reads and writes these fields. */
  class Database {
    var profiles: map<string, Profile>
    var commissions: seq<CommissionRow>
    var links: seq<TrackingLink>
    var notifications: seq<Notification>

    function Snapshot(): Tables
      reads this
    {
      Tables(profiles, commissions, links, notifications)
    }

    ghost predicate Valid()
      reads this
    {
      TablesValid(Snapshot())
    }

    constructor ()
      ensures Valid()
      ensures Snapshot() == Tables(map[], [], [], [])
    {
      profiles := map[];
      commissions := [];
      links := [];
      notifications := [];
    }
  }
}
