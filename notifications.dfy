/** app/api/notifications/route.ts: bearer-token identification, the
    caller's newest notifications with an unread count, and marking them
    read. */
module Notifications {
  import opened Common
  import opened Text
  import opened Store

  const BearerPrefix: string := "Bearer "
  const PageSize: nat := 50

  /** `supabaseAdmin.auth.getUser(token)`: the user id it yields, `None` on
      an error or a missing user. */
  type TokenResolver = string -> Option<string>

  /** The token of an `authorization` header: the text after a leading
      'Bearer ', trimmed; `None` without the prefix. */
  function BearerToken(header: Option<string>): (r: Option<string>)
    ensures r.Some? <==> header.Some? && StartsWith(header.value, BearerPrefix)
    ensures r.Some? ==> r.value == Trim(header.value[|BearerPrefix|..])
  {
    var h := header.GetOr("");
    if StartsWith(h, BearerPrefix) then Some(Trim(h[|BearerPrefix|..])) else None
  }

  /** `getUserIdFromRequest`: null for a missing prefix, an empty token, a
      failed lookup or an empty id. */
  function UserIdFromRequest(header: Option<string>, resolve: TokenResolver): Option<string> {
    var token := BearerToken(header);
    if !Truthy(token) then None
    else
      var id := resolve(token.value);
      if Truthy(id) then id else None
  }

  // ---------------------------------------------------------------------
  // GET

  /** `.eq('owner_user_id', userId)`, in table order. */
  function Owned(rows: seq<Notification>, userId: string): (r: seq<Notification>)
    ensures |r| <= |rows|
    ensures forall i :: 0 <= i < |r| ==> r[i] in rows && r[i].ownerUserId == userId
    ensures forall x :: x in rows && x.ownerUserId == userId ==> x in r
    ensures multiset(r) <= multiset(rows)
  {
    if rows == [] then []
    else
      var tail := Owned(rows[1..], userId);
      assert rows == [rows[0]] + rows[1..];
      if rows[0].ownerUserId == userId then [rows[0]] + tail else tail
  }

  ghost predicate NewestFirst(s: seq<Notification>) {
    forall i, j :: 0 <= i < j < |s| ==> s[i].createdAt >= s[j].createdAt
  }

  function InsertNewest(x: Notification, s: seq<Notification>): seq<Notification> {
    if s == [] || x.createdAt >= s[0].createdAt then [x] + s else [s[0]] + InsertNewest(x, s[1..])
  }

  /** `.order('created_at', { ascending: false })`; rows with the same
      timestamp keep table order. */
  function SortNewestFirst(s: seq<Notification>): seq<Notification> {
    if s == [] then [] else InsertNewest(s[0], SortNewestFirst(s[1..]))
  }

  /** Inserting keeps every timestamp at or below a bound that the new
      row and the old ones respect. */
  lemma {:induction false} InsertNewestBounded(x: Notification, s: seq<Notification>, c: int)
    requires x.createdAt <= c && forall i :: 0 <= i < |s| ==> s[i].createdAt <= c
    ensures var r := InsertNewest(x, s); forall i :: 0 <= i < |r| ==> r[i].createdAt <= c
  {
    if s != [] && x.createdAt < s[0].createdAt {
      assert forall i :: 0 <= i < |s[1..]| ==> s[1..][i] == s[i + 1];
      InsertNewestBounded(x, s[1..], c);
      var r := InsertNewest(x, s);
      assert r == [s[0]] + InsertNewest(x, s[1..]);
      assert forall i :: 1 <= i < |r| ==> r[i] == InsertNewest(x, s[1..])[i - 1];
    } else {
      var r := InsertNewest(x, s);
      assert forall i :: 1 <= i < |r| ==> r[i] == s[i - 1];
    }
  }

  /** Inserting adds exactly the new row. */
  lemma {:induction false} InsertNewestPermutes(x: Notification, s: seq<Notification>)
    ensures multiset(InsertNewest(x, s)) == multiset(s) + multiset{x}
  {
    if s != [] && x.createdAt < s[0].createdAt {
      assert s == [s[0]] + s[1..];
      InsertNewestPermutes(x, s[1..]);
    }
  }

  lemma {:induction false} InsertNewestFacts(x: Notification, s: seq<Notification>)
    requires NewestFirst(s)
    ensures NewestFirst(InsertNewest(x, s))
    ensures multiset(InsertNewest(x, s)) == multiset(s) + multiset{x}
  {
    InsertNewestPermutes(x, s);
    if s != [] && x.createdAt < s[0].createdAt {
      InsertNewestFacts(x, s[1..]);
      var tail := InsertNewest(x, s[1..]);
      assert forall i :: 0 <= i < |tail| ==> tail[i].createdAt <= s[0].createdAt by {
        InsertNewestBounded(x, s[1..], s[0].createdAt);
      }
      assert InsertNewest(x, s) == [s[0]] + tail;
    }
  }

  /** The ordering is a permutation sorted newest first. */
  lemma {:induction false} SortNewestFirstFacts(s: seq<Notification>)
    ensures NewestFirst(SortNewestFirst(s))
    ensures multiset(SortNewestFirst(s)) == multiset(s)
  {
    if s != [] {
      assert s == [s[0]] + s[1..];
      SortNewestFirstFacts(s[1..]);
      InsertNewestFacts(s[0], SortNewestFirst(s[1..]));
    }
  }

  /** The first 50 of the caller's notifications, newest first. */
  function Feed(rows: seq<Notification>, userId: string): seq<Notification> {
    var sorted := SortNewestFirst(Owned(rows, userId));
    if |sorted| <= PageSize then sorted else sorted[..PageSize]
  }

  /** `items.filter((n) => !n.is_read).length`. */
  function UnreadCount(items: seq<Notification>): (r: nat)
    ensures r <= |items|
  {
    if items == [] then 0 else (if items[0].isRead then 0 else 1) + UnreadCount(items[1..])
  }

  /** The count is zero exactly when every item is read, and equals the
      length exactly when none is. */
  lemma {:induction false} UnreadCountFacts(items: seq<Notification>)
    ensures UnreadCount(items) == 0 <==> forall i :: 0 <= i < |items| ==> items[i].isRead
    ensures UnreadCount(items) == |items| <==> forall i :: 0 <= i < |items| ==> !items[i].isRead
  {
    if items != [] {
      UnreadCountFacts(items[1..]);
      assert forall i :: 1 <= i < |items| ==> items[i] == items[1..][i - 1];
    }
  }

  datatype GetReply = Unauthorized401 | FetchFailed500 | Listed(notifications: seq<Notification>, unreadCount: nat)

  /** `GET /api/notifications`. */
  function Get(t: Tables, header: Option<string>, resolve: TokenResolver, fetchFails: bool): GetReply {
    match UserIdFromRequest(header, resolve)
    case None => Unauthorized401
    case Some(userId) =>
      if fetchFails then FetchFailed500
      else
        var items := Feed(t.notifications, userId);
        Listed(items, UnreadCount(items))
  }

  /** The header gate: no 'Bearer ' prefix, or only blanks after it, is 401
      before the token is ever resolved. */
  lemma MissingTokenIsUnauthorized(t: Tables, header: Option<string>, resolve: TokenResolver, fetchFails: bool)
    requires header.None? || !StartsWith(header.value, BearerPrefix) || AllSpace(header.value[|BearerPrefix|..])
    ensures Get(t, header, resolve, fetchFails) == Unauthorized401
    ensures UserIdFromRequest(header, resolve).None?
  {
  }

  /** A listing is a prefix of the caller's notifications sorted newest
      first. */
  lemma FeedIsSortedPrefix(rows: seq<Notification>, userId: string)
    ensures var sorted := SortNewestFirst(Owned(rows, userId));
      var items := Feed(rows, userId);
      && NewestFirst(sorted) && multiset(sorted) == multiset(Owned(rows, userId))
      && |items| <= |sorted| && items == sorted[..|items|]
  {
    SortNewestFirstFacts(Owned(rows, userId));
  }

  /** Every item shown is one of the caller's own rows. */
  lemma FeedIsOwned(rows: seq<Notification>, userId: string)
    ensures var items := Feed(rows, userId);
      forall i :: 0 <= i < |items| ==> items[i] in rows && items[i].ownerUserId == userId
  {
    var owned := Owned(rows, userId);
    var sorted := SortNewestFirst(owned);
    FeedIsSortedPrefix(rows, userId);
    var items := Feed(rows, userId);
    forall i | 0 <= i < |items|
      ensures items[i] in rows && items[i].ownerUserId == userId
    {
      assert items[i] == sorted[i];
      assert sorted[i] in multiset(sorted);
    }
  }

  /** Cutting a newest-first sequence after `n` items leaves out only
      items no newer than any kept. */
  lemma PrefixKeepsNewest(sorted: seq<Notification>, n: nat)
    requires NewestFirst(sorted) && n <= |sorted|
    ensures NewestFirst(sorted[..n])
    ensures multiset(sorted[..n]) <= multiset(sorted)
    ensures forall x :: x in multiset(sorted) - multiset(sorted[..n]) ==>
              forall i :: 0 <= i < n ==> x.createdAt <= sorted[i].createdAt
  {
    var items, rest := sorted[..n], sorted[n..];
    assert sorted == items + rest;
    assert multiset(sorted) == multiset(items) + multiset(rest);
    forall x: Notification | x in multiset(sorted) - multiset(items)
      ensures forall i :: 0 <= i < n ==> x.createdAt <= sorted[i].createdAt
    {
      assert x in multiset(rest);
      var j :| 0 <= j < |rest| && rest[j] == x;
      assert sorted[n + j] == x;
    }
  }

  /** What a listing holds: at most 50 of the caller's own notifications,
      newest first, as many as they have up to 50; every notification of
      theirs that is left out is no newer than any that is shown; and
      `unreadCount` is zero exactly when every row shown is read. */
  lemma FeedFacts(rows: seq<Notification>, userId: string)
    ensures var items := Feed(rows, userId);
      var owned := Owned(rows, userId);
      && |items| == (if |owned| <= PageSize then |owned| else PageSize)
      && NewestFirst(items)
      && (forall i :: 0 <= i < |items| ==> items[i] in rows && items[i].ownerUserId == userId)
      && multiset(items) <= multiset(owned)
      && (forall x :: x in multiset(owned) - multiset(items) ==>
            forall i :: 0 <= i < |items| ==> x.createdAt <= items[i].createdAt)
      && (UnreadCount(items) == 0 <==> forall i :: 0 <= i < |items| ==> items[i].isRead)
  {
    var items := Feed(rows, userId);
    var owned := Owned(rows, userId);
    var sorted := SortNewestFirst(owned);
    assert NewestFirst(sorted) && multiset(sorted) == multiset(owned) && items == sorted[..|items|] by {
      FeedIsSortedPrefix(rows, userId);
    }
    assert |sorted| == |owned| by {
      assert |multiset(sorted)| == |multiset(owned)|;
    }
    assert forall i :: 0 <= i < |items| ==> items[i] in rows && items[i].ownerUserId == userId by {
      FeedIsOwned(rows, userId);
    }
    assert NewestFirst(items) && multiset(items) <= multiset(owned)
      && (forall x :: x in multiset(owned) - multiset(items) ==>
            forall i :: 0 <= i < |items| ==> x.createdAt <= items[i].createdAt) by {
      PrefixKeepsNewest(sorted, |items|);
    }
    assert UnreadCount(items) == 0 <==> forall i :: 0 <= i < |items| ==> items[i].isRead by {
      UnreadCountFacts(items);
    }
  }

  // ---------------------------------------------------------------------
  // PATCH

  /** The body as read: `notificationId` when it is a string, and the
      truthiness of `markAll`; a body that does not parse reads as `{}`. */
  datatype PatchBody = PatchBody(notificationId: Option<string>, markAll: bool)

  datatype PatchReply = PatchUnauthorized401 | MissingTarget400 | UpdateFailed500 | Updated

  /** The rows the update's filters select. */
  predicate Selected(n: Notification, userId: string, markAll: bool, notificationId: string) {
    n.ownerUserId == userId && !n.isRead && (markAll || n.id == notificationId)
  }

  /** `update({ is_read: true })` on the selected rows. */
  function MarkRead(rows: seq<Notification>, userId: string, markAll: bool, notificationId: string)
    : seq<Notification>
  {
    seq(|rows|, i requires 0 <= i < |rows| =>
      if Selected(rows[i], userId, markAll, notificationId) then rows[i].(isRead := true) else rows[i])
  }

  /** `PATCH /api/notifications` as a function of the store. */
  function Patch(t: Tables, header: Option<string>, resolve: TokenResolver, body: PatchBody, updateFails: bool)
    : (PatchReply, Tables)
  {
    match UserIdFromRequest(header, resolve)
    case None => (PatchUnauthorized401, t)
    case Some(userId) =>
      if !body.markAll && !Truthy(body.notificationId) then (MissingTarget400, t)
      else if updateFails then (UpdateFailed500, t)
      else (Updated, t.(notifications := MarkRead(t.notifications, userId, body.markAll,
                                                  body.notificationId.GetOr(""))))
  }

  method PatchNotifications(db: Database, header: Option<string>, resolve: TokenResolver, body: PatchBody,
                            updateFails: bool)
    returns (reply: PatchReply)
    modifies db
    ensures (reply, db.Snapshot()) == Patch(old(db.Snapshot()), header, resolve, body, updateFails)
  {
    var userId := UserIdFromRequest(header, resolve);
    if userId.None? {
      return PatchUnauthorized401;
    }
    var notificationId := body.notificationId;
    var markAll := body.markAll;
    if !markAll && !Truthy(notificationId) {
      return MissingTarget400;
    }
    if updateFails {
      return UpdateFailed500;
    }
    db.notifications := MarkRead(db.notifications, userId.value, markAll, notificationId.GetOr(""));
    return Updated;
  }

  /** Only `is_read` changes, only from false to true, and only on the
      caller's rows that the target selects; positions, other owners' rows
      and every other column are unchanged. */
  lemma MarkReadFacts(rows: seq<Notification>, userId: string, markAll: bool, notificationId: string)
    ensures var r := MarkRead(rows, userId, markAll, notificationId);
      && |r| == |rows|
      && (forall i :: 0 <= i < |rows| ==> r[i].(isRead := rows[i].isRead) == rows[i])
      && (forall i :: 0 <= i < |rows| ==> (r[i] != rows[i] <==> Selected(rows[i], userId, markAll, notificationId)))
      && (forall i :: 0 <= i < |rows| && r[i] != rows[i] ==> !rows[i].isRead && r[i].isRead)
      && (forall i :: 0 <= i < |rows| && rows[i].ownerUserId != userId ==> r[i] == rows[i])
  {
  }

  /** Repeating a mark-read is a no-op. */
  lemma MarkReadIdempotent(rows: seq<Notification>, userId: string, markAll: bool, notificationId: string)
    ensures var once := MarkRead(rows, userId, markAll, notificationId);
      MarkRead(once, userId, markAll, notificationId) == once
  {
  }

  /** A request without a truthy `markAll` and without a non-empty string
      `notificationId` is 400, and a request without a user is 401; both
      leave the store as it was. */
  lemma PatchRejections(t: Tables, header: Option<string>, resolve: TokenResolver, body: PatchBody,
                        updateFails: bool)
    ensures UserIdFromRequest(header, resolve).None? ==>
      Patch(t, header, resolve, body, updateFails) == (PatchUnauthorized401, t)
    ensures UserIdFromRequest(header, resolve).Some? && !body.markAll && !Truthy(body.notificationId) ==>
      Patch(t, header, resolve, body, updateFails) == (MissingTarget400, t)
    ensures Patch(t, header, resolve, body, updateFails).0 != Updated ==> Patch(t, header, resolve, body, updateFails).1 == t
  {
  }

  /** After a successful mark-all, the caller's next listing reports no
      unread notification. */
  lemma MarkAllClearsUnreadCount(t: Tables, header: Option<string>, resolve: TokenResolver, body: PatchBody)
    requires body.markAll
    ensures var (reply, t2) := Patch(t, header, resolve, body, false);
      reply == Updated ==> Get(t2, header, resolve, false).unreadCount == 0
  {
    var (reply, t2) := Patch(t, header, resolve, body, false);
    if reply == Updated {
      var userId := UserIdFromRequest(header, resolve).value;
      var marked := t2.notifications;
      assert forall x :: x in marked && x.ownerUserId == userId ==> x.isRead by {
        forall x: Notification | x in marked && x.ownerUserId == userId
          ensures x.isRead
        {
          var j :| 0 <= j < |marked| && marked[j] == x;
        }
      }
      var items := Feed(marked, userId);
      FeedIsOwned(marked, userId);
      UnreadCountFacts(items);
    }
  }
}
