/** app/api/retry-commissions/route.ts: the cron entry point that re-drives
    failed commission notifications, behind an optional shared secret and
    with a clamped batch size. */
module RetryCommissions {
  import opened Common
  import opened Text
  import opened Store
  import opened Affiliate

  const DefaultLimitText: string := "10"
  const MaxLimit: int := 50

  /** `authHeader !== 'Bearer ' + cronSecret` is what rejects, and only when
      `CRON_SECRET` is set. */
  function Authorized(cronSecret: Option<string>, authHeader: Option<string>): (r: bool)
    ensures !Truthy(cronSecret) ==> r
    ensures Truthy(cronSecret) ==> (r <==> authHeader == Some("Bearer " + cronSecret.value))
  {
    !Truthy(cronSecret) || authHeader == Some("Bearer " + cronSecret.value)
  }

  /** `Math.min(x, 50)` on a JavaScript number: NaN stays NaN. */
  function MinWith50(x: JsInt): (r: JsInt)
    ensures r.NaN? <==> x.NaN?
    ensures r.Int? ==> r.value <= MaxLimit && (r.value == x.value || r.value == MaxLimit)
  {
    match x
    case NaN => NaN
    case Int(v) => Int(if v < MaxLimit then v else MaxLimit)
  }

  /** `Math.min(parseInt(limitParam || '10', 10), 50)`. */
  function Limit(limitParam: Option<string>): JsInt {
    MinWith50(ParseInt(OrElse(limitParam, DefaultLimitText)))
  }

  /** The batch size the sweep receives. `.limit(n)` with NaN or a negative
      number is not a valid query: the selection fails and the sweep
      returns 0 with no change. */
  function SweepLimit(limit: JsInt): Option<nat> {
    if limit.Int? && limit.value >= 0 then Some(limit.value as nat) else None
  }

  const Unauthorized: Reply := Json(401, "{error:'Unauthorized'}")

  /** The reply: 401, or 200 with `retriedCount` and the `limit` echoed. */
  datatype RetryReply = Rejected401 | Retried(retriedCount: nat, limit: JsInt)

  /** The route's world: the secret, the header, the `limit` parameter, the
      selection fault and what each retried row meets. */
  datatype RetryRequest = RetryRequest(cronSecret: Option<string>, authHeader: Option<string>,
                                       limitParam: Option<string>)

  /** `GET /api/retry-commissions` as a function of the store: the reply,
      the tables and the payloads posted. */
  function RetryRoute(t: Tables, cfg: AffiliateConfig, req: RetryRequest, selectFails: bool, envs: nat -> RowEnv)
    : (RetryReply, SweepRun)
  {
    if !Authorized(req.cronSecret, req.authHeader) then (Rejected401, SweepRun(t, 0, []))
    else
      var limit := Limit(req.limitParam);
      match SweepLimit(limit)
      case None => (Retried(0, limit), SweepRun(t, 0, []))
      case Some(n) =>
        var s := Sweep(t, cfg, n, selectFails, envs);
        (Retried(s.successCount, limit), s)
  }

  method Get(db: Database, cfg: AffiliateConfig, req: RetryRequest, selectFails: bool, envs: nat -> RowEnv)
    returns (reply: RetryReply, sent: seq<CommissionPayload>)
    modifies db
    ensures var (r, s) := RetryRoute(old(db.Snapshot()), cfg, req, selectFails, envs);
      reply == r && sent == s.sent && db.Snapshot() == s.tables
  {
    if !Authorized(req.cronSecret, req.authHeader) {
      return Rejected401, [];
    }
    var limit := Limit(req.limitParam);
    var n := SweepLimit(limit);
    if n.None? {
      return Retried(0, limit), [];
    }
    var successCount;
    successCount, sent := RetryFailedCommissions(db, cfg, n.value, selectFails, envs);
    return Retried(successCount, limit), sent;
  }

  /** The limit: 10 without a parameter (or with an empty one), a decimal
      parameter up to 50 taken as written, anything larger clamped to 50,
      and never more than 50 whenever it is a number. */
  lemma LimitFacts(limitParam: Option<string>, n: nat)
    ensures !Truthy(limitParam) ==> Limit(limitParam) == Int(10)
    ensures Limit(limitParam).Int? ==> Limit(limitParam).value <= MaxLimit
    ensures Limit(Some(NatToString(n))) == Int(if n <= MaxLimit then n else MaxLimit)
  {
    ParseIntRoundTrip(10);
    assert NatToString(10) == DefaultLimitText;
    ParseIntRoundTrip(n);
  }

  /** With the secret set, a wrong or missing header is answered 401 before
      anything is read or posted. */
  lemma WrongSecretIsRejected(t: Tables, cfg: AffiliateConfig, req: RetryRequest, selectFails: bool,
                              envs: nat -> RowEnv)
    requires Truthy(req.cronSecret) && req.authHeader != Some("Bearer " + req.cronSecret.value)
    ensures RetryRoute(t, cfg, req, selectFails, envs) == (Rejected401, SweepRun(t, 0, []))
  {
  }

  /** `retriedCount` is the sweep's own count: the number of rows it
      delivered, never more than the clamped limit (so at most 50), and 0
      when the limit is not a usable number. */
  lemma RetriedCountIsTheSweepCount(t: Tables, cfg: AffiliateConfig, req: RetryRequest, selectFails: bool,
                                    envs: nat -> RowEnv)
    ensures var (r, s) := RetryRoute(t, cfg, req, selectFails, envs);
      r.Retried? ==>
        && r.retriedCount == s.successCount
        && (SweepLimit(r.limit).Some? ==> s == Sweep(t, cfg, SweepLimit(r.limit).value, selectFails, envs))
        && (SweepLimit(r.limit).None? ==> r.retriedCount == 0 && s.tables == t)
        && r.retriedCount <= MaxLimit
  {
    var limit := Limit(req.limitParam);
    if SweepLimit(limit).Some? {
      SweepBounded(t, cfg, SweepLimit(limit).value, selectFails, envs);
    }
  }
}
