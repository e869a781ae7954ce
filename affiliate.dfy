/** lib/affiliate.ts: the commission notifier. A referred user's activation
    is reported to the affiliate system by a bounded retry loop; every
    outcome is written to the `commission_notifications` audit log, which
    also makes the notification idempotent, and a sweep re-drives failed rows.

    The affiliate endpoint is an oracle `network`: the k-th POST of a call
    (k = the value of `retryCount` at that attempt) gets `network(k)`.
    Store faults are boolean inputs; `now` is the clock. */
module Affiliate {
  import opened Common
  import opened Text
  import opened Store

  const MaxRetryAttempts: nat := 3
  const ProductionApiUrl: string := "https://affiliate.clintonstack.com/api/commission"
  const LocalApiUrl: string := "http://localhost:3001/api/commission"
  const ConfigMissingError: string :=
    "\U{274C} Affiliate API configuration missing (AFFILIATE_API_URL or AFFILIATE_API_SECRET)"

  // ---------------------------------------------------------------------
  // Configuration

  datatype AffiliateConfig = AffiliateConfig(apiUrl: string, apiSecret: string)

  /** `getAffiliateApiUrl()` and `AFFILIATE_API_SECRET`, from the environment. */
  function ResolveConfig(envApiUrl: Option<string>, nodeEnv: Option<string>, envApiSecret: Option<string>)
    : (c: AffiliateConfig)
    ensures c.apiUrl != ""
    ensures Truthy(envApiUrl) ==> c.apiUrl == envApiUrl.value
    ensures !Truthy(envApiUrl) && nodeEnv == Some("production") ==> c.apiUrl == ProductionApiUrl
    ensures !Truthy(envApiUrl) && nodeEnv != Some("production") ==> c.apiUrl == LocalApiUrl
    ensures c.apiSecret == OrElse(envApiSecret, "")
  {
    var url := if Truthy(envApiUrl) then envApiUrl.value
               else if nodeEnv == Some("production") then ProductionApiUrl
               else LocalApiUrl;
    AffiliateConfig(url, OrElse(envApiSecret, ""))
  }

  predicate ConfigComplete(c: AffiliateConfig) {
    c.apiUrl != "" && c.apiSecret != ""
  }

  /** The URL always has a value, so the configuration check of
      `notifyAffiliateSystem` fails exactly when the secret is unset or empty. */
  lemma ConfigCompleteIffSecret(envApiUrl: Option<string>, nodeEnv: Option<string>, envApiSecret: Option<string>)
    ensures ConfigComplete(ResolveConfig(envApiUrl, nodeEnv, envApiSecret)) <==> Truthy(envApiSecret)
  {
  }

  // ---------------------------------------------------------------------
  // The audit log: hasCommissionBeenNotified, recordCommissionNotification

  /** `hasCommissionBeenNotified(userId, paymentReference)`: the stored row
      for the pair has status `success`; a query error reads as false. */
  function HasCommissionBeenNotified(rows: seq<CommissionRow>, userId: string, paymentReference: string,
                                     lookupFails: bool): bool {
    if lookupFails then false
    else
      match Lookup(rows, (userId, paymentReference))
      case None => false
      case Some(row) => row.status == Success
  }

  /** The idempotency check is true exactly when the query succeeds and a
      `success` row for (user, reference) is stored. */
  lemma HasCommissionBeenNotifiedIff(rows: seq<CommissionRow>, userId: string, paymentReference: string,
                                     lookupFails: bool)
    requires UniqueKeys(rows)
    ensures HasCommissionBeenNotified(rows, userId, paymentReference, lookupFails)
        <==> !lookupFails && exists i :: 0 <= i < |rows| && RowKey(rows[i]) == (userId, paymentReference)
                                        && rows[i].status == Success
  {
    if !lookupFails {
      if i :| 0 <= i < |rows| && RowKey(rows[i]) == (userId, paymentReference) && rows[i].status == Success {
        LookupFindsEveryRow(rows, i);
      }
    }
  }

  /** The table after `recordCommissionNotification(w)`: an upsert on
      (user_id, payment_reference); a store error is only logged. */
  function RecordAttempt(t: Tables, w: CommissionWrite, now: int, fails: bool): Tables {
    if fails then t else t.(commissions := Upsert(t.commissions, w, now))
  }

  method RecordCommissionNotification(db: Database, w: CommissionWrite, now: int, fails: bool)
    modifies db
    ensures db.Snapshot() == RecordAttempt(old(db.Snapshot()), w, now, fails)
  {
    if !fails {
      db.commissions := Upsert(db.commissions, w, now);
    }
  }

  /** An audit write keeps one row per (user, reference): afterwards the
      pair's row carries the written status, retry count and error, other
      pairs and the other tables are untouched. */
  lemma RecordAttemptFacts(t: Tables, w: CommissionWrite, now: int)
    requires TablesValid(t)
    ensures var t2 := RecordAttempt(t, w, now, false);
      && TablesValid(t2)
      && t2.profiles == t.profiles && t2.links == t.links && t2.notifications == t.notifications
      && Lookup(t2.commissions, WriteKey(w)).Some?
      && (var row := Lookup(t2.commissions, WriteKey(w)).value;
          && row.status == w.status && row.retryCount == w.retryCount && row.referrerId == w.referrerId
          && (w.errorMessage.Some? ==> row.errorMessage == w.errorMessage)
          && (w.responseData.Some? ==> row.responseData == w.responseData))
      && (forall k :: k != WriteKey(w) ==> Lookup(t2.commissions, k) == Lookup(t.commissions, k))
  {
    UpsertFacts(t.commissions, w, now);
  }

  // ---------------------------------------------------------------------
  // markCommissionNotified

  function NotifiedPatch(now: int): ProfilePatch {
    ProfilePatch(None, None, None, Some(true), Some(now), Some(now))
  }

  /** The table after `markCommissionNotified(userId)`: an update keyed on
      `user_id`; a store error is only logged. */
  function MarkNotified(t: Tables, userId: string, now: int, fails: bool): Tables {
    if fails then t else t.(profiles := UpdateWhereUserId(t.profiles, userId, NotifiedPatch(now)))
  }

  method MarkCommissionNotified(db: Database, userId: string, now: int, fails: bool)
    modifies db
    ensures db.Snapshot() == MarkNotified(old(db.Snapshot()), userId, now, fails)
  {
    if !fails {
      db.profiles := UpdateWhereUserId(db.profiles, userId, NotifiedPatch(now));
    }
  }

  // ---------------------------------------------------------------------
  // shouldNotifyAffiliate

  datatype PlanType = Individual | Professional

  datatype Eligibility = Eligibility(should: bool, agentCode: Option<string>, email: Option<string>,
                                     planType: Option<PlanType>, clientName: Option<string>)

  const NotEligible: Eligibility := Eligibility(false, None, None, None, None)

  predicate HasReferrer(p: Profile) {
    Truthy(p.referrerId) && Trim(p.referrerId.value) != ""
  }

  predicate HasValidEmail(p: Profile) {
    p.email != "" && Contains(p.email, "@")
  }

  function PlanTypeOf(plan: Option<string>): PlanType {
    if plan == Some("Professional") then Professional else Individual
  }

  /** `shouldNotifyAffiliate(userId)`, reading the row stored under `user_id`. */
  function ShouldNotifyAffiliate(profiles: map<string, Profile>, userId: string, lookupFails: bool): (e: Eligibility)
    ensures !e.should ==> e == NotEligible
    ensures e.should ==> (userId in profiles
                          && e == Eligibility(true, profiles[userId].referrerId, Some(profiles[userId].email),
                                              Some(PlanTypeOf(profiles[userId].plan)), Some(profiles[userId].fullName)))
  {
    if lookupFails || userId !in profiles then NotEligible
    else
      var p := profiles[userId];
      if !HasReferrer(p) then NotEligible
      else if !p.subscriptionActive then NotEligible
      else if p.commissionNotified then NotEligible
      else if !HasValidEmail(p) then NotEligible
      else Eligibility(true, p.referrerId, Some(p.email), Some(PlanTypeOf(p.plan)), Some(p.fullName))
  }

  /** Eligibility holds exactly when the query succeeds, the row exists and
      all four conditions hold; an eligible answer always carries a
      non-blank agent code and an email with an '@'. The plan type is
      `Professional` exactly for the plan named "Professional". */
  lemma ShouldNotifyAffiliateIff(profiles: map<string, Profile>, userId: string, lookupFails: bool)
    ensures var e := ShouldNotifyAffiliate(profiles, userId, lookupFails);
      && (e.should <==> !lookupFails && userId in profiles
                        && HasReferrer(profiles[userId]) && profiles[userId].subscriptionActive
                        && !profiles[userId].commissionNotified && HasValidEmail(profiles[userId]))
      && (e.should ==> Truthy(e.agentCode) && Truthy(e.email) && e.planType.Some?
                       && Contains(e.email.value, "@")
                       && (e.planType == Some(Professional) <==> profiles[userId].plan == Some("Professional")))
  {
  }

  // ---------------------------------------------------------------------
  // The retry loop of notifyAffiliateSystem

  /** What one POST to the affiliate endpoint gives: a response with its
      status and the JSON text of its body (or of `{ raw: statusText }` when
      the body is not JSON), or a thrown network error and its message. */
  datatype Attempt = Response(status: nat, data: string) | NetworkError(message: string)

  predicate IsOk(status: nat) { 200 <= status < 300 }

  /** 404, 400 and 401 end the loop at once. */
  predicate IsPermanent(status: nat) { status == 404 || status == 400 || status == 401 }

  /** Everything else is retried: a status of 500 or more, any other non-OK
      status, or a thrown error. */
  predicate IsTransient(a: Attempt) {
    a.NetworkError? || (!IsOk(a.status) && !IsPermanent(a.status))
  }

  function InvalidAgentError(agentCode: string): string {
    "Invalid agent_code: " + agentCode + " not found in Affiliate System"
  }

  function HttpError(status: nat, data: string): string {
    "HTTP " + NatToString(status) + ": " + data
  }

  /** The `lastError` an unsuccessful attempt leaves behind. */
  function AttemptError(agentCode: string, a: Attempt): string {
    match a
    case NetworkError(m) => m
    case Response(status, data) => if status == 404 then InvalidAgentError(agentCode) else HttpError(status, data)
  }

  function Pow2(k: nat): (p: nat)
    ensures p >= 1
  {
    if k == 0 then 1 else 2 * Pow2(k - 1)
  }

  /** `Math.min(1000 * Math.pow(2, retryCount), 10000)`. */
  function BackoffDelay(retryCount: nat): (d: nat)
    ensures 1000 <= d <= 10000
  {
    if 1000 * Pow2(retryCount) < 10000 then 1000 * Pow2(retryCount) else 10000
  }

  /** The delays taken after the transient failures at attempts from..to-1:
      one after each of them that another attempt follows. */
  function Backoffs(from: nat, to: nat): seq<nat>
    decreases to - from
  {
    if from >= to then []
    else (if from + 1 < MaxRetryAttempts then [BackoffDelay(from + 1)] else []) + Backoffs(from + 1, to)
  }

  datatype LoopExit = Delivered(responseData: string) | Rejected | Exhausted

  /** Where the loop stopped: how, the final `retryCount` and `lastError`,
      and the delays it waited. */
  datatype LoopRun = LoopRun(exit: LoopExit, retryCount: nat, lastError: string, delays: seq<nat>)

  /** The loop `while (retryCount < MAX_RETRY_ATTEMPTS)`, run from the state
      (retryCount, lastError, delays). */
  function RetryLoop(network: nat -> Attempt, agentCode: string, retryCount: nat, lastError: string,
                     delays: seq<nat>): LoopRun
    requires retryCount <= MaxRetryAttempts
    decreases MaxRetryAttempts - retryCount
  {
    if retryCount == MaxRetryAttempts then LoopRun(Exhausted, retryCount, lastError, delays)
    else
      var a := network(retryCount);
      if a.Response? && IsOk(a.status) then LoopRun(Delivered(a.data), retryCount, lastError, delays)
      else if a.Response? && IsPermanent(a.status) then
        LoopRun(Rejected, retryCount, AttemptError(agentCode, a), delays)
      else
        var next := retryCount + 1;
        RetryLoop(network, agentCode, next, AttemptError(agentCode, a),
                  delays + (if next < MaxRetryAttempts then [BackoffDelay(next)] else []))
  }

  /** The number of POSTs the loop made. */
  function Attempts(run: LoopRun): nat {
    if run.exit.Exhausted? then run.retryCount else run.retryCount + 1
  }

  /** What the loop does from any state: every attempt before the last was
      transient, and the last one decides the exit and the error kept. */
  lemma {:induction false} RetryLoopFacts(network: nat -> Attempt, agentCode: string, retryCount: nat,
                                          lastError: string, delays: seq<nat>)
    requires retryCount <= MaxRetryAttempts
    decreases MaxRetryAttempts - retryCount
    ensures var run := RetryLoop(network, agentCode, retryCount, lastError, delays);
      && retryCount <= run.retryCount <= MaxRetryAttempts
      && (run.exit.Exhausted? <==> run.retryCount == MaxRetryAttempts)
      && (forall k :: retryCount <= k < run.retryCount ==> IsTransient(network(k)))
      && (run.exit.Delivered? ==> network(run.retryCount).Response? && IsOk(network(run.retryCount).status)
                                  && network(run.retryCount).data == run.exit.responseData)
      && (run.exit.Rejected? ==> network(run.retryCount).Response? && IsPermanent(network(run.retryCount).status)
                                 && run.lastError == AttemptError(agentCode, network(run.retryCount)))
      && (run.exit.Exhausted? && retryCount < run.retryCount ==>
            run.lastError == AttemptError(agentCode, network(run.retryCount - 1)))
      && (run.exit.Exhausted? && retryCount == run.retryCount ==> run.lastError == lastError)
  {
    if retryCount < MaxRetryAttempts {
      var a := network(retryCount);
      if !(a.Response? && IsOk(a.status)) && !(a.Response? && IsPermanent(a.status)) {
        var next := retryCount + 1;
        var d := if next < MaxRetryAttempts then [BackoffDelay(next)] else [];
        RetryLoopFacts(network, agentCode, next, AttemptError(agentCode, a), delays + d);
      }
    }
  }

  /** The delays of a run: one backoff after each transient failure that
      another attempt follows, appended to those already waited. */
  lemma {:induction false} RetryLoopDelays(network: nat -> Attempt, agentCode: string, retryCount: nat,
                                           lastError: string, delays: seq<nat>)
    requires retryCount <= MaxRetryAttempts
    decreases MaxRetryAttempts - retryCount
    ensures var run := RetryLoop(network, agentCode, retryCount, lastError, delays);
      && retryCount <= run.retryCount <= MaxRetryAttempts
      && run.delays == delays + Backoffs(retryCount, run.retryCount)
  {
    if retryCount < MaxRetryAttempts {
      var a := network(retryCount);
      if !(a.Response? && IsOk(a.status)) && !(a.Response? && IsPermanent(a.status)) {
        var next := retryCount + 1;
        var d := if next < MaxRetryAttempts then [BackoffDelay(next)] else [];
        RetryLoopDelays(network, agentCode, next, AttemptError(agentCode, a), delays + d);
        var run := RetryLoop(network, agentCode, next, AttemptError(agentCode, a), delays + d);
        assert Backoffs(retryCount, run.retryCount) == d + Backoffs(next, run.retryCount);
        assert delays + d + Backoffs(next, run.retryCount) == delays + (d + Backoffs(next, run.retryCount));
      }
    }
  }

  /** A call's loop makes one to three POSTs, waits one backoff less than
      it posts, and those backoffs are 2000 ms and then 4000 ms; it exhausts
      its attempts exactly when all three POSTs fail transiently. */
  lemma RetryLoopFromStart(network: nat -> Attempt, agentCode: string)
    ensures var run := RetryLoop(network, agentCode, 0, "", []);
      && 1 <= Attempts(run) <= MaxRetryAttempts
      && run.retryCount == Attempts(run) - (if run.exit.Exhausted? then 0 else 1)
      && |run.delays| == Attempts(run) - 1
      && run.delays == [2000, 4000][..Attempts(run) - 1]
      && (run.exit.Exhausted? <==> forall k :: 0 <= k < MaxRetryAttempts ==> IsTransient(network(k)))
  {
    RetryLoopFacts(network, agentCode, 0, "", []);
    RetryLoopDelays(network, agentCode, 0, "", []);
    var run := RetryLoop(network, agentCode, 0, "", []);
    assert BackoffDelay(1) == 2000 && BackoffDelay(2) == 4000 by {
      assert Pow2(1) == 2 && Pow2(2) == 4;
    }
    assert Backoffs(2, 3) == [] && Backoffs(2, 2) == [];
    assert Backoffs(1, 3) == [4000] && Backoffs(1, 2) == [4000] && Backoffs(1, 1) == [];
    assert Backoffs(0, run.retryCount) == [2000, 4000][..Attempts(run) - 1];
    if !run.exit.Exhausted? {
      assert !IsTransient(network(run.retryCount));
    }
  }

  /** The attempt that ends the loop is the first one that is not transient
      (a success, or a 404, 400 or 401): no POST follows it. */
  lemma LoopStopsAtFirstFinalAttempt(network: nat -> Attempt, agentCode: string, k: nat)
    requires k < MaxRetryAttempts && !IsTransient(network(k))
    requires forall j :: 0 <= j < k ==> IsTransient(network(j))
    ensures var run := RetryLoop(network, agentCode, 0, "", []);
      && run.retryCount == k && Attempts(run) == k + 1
      && (network(k).Response? && IsOk(network(k).status) ==> run.exit == Delivered(network(k).data))
      && (network(k).Response? && IsPermanent(network(k).status) ==>
            run.exit == Rejected && run.lastError == AttemptError(agentCode, network(k)))
  {
    RetryLoopFacts(network, agentCode, 0, "", []);
  }

  // ---------------------------------------------------------------------
  // notifyAffiliateSystem

  /** The JSON body POSTed to the affiliate endpoint. */
  datatype CommissionPayload = CommissionPayload(agentCode: string, userEmail: string, planType: PlanType,
                                                 reference: string, clientName: string)

  /** The arguments of `notifyAffiliateSystem`. */
  datatype NotifyCall = NotifyCall(userId: string, agentCode: string, userEmail: string, planType: PlanType,
                                   paymentReference: string, clientName: Option<string>)

  /** The world one call sees: the endpoint's answers, the store faults of
      the idempotency query, the audit upsert and the profile update, the
      clock, and the random base-36 suffix of a generated reference. */
  datatype NotifyEnv = NotifyEnv(network: nat -> Attempt, lookupFails: bool, recordFails: bool,
                                 markFails: bool, now: nat, randomSuffix: string)

  datatype NotifyResult = NotifyResult(success: bool, error: Option<string>)

  /** What a call returns, what it POSTed, the delays it waited and the
      tables it leaves. */
  datatype NotifyOutcome = NotifyOutcome(result: NotifyResult, sent: seq<CommissionPayload>,
                                         delays: seq<nat>, tables: Tables)

  /** `paymentReference || LCS_{userId}_{Date.now()}_{random}`. */
  function UniqueReference(c: NotifyCall, env: NotifyEnv): (r: string)
    ensures r != ""
    ensures c.paymentReference != "" ==> r == c.paymentReference
    ensures c.paymentReference == "" ==> StartsWith(r, "LCS_")
  {
    if c.paymentReference != "" then c.paymentReference
    else "LCS_" + c.userId + "_" + NatToString(env.now) + "_" + env.randomSuffix
  }

  function BuildPayload(c: NotifyCall, reference: string): CommissionPayload {
    CommissionPayload(c.agentCode, c.userEmail, c.planType, reference, OrElse(c.clientName, ""))
  }

  /** The audit row a call writes: the agent code as `referrer_id`, amount 0. */
  function AuditWrite(c: NotifyCall, reference: string, status: CommissionStatus, responseData: Option<string>,
                      errorMessage: Option<string>, retryCount: nat): CommissionWrite {
    CommissionWrite(c.userId, c.agentCode, reference, c.userEmail, 0, status, responseData, errorMessage, retryCount)
  }

  function Repeat(p: CommissionPayload, n: nat): (r: seq<CommissionPayload>)
    ensures |r| == n && forall i :: 0 <= i < n ==> r[i] == p
  {
    if n == 0 then [] else Repeat(p, n - 1) + [p]
  }

  /** `notifyAffiliateSystem(...)` as a function of the tables it starts from. */
  function Notify(t: Tables, cfg: AffiliateConfig, c: NotifyCall, env: NotifyEnv): NotifyOutcome {
    if !ConfigComplete(cfg) then NotifyOutcome(NotifyResult(false, Some(ConfigMissingError)), [], [], t)
    else if HasCommissionBeenNotified(t.commissions, c.userId, c.paymentReference, env.lookupFails) then
      NotifyOutcome(NotifyResult(true, None), [], [], t)
    else
      var reference := UniqueReference(c, env);
      var run := RetryLoop(env.network, c.agentCode, 0, "", []);
      var sent := Repeat(BuildPayload(c, reference), Attempts(run));
      match run.exit
      case Delivered(data) =>
        var t1 := RecordAttempt(t, AuditWrite(c, reference, Success, Some(data), None, run.retryCount),
                                env.now, env.recordFails);
        NotifyOutcome(NotifyResult(true, None), sent, run.delays, MarkNotified(t1, c.userId, env.now, env.markFails))
      case _ =>
        var t1 := RecordAttempt(t, AuditWrite(c, reference, Failed, None, Some(run.lastError), run.retryCount),
                                env.now, env.recordFails);
        NotifyOutcome(NotifyResult(false, Some(run.lastError)), sent, run.delays, t1)
  }

  /** The `while (retryCount < MAX_RETRY_ATTEMPTS)` loop: POST the payload,
      stop at a 2xx or at a 404, 400 or 401, and otherwise remember the
      error and back off before the next attempt. It reports where it
      stopped and every POST it made. */
  method PostWithRetries(network: nat -> Attempt, agentCode: string, payload: CommissionPayload)
    returns (run: LoopRun, sent: seq<CommissionPayload>)
    ensures run == RetryLoop(network, agentCode, 0, "", [])
    ensures sent == Repeat(payload, Attempts(run))
  {
    var lastError := "";
    var retryCount: nat := 0;
    var delays: seq<nat> := [];
    sent := [];
    while retryCount < MaxRetryAttempts
      invariant retryCount <= MaxRetryAttempts
      invariant RetryLoop(network, agentCode, retryCount, lastError, delays) == RetryLoop(network, agentCode, 0, "", [])
      invariant sent == Repeat(payload, retryCount)
      decreases MaxRetryAttempts - retryCount
    {
      var response := network(retryCount);
      sent := sent + [payload];
      if response.Response? && IsOk(response.status) {
        return LoopRun(Delivered(response.data), retryCount, lastError, delays), sent;
      }
      if response.Response? && response.status == 404 {
        lastError := InvalidAgentError(agentCode);
        return LoopRun(Rejected, retryCount, lastError, delays), sent;
      }
      if response.Response? && (response.status == 400 || response.status == 401) {
        lastError := HttpError(response.status, response.data);
        return LoopRun(Rejected, retryCount, lastError, delays), sent;
      }
      RetryLoopTransientStep(network, agentCode, retryCount, lastError, delays);
      if response.Response? && response.status >= 500 {
        lastError := HttpError(response.status, response.data);
        retryCount := retryCount + 1;
        if retryCount < MaxRetryAttempts {
          delays := delays + [BackoffDelay(retryCount)];
        }
        continue;
      }
      if response.Response? {
        // other non-OK responses
        lastError := HttpError(response.status, response.data);
      } else {
        // the thrown network error
        lastError := response.message;
      }
      retryCount := retryCount + 1;
      if retryCount < MaxRetryAttempts {
        delays := delays + [BackoffDelay(retryCount)];
      }
    }
    return LoopRun(Exhausted, retryCount, lastError, delays), sent;
  }

  /** The notifier itself: the configuration and idempotency gates, the
      retry loop, the audit write of the outcome and, after a delivery, the
      profile flag. */
  method NotifyAffiliateSystem(db: Database, cfg: AffiliateConfig, c: NotifyCall, env: NotifyEnv)
    returns (result: NotifyResult, sent: seq<CommissionPayload>, delays: seq<nat>)
    modifies db
    ensures var o := Notify(old(db.Snapshot()), cfg, c, env);
      result == o.result && sent == o.sent && delays == o.delays && db.Snapshot() == o.tables
  {
    if !(cfg.apiUrl != "" && cfg.apiSecret != "") {
      return NotifyResult(false, Some(ConfigMissingError)), [], [];
    }
    var alreadyNotified := HasCommissionBeenNotified(db.commissions, c.userId, c.paymentReference, env.lookupFails);
    if alreadyNotified {
      return NotifyResult(true, None), [], [];
    }
    var reference := UniqueReference(c, env);
    var run;
    run, sent := PostWithRetries(env.network, c.agentCode, BuildPayload(c, reference));
    delays := run.delays;
    if run.exit.Delivered? {
      RecordCommissionNotification(db, AuditWrite(c, reference, Success, Some(run.exit.responseData), None,
                                                  run.retryCount), env.now, env.recordFails);
      MarkCommissionNotified(db, c.userId, env.now, env.markFails);
      result := NotifyResult(true, None);
    } else {
      RecordCommissionNotification(db, AuditWrite(c, reference, Failed, None, Some(run.lastError), run.retryCount),
                                   env.now, env.recordFails);
      result := NotifyResult(false, Some(run.lastError));
    }
  }

  /** One transient attempt moves the loop to the next one with that
      attempt's error and, unless it was the last, one more backoff. */
  lemma RetryLoopTransientStep(network: nat -> Attempt, agentCode: string, retryCount: nat, lastError: string,
                               delays: seq<nat>)
    requires retryCount < MaxRetryAttempts && IsTransient(network(retryCount))
    ensures var next := retryCount + 1;
      RetryLoop(network, agentCode, retryCount, lastError, delays)
        == RetryLoop(network, agentCode, next, AttemptError(agentCode, network(retryCount)),
                     delays + (if next < MaxRetryAttempts then [BackoffDelay(next)] else []))
  {
  }

  /** A call is ready to POST when the configuration is complete and the
      idempotency check finds no `success` row. */
  predicate Ready(t: Tables, cfg: AffiliateConfig, c: NotifyCall, env: NotifyEnv) {
    ConfigComplete(cfg) && !HasCommissionBeenNotified(t.commissions, c.userId, c.paymentReference, env.lookupFails)
  }

  /** A call POSTs exactly when it is ready. Otherwise it sends nothing,
      waits for nothing and writes nothing, and it fails only for a missing
      configuration. When it POSTs, it sends the same payload one to three
      times and waits one backoff less than it posts. */
  lemma NotifyPostsIffReady(t: Tables, cfg: AffiliateConfig, c: NotifyCall, env: NotifyEnv)
    ensures var o := Notify(t, cfg, c, env);
      && (o.sent != [] <==> Ready(t, cfg, c, env))
      && (!Ready(t, cfg, c, env) ==> o.delays == [] && o.tables == t
                                     && o.result == NotifyResult(ConfigComplete(cfg),
                                                                 if ConfigComplete(cfg) then None else Some(ConfigMissingError)))
      && (Ready(t, cfg, c, env) ==> 1 <= |o.sent| <= MaxRetryAttempts && |o.delays| == |o.sent| - 1
                                    && forall i :: 0 <= i < |o.sent| ==> o.sent[i] == BuildPayload(c, UniqueReference(c, env)))
  {
    RetryLoopFromStart(env.network, c.agentCode);
  }

  /** Three transient failures: exactly three POSTs, backoffs of exactly
      2000 and 4000 ms, failure with the last error, and one `failed` audit
      row with `retry_count = 3`; the profiles are untouched. */
  lemma NotifyExhausted(t: Tables, cfg: AffiliateConfig, c: NotifyCall, env: NotifyEnv)
    requires TablesValid(t) && Ready(t, cfg, c, env) && !env.recordFails
    requires forall k :: 0 <= k < MaxRetryAttempts ==> IsTransient(env.network(k))
    ensures var o := Notify(t, cfg, c, env);
      && |o.sent| == 3 && o.delays == [2000, 4000]
      && o.result == NotifyResult(false, Some(AttemptError(c.agentCode, env.network(2))))
      && TablesValid(o.tables) && o.tables.profiles == t.profiles
      && Lookup(o.tables.commissions, (c.userId, UniqueReference(c, env))).Some?
      && var row := Lookup(o.tables.commissions, (c.userId, UniqueReference(c, env))).value;
         row.status == Failed && row.retryCount == 3 && row.errorMessage == o.result.error
  {
    RetryLoopFromStart(env.network, c.agentCode);
    RetryLoopFacts(env.network, c.agentCode, 0, "", []);
    var run := RetryLoop(env.network, c.agentCode, 0, "", []);
    RecordAttemptFacts(t, AuditWrite(c, UniqueReference(c, env), Failed, None, Some(run.lastError), run.retryCount), env.now);
  }

  /** A 404, 400 or 401 at attempt k (after k transient failures) stops the
      loop: k + 1 POSTs, k backoffs, and one `failed` row whose
      `retry_count` is k; the profiles are untouched. */
  lemma NotifyRejected(t: Tables, cfg: AffiliateConfig, c: NotifyCall, env: NotifyEnv, k: nat)
    requires TablesValid(t) && Ready(t, cfg, c, env) && !env.recordFails
    requires k < MaxRetryAttempts && env.network(k).Response? && IsPermanent(env.network(k).status)
    requires forall j :: 0 <= j < k ==> IsTransient(env.network(j))
    ensures var o := Notify(t, cfg, c, env);
      && |o.sent| == k + 1 && |o.delays| == k
      && o.result == NotifyResult(false, Some(AttemptError(c.agentCode, env.network(k))))
      && TablesValid(o.tables) && o.tables.profiles == t.profiles
      && Lookup(o.tables.commissions, (c.userId, UniqueReference(c, env))).Some?
      && var row := Lookup(o.tables.commissions, (c.userId, UniqueReference(c, env))).value;
         row.status == Failed && row.retryCount == k && row.errorMessage == o.result.error
  {
    RetryLoopFromStart(env.network, c.agentCode);
    LoopStopsAtFirstFinalAttempt(env.network, c.agentCode, k);
    var run := RetryLoop(env.network, c.agentCode, 0, "", []);
    RecordAttemptFacts(t, AuditWrite(c, UniqueReference(c, env), Failed, None, Some(run.lastError), run.retryCount), env.now);
  }

  /** A 2xx at attempt k (after k transient failures): success, k + 1
      POSTs, one `success` row with `retry_count = k` holding the response,
      and then the profile's `commission_notified` flag. */
  lemma NotifyDelivered(t: Tables, cfg: AffiliateConfig, c: NotifyCall, env: NotifyEnv, k: nat)
    requires TablesValid(t) && Ready(t, cfg, c, env) && !env.recordFails
    requires k < MaxRetryAttempts && env.network(k).Response? && IsOk(env.network(k).status)
    requires forall j :: 0 <= j < k ==> IsTransient(env.network(j))
    ensures var o := Notify(t, cfg, c, env);
      && |o.sent| == k + 1 && |o.delays| == k
      && o.result == NotifyResult(true, None)
      && TablesValid(o.tables)
      && Lookup(o.tables.commissions, (c.userId, UniqueReference(c, env))).Some?
      && (var row := Lookup(o.tables.commissions, (c.userId, UniqueReference(c, env))).value;
          row.status == Success && row.retryCount == k && row.responseData == Some(env.network(k).data))
      && o.tables.profiles == MarkNotified(t, c.userId, env.now, env.markFails).profiles
      && (!env.markFails && c.userId in t.profiles ==> o.tables.profiles[c.userId].commissionNotified)
  {
    RetryLoopFromStart(env.network, c.agentCode);
    LoopStopsAtFirstFinalAttempt(env.network, c.agentCode, k);
    var run := RetryLoop(env.network, c.agentCode, 0, "", []);
    var w := AuditWrite(c, UniqueReference(c, env), Success, Some(env.network(k).data), None, run.retryCount);
    RecordAttemptFacts(t, w, env.now);
    UpdateWhereUserIdFacts(t.profiles, c.userId, NotifiedPatch(env.now));
  }

  /** `markCommissionNotified` runs on the delivery path only: a call that
      does not succeed after POSTing leaves the profiles as they were, and
      no call touches the links or the in-app notifications. */
  lemma NotifyProfilesChangeOnlyOnDelivery(t: Tables, cfg: AffiliateConfig, c: NotifyCall, env: NotifyEnv)
    ensures var o := Notify(t, cfg, c, env);
      && (o.tables.profiles != t.profiles ==> o.result.success && o.sent != [])
      && o.tables.links == t.links && o.tables.notifications == t.notifications
  {
    RetryLoopFromStart(env.network, c.agentCode);
  }

  /** Idempotency: once a call with a given reference has been delivered
      and recorded, any later call for the same user and reference whose
      idempotency query succeeds returns success without a POST and without
      a write. */
  lemma NotifyIdempotent(t: Tables, cfg: AffiliateConfig, c: NotifyCall, env1: NotifyEnv, env2: NotifyEnv)
    requires TablesValid(t) && c.paymentReference != ""
    requires !env1.recordFails && !env2.lookupFails
    requires Notify(t, cfg, c, env1).result.success && Notify(t, cfg, c, env1).sent != []
    ensures var t1 := Notify(t, cfg, c, env1).tables;
      Notify(t1, cfg, c, env2) == NotifyOutcome(NotifyResult(true, None), [], [], t1)
  {
    NotifyPostsIffReady(t, cfg, c, env1);
    RetryLoopFromStart(env1.network, c.agentCode);
    var run := RetryLoop(env1.network, c.agentCode, 0, "", []);
    var w := AuditWrite(c, c.paymentReference, Success, Some(run.exit.responseData), None, run.retryCount);
    RecordAttemptFacts(t, w, env1.now);
  }

  /** Without a payment reference, the idempotency check looks under the
      empty reference while the row is written under a generated `LCS_`
      reference, so a second call POSTs again even after a delivery. */
  lemma EmptyReferenceIsNotIdempotent(t: Tables, cfg: AffiliateConfig, c: NotifyCall, env1: NotifyEnv, env2: NotifyEnv)
    requires TablesValid(t) && c.paymentReference == "" && !env2.lookupFails
    requires Ready(t, cfg, c, env1) && Ready(t, cfg, c, env2)
    ensures Notify(Notify(t, cfg, c, env1).tables, cfg, c, env2).sent != []
  {
    var o1 := Notify(t, cfg, c, env1);
    RetryLoopFromStart(env1.network, c.agentCode);
    var run := RetryLoop(env1.network, c.agentCode, 0, "", []);
    var reference := UniqueReference(c, env1);
    assert reference != "";
    var w := if run.exit.Delivered? then AuditWrite(c, reference, Success, Some(run.exit.responseData), None, run.retryCount)
             else AuditWrite(c, reference, Failed, None, Some(run.lastError), run.retryCount);
    if !env1.recordFails {
      RecordAttemptFacts(t, w, env1.now);
      assert WriteKey(w) != (c.userId, "");
    }
    assert o1.tables.commissions == t.commissions || o1.tables.commissions == RecordAttempt(t, w, env1.now, false).commissions;
    NotifyPostsIffReady(o1.tables, cfg, c, env2);
  }

  // ---------------------------------------------------------------------
  // retryFailedCommissions

  /** The select of the sweep: `failed` rows with `retry_count < 3`, oldest
      first, at most `limit` of them. */
  function SelectRetryable(rows: seq<CommissionRow>, limit: nat): (r: seq<CommissionRow>)
    ensures |r| <= limit
    ensures forall i :: 0 <= i < |r| ==> r[i] in rows && r[i].status == Failed && r[i].retryCount < MaxRetryAttempts
    ensures var f := FailedBelow(rows, MaxRetryAttempts);
      |r| == (if |f| <= limit then |f| else limit) && r == f[..|r|]
  {
    var failed := FailedBelow(rows, MaxRetryAttempts);
    if |failed| <= limit then failed else failed[..limit]
  }

  /** The world one row of the sweep sees: the fault of its eligibility
      query and the world of its notify call. */
  datatype RowEnv = RowEnv(profileLookupFails: bool, notify: NotifyEnv)

  datatype SweepRun = SweepRun(tables: Tables, successCount: nat, sent: seq<CommissionPayload>)

  /** One row of the sweep: re-check eligibility against the current
      profiles, then re-drive the notifier with the row's reference. */
  function RetryRow(t: Tables, cfg: AffiliateConfig, row: CommissionRow, env: RowEnv): (bool, NotifyOutcome) {
    var check := ShouldNotifyAffiliate(t.profiles, row.userId, env.profileLookupFails);
    if !check.should || !Truthy(check.agentCode) || !Truthy(check.email) || check.planType.None? then
      (false, NotifyOutcome(NotifyResult(false, None), [], [], t))
    else
      (true, Notify(t, cfg, NotifyCall(row.userId, check.agentCode.value, check.email.value, check.planType.value,
                                       row.paymentReference, Some(OrElse(check.clientName, ""))), env.notify))
  }

  /** The state after the first n selected rows, each seeing the tables the
      previous ones left. */
  function SweepPrefix(t: Tables, cfg: AffiliateConfig, rows: seq<CommissionRow>, envs: nat -> RowEnv, n: nat)
    : SweepRun
    requires n <= |rows|
  {
    if n == 0 then SweepRun(t, 0, [])
    else
      var before := SweepPrefix(t, cfg, rows, envs, n - 1);
      var (_, o) := RetryRow(before.tables, cfg, rows[n - 1], envs(n - 1));
      SweepRun(o.tables, before.successCount + (if o.result.success then 1 else 0), before.sent + o.sent)
  }

  /** `retryFailedCommissions(limit)` as a function of the tables. */
  function Sweep(t: Tables, cfg: AffiliateConfig, limit: nat, selectFails: bool, envs: nat -> RowEnv): SweepRun {
    if selectFails then SweepRun(t, 0, [])
    else
      var rows := SelectRetryable(t.commissions, limit);
      SweepPrefix(t, cfg, rows, envs, |rows|)
  }

  lemma SweepPrefixStep(t: Tables, cfg: AffiliateConfig, rows: seq<CommissionRow>, envs: nat -> RowEnv, n: nat)
    requires n < |rows|
    ensures var before := SweepPrefix(t, cfg, rows, envs, n);
      var o := RetryRow(before.tables, cfg, rows[n], envs(n)).1;
      SweepPrefix(t, cfg, rows, envs, n + 1)
        == SweepRun(o.tables, before.successCount + (if o.result.success then 1 else 0), before.sent + o.sent)
  {
  }

  method RetryFailedCommissions(db: Database, cfg: AffiliateConfig, limit: nat, selectFails: bool, envs: nat -> RowEnv)
    returns (successCount: nat, sent: seq<CommissionPayload>)
    modifies db
    ensures var s := Sweep(old(db.Snapshot()), cfg, limit, selectFails, envs);
      db.Snapshot() == s.tables && successCount == s.successCount && sent == s.sent
  {
    if selectFails {
      return 0, [];
    }
    var failedNotifications := SelectRetryable(db.commissions, limit);
    ghost var start := db.Snapshot();
    successCount, sent := 0, [];
    var i := 0;
    while i < |failedNotifications|
      invariant i <= |failedNotifications|
      invariant SweepPrefix(start, cfg, failedNotifications, envs, i) == SweepRun(db.Snapshot(), successCount, sent)
    {
      var notification := failedNotifications[i];
      ghost var before := SweepPrefix(start, cfg, failedNotifications, envs, i);
      ghost var step := RetryRow(before.tables, cfg, notification, envs(i)).1;
      SweepPrefixStep(start, cfg, failedNotifications, envs, i);
      var affiliateCheck := ShouldNotifyAffiliate(db.profiles, notification.userId, envs(i).profileLookupFails);
      if !affiliateCheck.should || !Truthy(affiliateCheck.agentCode) || !Truthy(affiliateCheck.email)
         || affiliateCheck.planType.None? {
        assert step == NotifyOutcome(NotifyResult(false, None), [], [], before.tables);
        assert SweepPrefix(start, cfg, failedNotifications, envs, i + 1) == SweepRun(db.Snapshot(), successCount, sent);
        i := i + 1;
        continue;
      }
      var call := NotifyCall(notification.userId, affiliateCheck.agentCode.value, affiliateCheck.email.value,
                             affiliateCheck.planType.value, notification.paymentReference,
                             Some(OrElse(affiliateCheck.clientName, "")));
      assert step == Notify(before.tables, cfg, call, envs(i).notify);
      var result, posts, _ := NotifyAffiliateSystem(db, cfg, call, envs(i).notify);
      assert result == step.result && posts == step.sent && db.Snapshot() == step.tables;
      if result.success {
        successCount := successCount + 1;
      }
      sent := sent + posts;
      assert SweepPrefix(start, cfg, failedNotifications, envs, i + 1) == SweepRun(db.Snapshot(), successCount, sent);
      i := i + 1;
    }
  }

  /** The count the sweep returns is at most the number of rows it selected,
      hence at most `limit`; it makes at most three POSTs per selected row,
      and a row whose user is not eligible makes none. */
  lemma {:induction false} SweepPrefixBounded(t: Tables, cfg: AffiliateConfig, rows: seq<CommissionRow>,
                                              envs: nat -> RowEnv, n: nat)
    requires n <= |rows|
    ensures SweepPrefix(t, cfg, rows, envs, n).successCount <= n
    ensures |SweepPrefix(t, cfg, rows, envs, n).sent| <= MaxRetryAttempts * n
  {
    if n > 0 {
      SweepPrefixBounded(t, cfg, rows, envs, n - 1);
      var before := SweepPrefix(t, cfg, rows, envs, n - 1);
      var o := RetryRow(before.tables, cfg, rows[n - 1], envs(n - 1)).1;
      assert |o.sent| <= MaxRetryAttempts by {
        RetryRowPostsAtMostThree(before.tables, cfg, rows[n - 1], envs(n - 1));
      }
      var now := SweepPrefix(t, cfg, rows, envs, n);
      assert now.successCount <= before.successCount + 1 && |now.sent| == |before.sent| + |o.sent| by {
        SweepPrefixStep(t, cfg, rows, envs, n - 1);
      }
    }
  }

  /** One row of the sweep POSTs at most three times, and a row whose user
      no longer qualifies is skipped: no POST, no write, no count. */
  lemma RetryRowPostsAtMostThree(t: Tables, cfg: AffiliateConfig, row: CommissionRow, env: RowEnv)
    ensures |RetryRow(t, cfg, row, env).1.sent| <= MaxRetryAttempts
    ensures !ShouldNotifyAffiliate(t.profiles, row.userId, env.profileLookupFails).should ==>
      RetryRow(t, cfg, row, env) == (false, NotifyOutcome(NotifyResult(false, None), [], [], t))
  {
    var check := ShouldNotifyAffiliate(t.profiles, row.userId, env.profileLookupFails);
    if check.should && Truthy(check.agentCode) && Truthy(check.email) && check.planType.Some? {
      var c := NotifyCall(row.userId, check.agentCode.value, check.email.value, check.planType.value,
                          row.paymentReference, Some(OrElse(check.clientName, "")));
      NotifyPostsIffReady(t, cfg, c, env.notify);
    }
  }

  lemma SweepBounded(t: Tables, cfg: AffiliateConfig, limit: nat, selectFails: bool, envs: nat -> RowEnv)
    ensures Sweep(t, cfg, limit, selectFails, envs).successCount <= limit
    ensures |Sweep(t, cfg, limit, selectFails, envs).sent| <= MaxRetryAttempts * limit
    ensures selectFails ==> Sweep(t, cfg, limit, selectFails, envs) == SweepRun(t, 0, [])
  {
    if !selectFails {
      var rows := SelectRetryable(t.commissions, limit);
      SweepPrefixBounded(t, cfg, rows, envs, |rows|);
    }
  }

  /** A row that an in-line call leaves exhausted (`retry_count = 3`) is
      never selected by the sweep: nothing the sweep selects has its key. */
  lemma ExhaustedRowIsNeverSelected(t: Tables, cfg: AffiliateConfig, c: NotifyCall, env: NotifyEnv, limit: nat)
    requires TablesValid(t) && Ready(t, cfg, c, env) && !env.recordFails
    requires forall k :: 0 <= k < MaxRetryAttempts ==> IsTransient(env.network(k))
    ensures var o := Notify(t, cfg, c, env);
      forall r :: r in SelectRetryable(o.tables.commissions, limit) ==> RowKey(r) != (c.userId, UniqueReference(c, env))
  {
    NotifyExhausted(t, cfg, c, env);
    var o := Notify(t, cfg, c, env);
    var key := (c.userId, UniqueReference(c, env));
    forall r | r in SelectRetryable(o.tables.commissions, limit)
      ensures RowKey(r) != key
    {
      if RowKey(r) == key {
        var i :| 0 <= i < |o.tables.commissions| && o.tables.commissions[i] == r;
        LookupFindsEveryRow(o.tables.commissions, i);
      }
    }
  }

  /** A row rejected with a 404, 400 or 401 on its first attempt is stored as
      `failed` with `retry_count = 0`, so the sweep's filter keeps it, and a
      sweep whose limit covers every retryable row selects it again,
      although the rejection is permanent. */
  lemma RejectedRowIsReselected(t: Tables, cfg: AffiliateConfig, c: NotifyCall, env: NotifyEnv, limit: nat)
    requires TablesValid(t) && Ready(t, cfg, c, env) && !env.recordFails
    requires env.network(0).Response? && IsPermanent(env.network(0).status)
    ensures var o := Notify(t, cfg, c, env);
      exists r :: r in FailedBelow(o.tables.commissions, MaxRetryAttempts) && RowKey(r) == (c.userId, UniqueReference(c, env))
    ensures var o := Notify(t, cfg, c, env);
      |FailedBelow(o.tables.commissions, MaxRetryAttempts)| <= limit ==>
        exists r :: r in SelectRetryable(o.tables.commissions, limit) && RowKey(r) == (c.userId, UniqueReference(c, env))
  {
    NotifyRejected(t, cfg, c, env, 0);
    var o := Notify(t, cfg, c, env);
    var row := Lookup(o.tables.commissions, (c.userId, UniqueReference(c, env))).value;
    var i :| 0 <= i < |o.tables.commissions| && o.tables.commissions[i] == row;
    FailedBelowComplete(o.tables.commissions, MaxRetryAttempts, i);
    if |FailedBelow(o.tables.commissions, MaxRetryAttempts)| <= limit {
      assert SelectRetryable(o.tables.commissions, limit) == FailedBelow(o.tables.commissions, MaxRetryAttempts);
    }
  }

  /** The stored `retry_count` is overwritten with the new call's counter, so
      it can go down: a row at any count that is re-driven and rejected on
      the first attempt ends at 0. */
  lemma RetryCountCanDecrease(t: Tables, cfg: AffiliateConfig, c: NotifyCall, env: NotifyEnv)
    requires TablesValid(t) && Ready(t, cfg, c, env) && !env.recordFails
    requires env.network(0).Response? && IsPermanent(env.network(0).status)
    requires Lookup(t.commissions, (c.userId, UniqueReference(c, env))).Some?
    ensures var key := (c.userId, UniqueReference(c, env));
      var before := Lookup(t.commissions, key).value;
      && Lookup(Notify(t, cfg, c, env).tables.commissions, key).Some?
      && var after := Lookup(Notify(t, cfg, c, env).tables.commissions, key).value;
         after.retryCount == 0 && after.retryCount <= before.retryCount && after.createdAt == before.createdAt
  {
    NotifyRejected(t, cfg, c, env, 0);
    var run := RetryLoop(env.network, c.agentCode, 0, "", []);
    LoopStopsAtFirstFinalAttempt(env.network, c.agentCode, 0);
    UpsertFacts(t.commissions, AuditWrite(c, UniqueReference(c, env), Failed, None, Some(run.lastError), 0), env.now);
  }
}
