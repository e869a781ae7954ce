/** components/PublicTrackerClientFixed.tsx: the lead-source classifier and
    the lead form's submit handler. */
module PublicTracker {
  import opened Common
  import opened Text

  // ---------------------------------------------------------------------
  // detectLeadSource

  /** What the classifier reads: whether it runs in a browser, the four
      query parameters (null when absent) and `document.referrer`. */
  datatype LeadContext = LeadContext(inBrowser: bool, source: Option<string>, utmSource: Option<string>,
                                     src: Option<string>, platform: Option<string>, referrer: string)

  /** A category: the two substrings that select it and its label. */
  datatype Category = Category(needle1: string, needle2: string, name: string)

  /** The categories in the order they are tried. */
  const Categories: seq<Category> := [
    Category("facebook", "fb.", "Facebook"),
    Category("whatsapp", "wa.me", "WhatsApp"),
    Category("instagram", "insta", "Instagram"),
    Category("youtube", "youtu", "YouTube"),
    Category("tiktok", "tik tok", "TikTok"),
    Category("email", "mail", "Email")
  ]

  predicate Matches(candidate: string, c: Category) {
    Contains(candidate, c.needle1) || Contains(candidate, c.needle2)
  }

  /** The label of the first category in `cats` that matches. */
  function Classify(candidate: string, cats: seq<Category>): Option<string> {
    if cats == [] then None
    else if Matches(candidate, cats[0]) then Some(cats[0].name)
    else Classify(candidate, cats[1..])
  }

  /** `source || utm_source || src || platform || ''`. */
  function ExplicitSource(ctx: LeadContext): string {
    OrElse(ctx.source, OrElse(ctx.utmSource, OrElse(ctx.src, OrElse(ctx.platform, ""))))
  }

  /** `String(explicitSource || document.referrer || '').trim().toLowerCase()`. */
  function Candidate(ctx: LeadContext): string {
    var explicit := ExplicitSource(ctx);
    ToLower(Trim(if explicit != "" then explicit else ctx.referrer))
  }

  /** The explicit source with '-' and '_' as spaces, trimmed, its first
      character upper-cased. */
  function Prettify(explicit: string): string {
    Capitalize(Trim(DashesToSpaces(explicit)))
  }

  /** `s.charAt(0).toUpperCase() + s.slice(1)`. */
  function Capitalize(s: string): string {
    if s == "" then "" else [UpperChar(s[0])] + s[1..]
  }

  /** `detectLeadSource()` against a category table. */
  function DetectWith(ctx: LeadContext, cats: seq<Category>): string {
    if !ctx.inBrowser then ""
    else
      var candidate := Candidate(ctx);
      if candidate == "" then ""
      else
        match Classify(candidate, cats)
        case Some(name) => name
        case None => if ExplicitSource(ctx) != "" then Prettify(ExplicitSource(ctx)) else ""
  }

  function DetectLeadSource(ctx: LeadContext): string {
    DetectWith(ctx, Categories)
  }

  /** First match wins: `Classify` yields a category's label exactly when
      that category matches and no earlier one does. */
  lemma {:induction false} ClassifyIsFirstMatch(candidate: string, cats: seq<Category>, i: nat)
    requires i < |cats|
    ensures (Matches(candidate, cats[i]) && forall j :: 0 <= j < i ==> !Matches(candidate, cats[j]))
            ==> Classify(candidate, cats) == Some(cats[i].name)
    ensures Classify(candidate, cats).None? <==> forall j :: 0 <= j < |cats| ==> !Matches(candidate, cats[j])
  {
    if i > 0 && !Matches(candidate, cats[0]) {
      ClassifyIsFirstMatch(candidate, cats[1..], i - 1);
    } else if i == 0 && |cats| > 1 {
      ClassifyIsFirstMatch(candidate, cats[1..], 0);
    } else if i > 0 {
      ClassifyIsFirstMatch(candidate, cats[1..], i - 1);
    }
    assert forall j :: 1 <= j < |cats| ==> cats[j] == cats[1..][j - 1];
  }

  /** Once '-' and '_' are spaces, trimming cannot bring one back. */
  lemma CleanHasNoDash(explicit: string)
    ensures var clean := Trim(DashesToSpaces(explicit));
      forall i :: 0 <= i < |clean| ==> clean[i] != '-' && clean[i] != '_'
  {
    var d := DashesToSpaces(explicit);
    var clean := Trim(d);
    var k := TrimIsInfix(d);
    assert forall i :: 0 <= i < |clean| ==> clean[i] == d[k + i];
  }

  /** The cleaned fallback label has no '-' or '_', no blank at either end,
      and does not start with a lower-case ASCII letter. */
  lemma PrettifyFacts(explicit: string)
    ensures var r := Prettify(explicit);
      && (forall i :: 0 <= i < |r| ==> r[i] != '-' && r[i] != '_')
      && (r != [] ==> !IsJsSpace(r[|r| - 1]) && !IsLowerAscii(r[0]))
      && (r == [] <==> AllSpace(DashesToSpaces(explicit)))
  {
    var clean := Trim(DashesToSpaces(explicit));
    assert forall i :: 0 <= i < |clean| ==> clean[i] != '-' && clean[i] != '_' by {
      CleanHasNoDash(explicit);
    }
    CapitalizeFacts(clean);
  }

  /** Capitalizing keeps the length and brings in no '-', '_' or trailing
      blank; what it returns never starts with a lower-case ASCII letter. */
  lemma CapitalizeFacts(s: string)
    requires forall i :: 0 <= i < |s| ==> s[i] != '-' && s[i] != '_'
    requires s != [] ==> !IsJsSpace(s[|s| - 1])
    ensures var r := Capitalize(s);
      && |r| == |s|
      && (forall i :: 0 <= i < |r| ==> r[i] != '-' && r[i] != '_')
      && (r != [] ==> !IsJsSpace(r[|r| - 1]) && !IsLowerAscii(r[0]))
  {
    if s != "" {
      var r := Capitalize(s);
      var u := UpperChar(s[0]);
      assert r == [u] + s[1..];
      assert u == s[0] || IsUpperAscii(u);
      forall i | 0 <= i < |r| ensures r[i] != '-' && r[i] != '_' {
        if i > 0 { assert r[i] == s[i]; }
      }
      if |s| > 1 {
        assert r[|r| - 1] == s[|s| - 1];
      }
    }
  }

  /** What the classifier returns: '' outside a browser or for a blank
      candidate; otherwise a category label, or — only when an explicit
      source was given and nothing matched — that source prettified. A
      referrer that matches nothing yields ''. */
  lemma DetectWithFacts(ctx: LeadContext, cats: seq<Category>)
    ensures var r := DetectWith(ctx, cats);
      && (!ctx.inBrowser || AllSpace(if ExplicitSource(ctx) != "" then ExplicitSource(ctx) else ctx.referrer) ==> r == "")
      && (r != "" ==> (exists i :: 0 <= i < |cats| && r == cats[i].name)
                      || (ExplicitSource(ctx) != "" && r == Prettify(ExplicitSource(ctx))
                          && Classify(Candidate(ctx), cats).None?))
      && (ExplicitSource(ctx) == "" && Classify(Candidate(ctx), cats).None? ==> r == "")
  {
    var explicit := ExplicitSource(ctx);
    var raw := if explicit != "" then explicit else ctx.referrer;
    var r := DetectWith(ctx, cats);
    assert !ctx.inBrowser || AllSpace(raw) ==> r == "" by {
      if ctx.inBrowser && AllSpace(raw) {
        assert Trim(raw) == "";
        assert Candidate(ctx) == "";
      }
    }
    var c := Classify(Candidate(ctx), cats);
    assert c.Some? ==> exists i :: 0 <= i < |cats| && c.value == cats[i].name by {
      if c.Some? {
        ClassifyLabel(Candidate(ctx), cats);
      }
    }
  }

  lemma DetectLeadSourceFacts(ctx: LeadContext)
    ensures var r := DetectLeadSource(ctx);
      && (!ctx.inBrowser || AllSpace(if ExplicitSource(ctx) != "" then ExplicitSource(ctx) else ctx.referrer) ==> r == "")
      && (r != "" ==> (exists i :: 0 <= i < |Categories| && r == Categories[i].name)
                      || (ExplicitSource(ctx) != "" && r == Prettify(ExplicitSource(ctx))
                          && Classify(Candidate(ctx), Categories).None?))
      && (ExplicitSource(ctx) == "" && Classify(Candidate(ctx), Categories).None? ==> r == "")
  {
    DetectWithFacts(ctx, Categories);
  }

  lemma {:induction false} ClassifyLabel(candidate: string, cats: seq<Category>)
    requires Classify(candidate, cats).Some?
    ensures exists i :: 0 <= i < |cats| && Classify(candidate, cats).value == cats[i].name
  {
    if !Matches(candidate, cats[0]) {
      ClassifyLabel(candidate, cats[1..]);
      var i :| 0 <= i < |cats[1..]| && Classify(candidate, cats[1..]).value == cats[1..][i].name;
      assert cats[1..][i] == cats[i + 1];
    } else {
      assert Classify(candidate, cats).value == cats[0].name;
    }
  }

  /** An explicit source outranks the referrer: once a query parameter
      names a source, the referrer has no effect. */
  lemma ExplicitSourceOutranksReferrer(ctx: LeadContext, referrer: string)
    requires ExplicitSource(ctx) != ""
    ensures DetectLeadSource(ctx.(referrer := referrer)) == DetectLeadSource(ctx)
  {
  }

  // ---------------------------------------------------------------------
  // handleSubmit

  const NameError: string := "Please enter your full name."
  const PhoneError: string := "Please enter a valid phone number."
  const SubmitError: string := "Unable to submit right now. Please try again."
  const LockedDefault: string := "This page is temporarily unavailable."
  const MinNameLength: nat := 2
  const MinPhoneLength: nat := 7

  /** The JSON of the reply as read; every field is `None` when the body
      does not parse (`{}`). */
  datatype SubmitJson = SubmitJson(code: Option<string>, message: Option<string>, error: Option<string>,
                                   targetUrl: Option<string>)

  /** What `fetch` gives: an exception, or a status with its JSON. */
  datatype SubmitResponse = FetchThrew | Answered(ok: bool, status: nat, json: SubmitJson)

  /** The request `handleSubmit` posts. */
  datatype TrackRequest = TrackRequest(url: string, name: string, phone: string, source: string)

  /** The component state `handleSubmit` sets, and the page it navigates
      to (`window.location.href`). */
  datatype FormState = FormState(error: string, lockedMessage: string, submitted: bool, submitting: bool,
                                 location: Option<string>)

  predicate IsLockCode(code: Option<string>) {
    code == Some("free_limit_reached") || code == Some("plan_limit_reached")
  }

  /** One submit as a function of the state before it: the state after it
      and the request posted, if any. */
  function Submit(s: FormState, name: string, phone: string, slug: string, targetUrl: string, source: string,
                  response: SubmitResponse): (FormState, Option<TrackRequest>)
  {
    var cleared := s.(error := "", lockedMessage := "");
    var trimmedName := Trim(name);
    var trimmedPhone := Trim(phone);
    if trimmedName == "" || Utf16Length(trimmedName) < MinNameLength then (cleared.(error := NameError), None)
    else if trimmedPhone == "" || Utf16Length(trimmedPhone) < MinPhoneLength then (cleared.(error := PhoneError), None)
    else
      var request := TrackRequest("/api/track/" + slug, trimmedName, trimmedPhone, source);
      (AfterReply(cleared, targetUrl, response), Some(request))
  }

  /** The state once the reply to a posted request has been handled. */
  function AfterReply(s: FormState, targetUrl: string, response: SubmitResponse): FormState {
    var done := s.(submitting := false);
    match response
    case FetchThrew => done.(error := SubmitError)
    case Answered(ok, status, json) =>
      if !ok then
        if status == 403 && IsLockCode(json.code) then done.(lockedMessage := OrElse(json.message, LockedDefault))
        else done.(error := OrElse(json.error, SubmitError))
      else done.(submitted := true, location := Some(OrElse(json.targetUrl, targetUrl)))
  }

  /** The lead form: its props, its inputs and the state its submit handler
      sets. */
  class TrackerForm {
    const slug: string
    const targetUrl: string
    var name: string
    var phone: string
    var error: string
    var lockedMessage: string
    var submitted: bool
    var submitting: bool
    var location: Option<string>

    function State(): FormState
      reads this
    {
      FormState(error, lockedMessage, submitted, submitting, location)
    }

    constructor (slug: string, targetUrl: string)
      ensures this.slug == slug && this.targetUrl == targetUrl && name == "" && phone == ""
      ensures State() == FormState("", "", false, false, None)
    {
      this.slug := slug;
      this.targetUrl := targetUrl;
      name, phone := "", "";
      error, lockedMessage := "", "";
      submitted, submitting := false, false;
      location := None;
    }

    method HandleSubmit(ctx: LeadContext, response: SubmitResponse) returns (posted: Option<TrackRequest>)
      modifies this
      ensures name == old(name) && phone == old(phone)
      ensures State() == Submit(old(State()), old(name), old(phone), slug, targetUrl, DetectLeadSource(ctx), response).0
      ensures posted == Submit(old(State()), old(name), old(phone), slug, targetUrl, DetectLeadSource(ctx), response).1
    {
      ghost var before := State();
      ghost var expected := Submit(before, name, phone, slug, targetUrl, DetectLeadSource(ctx), response);
      error := "";
      lockedMessage := "";
      var trimmedName := Trim(name);
      var trimmedPhone := Trim(phone);
      if trimmedName == "" || Utf16Length(trimmedName) < MinNameLength {
        error := NameError;
        assert expected == (State(), None);
        return None;
      }
      if trimmedPhone == "" || Utf16Length(trimmedPhone) < MinPhoneLength {
        error := PhoneError;
        assert expected == (State(), None);
        return None;
      }
      var source := DetectLeadSource(ctx);
      posted := Some(TrackRequest("/api/track/" + slug, trimmedName, trimmedPhone, source));
      ghost var cleared := State();
      assert expected == (AfterReply(cleared, targetUrl, response), posted);
      Send(response);
      assert State() == expected.0;
    }

    /** The fetch inside `try`/`finally`: set `submitting`, show the
        reply's outcome and clear `submitting` again. */
    method Send(response: SubmitResponse)
      modifies this
      ensures name == old(name) && phone == old(phone)
      ensures State() == AfterReply(old(State()), targetUrl, response)
    {
      submitting := true;
      match response {
        case FetchThrew =>
          error := SubmitError;
        case Answered(ok, status, json) =>
          if !ok {
            if status == 403 && IsLockCode(json.code) {
              lockedMessage := OrElse(json.message, LockedDefault);
            } else {
              error := OrElse(json.error, SubmitError);
            }
          } else {
            submitted := true;
            location := Some(OrElse(json.targetUrl, targetUrl));
          }
      }
      submitting := false;
    }
  }

  /** Validation comes first: a trimmed name under 2 UTF-16 units or a
      trimmed phone under 7 sets the matching message and posts nothing,
      leaving the rest of the state as it was. */
  lemma InvalidInputPostsNothing(s: FormState, name: string, phone: string, slug: string, targetUrl: string,
                                 source: string, response: SubmitResponse)
    requires Utf16Length(Trim(name)) < MinNameLength || Utf16Length(Trim(phone)) < MinPhoneLength
    ensures var o := Submit(s, name, phone, slug, targetUrl, source, response);
      var s2, posted := o.0, o.1;
      && posted.None?
      && s2 == s.(error := if Utf16Length(Trim(name)) < MinNameLength then NameError else PhoneError, lockedMessage := "")
  {
    var o := Submit(s, name, phone, slug, targetUrl, source, response);
    if Utf16Length(Trim(name)) < MinNameLength {
      assert o == (s.(error := NameError, lockedMessage := ""), None);
    } else {
      assert o == (s.(error := PhoneError, lockedMessage := ""), None);
    }
  }

  /** A posted request carries the trimmed inputs, long enough, to
      `/api/track/<slug>`, with the detected source. */
  lemma PostedRequestIsValid(s: FormState, name: string, phone: string, slug: string, targetUrl: string,
                             source: string, response: SubmitResponse)
    ensures var posted := Submit(s, name, phone, slug, targetUrl, source, response).1;
      posted.Some? ==>
        && posted.value == TrackRequest("/api/track/" + slug, Trim(name), Trim(phone), source)
        && Utf16Length(posted.value.name) >= MinNameLength && Utf16Length(posted.value.phone) >= MinPhoneLength
  {
  }

  /** Once a request is posted, exactly one outcome shows: an error, the
      locked message (403 with a plan-limit code, no navigation), or the
      redirect to the reply's `target_url`, else the page's own target. */
  lemma SubmitOutcomesAreExclusive(s: FormState, name: string, phone: string, slug: string, targetUrl: string,
                                   source: string, response: SubmitResponse)
    requires !s.submitted && s.location.None?
    ensures var o := Submit(s, name, phone, slug, targetUrl, source, response);
      var s2, posted := o.0, o.1;
      posted.Some? ==>
        && !s2.submitting
        && ((if s2.error != "" then 1 else 0) + (if s2.lockedMessage != "" then 1 else 0) + (if s2.submitted then 1 else 0) == 1)
        && (s2.lockedMessage != "" <==> response.Answered? && !response.ok && response.status == 403
                                        && IsLockCode(response.json.code))
        && (s2.submitted <==> response.Answered? && response.ok)
        && (s2.location.Some? <==> s2.submitted)
        && (s2.submitted ==> s2.location == Some(if Truthy(response.json.targetUrl) then response.json.targetUrl.value
                                                 else targetUrl))
  {
    var o := Submit(s, name, phone, slug, targetUrl, source, response);
    if o.1.Some? {
      var cleared := s.(error := "", lockedMessage := "");
      assert o.0 == AfterReply(cleared, targetUrl, response);
      AfterReplyOutcomes(cleared, targetUrl, response);
    }
  }

  lemma AfterReplyOutcomes(s: FormState, targetUrl: string, response: SubmitResponse)
    requires s.error == "" && s.lockedMessage == "" && !s.submitted && s.location.None?
    ensures var s2 := AfterReply(s, targetUrl, response);
      && !s2.submitting
      && ((if s2.error != "" then 1 else 0) + (if s2.lockedMessage != "" then 1 else 0) + (if s2.submitted then 1 else 0) == 1)
      && (s2.lockedMessage != "" <==> response.Answered? && !response.ok && response.status == 403
                                      && IsLockCode(response.json.code))
      && (s2.submitted <==> response.Answered? && response.ok)
      && (s2.location.Some? <==> s2.submitted)
      && (s2.submitted ==> s2.location == Some(if Truthy(response.json.targetUrl) then response.json.targetUrl.value
                                               else targetUrl))
  {
    assert SubmitError != "" && LockedDefault != "";
  }
}
