/**
 * What scripts/gtag.js promises, proved about the operations of module Gtag: the one-year
 * validity window, the two decisions of `init`, what the next page load does after an
 * accept, a reject or a reset, and that the tag is loaded at most once per page.
 */
module GtagProperties {
  import opened Wrappers
  import opened Browser
  import opened Gtag

  /** The first page load that reads `storage`, at time `now`. */
  function NextLoad(storage: map<string, string>, now: int, config: Config): Page {
    AfterInit(Page(Unstarted, Loaded(storage, now)), config)
  }

  // ---------------------------------------------------------------------------
  // Validity
  // ---------------------------------------------------------------------------

  /** A timestamp written at `t` is valid exactly while less than a year has passed:
      a year to the millisecond is already too old, and a time in the future is valid. */
  lemma StoredTimestampValidity(storage: map<string, string>, t: int, now: int)
    requires GetItem(storage, ConsentTimestampKey) == Some(FormatTimestamp(t))
    ensures ConsentValid(storage, now) <==> now - t < OneYear
    ensures ConsentValid(storage, t + OneYear - 1) && !ConsentValid(storage, t + OneYear)
    ensures now <= t ==> ConsentValid(storage, now)
  {
    ParseFormatRoundTrip(t);
  }

  // ---------------------------------------------------------------------------
  // The decisions of init
  // ---------------------------------------------------------------------------

  /** `init` on a new instance loads analytics iff the allowed entry is exactly "true" and
      consent is valid, and creates the banner iff the displayed entry is absent or empty
      (any other value, "false" included, counts as displayed) or consent is not valid.
      It only reads the storage. */
  lemma InitDecisions(p: Page, config: Config)
    requires p.env.Valid() && p.widget == Unstarted
    ensures var r := AfterInit(p, config);
      var storage, now := p.env.storage, p.env.now;
      var activates := GetItem(storage, AnalyticsAllowedKey) == Some("true") && ConsentValid(storage, now);
      && r.widget.isInitialized && r.env.styleInjected && r.env.storage == storage
      && (r.env.gtagDefined <==> p.env.gtagDefined || activates)
      && (r.env.scripts != p.env.scripts <==> !p.env.gtagDefined && activates)
      && (r.widget.cookieContainer.Some? <==> !Truthy(GetItem(storage, BannerDisplayedKey)) || !ConsentValid(storage, now))
      && (r.widget.cookieContainer.Some? ==> r.widget.cookieContainer == Some(NewBanner))
  {
    var r := AfterInit(p, config);
    if !p.env.gtagDefined && r.env.gtagDefined {
      assert |r.env.scripts| == |p.env.scripts| + 1;
    }
  }

  /** A timestamp a year old or older brings the banner back whatever else is stored, and
      `init` then loads nothing. */
  lemma ExpiredConsentShowsBanner(p: Page, config: Config, t: int)
    requires p.env.Valid() && !p.widget.isInitialized
    requires GetItem(p.env.storage, ConsentTimestampKey) == Some(FormatTimestamp(t))
    requires p.env.now - t >= OneYear
    ensures var r := AfterInit(p, config);
      && r.widget.cookieContainer == Some(NewBanner)
      && r.widget.timers == p.widget.timers + [RevealTimer(config.bannerDelay)]
      && r.env.scripts == p.env.scripts && r.env.dataLayer == p.env.dataLayer
  {
    StoredTimestampValidity(p.env.storage, t, p.env.now);
  }

  /** A second `init` changes nothing. */
  lemma InitIdempotent(p: Page, config: Config)
    requires p.env.Valid()
    ensures AfterInit(p, config).widget.isInitialized
    ensures AfterInit(AfterInit(p, config), config) == AfterInit(p, config)
  {
  }

  // ---------------------------------------------------------------------------
  // Decisions, as seen by the next page load
  // ---------------------------------------------------------------------------

  /** After an accept, the next load within a year shows no banner and loads the tag once;
      a year later the banner is back and nothing is loaded. */
  lemma AcceptThenReload(p: Page, config: Config, later: int)
    requires p.env.Valid()
    ensures var q := NextLoad(AfterAccept(p, config).env.storage, later, config);
      && (q.widget.cookieContainer.None? <==> later - p.env.now < OneYear)
      && (q.env.gtagDefined <==> later - p.env.now < OneYear)
      && (q.env.gtagDefined ==> q.env.scripts == [GtagScriptUrl(config.trackingId)])
  {
    StoredTimestampValidity(AfterAccept(p, config).env.storage, p.env.now, later);
  }

  /** After a reject, no later load ever loads analytics; the banner stays away for a year. */
  lemma RejectThenReload(p: Page, config: Config, later: int)
    requires p.env.Valid()
    ensures var q := NextLoad(AfterReject(p, config).env.storage, later, config);
      && !q.env.gtagDefined && q.env.scripts == [] && q.env.dataLayer.None?
      && (q.widget.cookieContainer.None? <==> later - p.env.now < OneYear)
  {
    StoredTimestampValidity(AfterReject(p, config).env.storage, p.env.now, later);
  }

  /** After a reset, the next load asks again and loads nothing. */
  lemma ResetThenReload(env: Env, config: Config, later: int)
    ensures var q := NextLoad(AfterReset(env).storage, later, config);
      && q.widget.cookieContainer == Some(NewBanner) && !q.env.gtagDefined && q.env.scripts == []
  {
  }

  /** Reset undoes a decision: it leaves the storage as it leaves the storage before it. */
  lemma ResetUndoesDecision(storage: map<string, string>, allowed: string, t: int)
    ensures StorageAfterReset(StorageAfterDecision(storage, allowed, t)) == StorageAfterReset(storage)
  {
    var before, after := StorageAfterReset(storage), StorageAfterReset(StorageAfterDecision(storage, allowed, t));
    assert forall k :: k in after <==> k in before;
  }

  // ---------------------------------------------------------------------------
  // Accept and reject on the page
  // ---------------------------------------------------------------------------

  /** Reject never defines `gtag` and never appends a script; it queues a `decline` event
      only when `gtag` was already defined. */
  lemma RejectLoadsNothing(p: Page, config: Config)
    requires p.env.Valid()
    ensures var r := AfterReject(p, config);
      && r.env.storage == StorageAfterDecision(p.env.storage, "false", p.env.now)
      && r.env.gtagDefined == p.env.gtagDefined && r.env.scripts == p.env.scripts
      && (r.env.dataLayer != p.env.dataLayer <==> p.env.gtagDefined)
      && (p.env.gtagDefined ==> r.env.dataLayer == Some(p.env.dataLayer.value + [ConsentEvent("decline")]))
  {
    if p.env.gtagDefined {
      var queue := p.env.dataLayer.value;
      assert |queue + [ConsentEvent("decline")]| != |queue|;
    }
  }

  /** Accepting twice loads the tag and queues the accept event once. */
  lemma AcceptTwiceLoadsOnce(p: Page, config: Config)
    requires p.env.Valid()
    ensures var r1 := AfterAccept(p, config);
      var r2 := AfterAccept(r1, config);
      && r1.env.gtagDefined
      && r1.env.scripts == p.env.scripts + (if p.env.gtagDefined then [] else [GtagScriptUrl(config.trackingId)])
      && r2.env.scripts == r1.env.scripts && r2.env.dataLayer == r1.env.dataLayer
  {
  }

  /** A fresh visitor: the banner appears, is revealed, is accepted and is removed; the
      storage then holds the accept and the tag is loaded once. */
  lemma FreshVisitorAccepts(storage: map<string, string>, now: int, config: Config)
    requires storage.Keys !! ConsentKeys
    ensures var p0 := NextLoad(storage, now, config);
      var p1 := Step(p0, config, TimerFires(0));
      var p2 := Step(p1, config, UserClicks(AcceptButton));
      var p3 := Step(p2, config, TimerFires(0));
      && p0.widget.cookieContainer == Some(NewBanner)
      && p1.widget.cookieContainer == Some(NewBanner.(active := true))
      && p2.env.storage == StorageAfterDecision(storage, "true", now)
      && p2.env.scripts == [GtagScriptUrl(config.trackingId)]
      && p3.widget.cookieContainer == Some(NewBanner.(attached := false))
      && p3.widget.timers == []
  {
  }

  // ---------------------------------------------------------------------------
  // The banner
  // ---------------------------------------------------------------------------

  /** Shown, hidden, then the removal timer that the hide scheduled fires: the banner ends
      inactive and detached, and the pending timers are those from before the hide. */
  lemma BannerLifecycle(w: WidgetState, fadeOutDuration: int)
    requires w.cookieContainer.Some?
    ensures var h := AfterHide(AfterShow(w), fadeOutDuration);
      && h.cookieContainer == Some(w.cookieContainer.value.(active := false))
      && AfterTimer(h, |h.timers| - 1)
         == w.(cookieContainer := Some(w.cookieContainer.value.(active := false, attached := false)))
  {
    var h := AfterHide(AfterShow(w), fadeOutDuration);
    assert h.timers[..|h.timers| - 1] + h.timers[|h.timers|..] == w.timers;
  }

  // ---------------------------------------------------------------------------
  // Whatever happens on one page
  // ---------------------------------------------------------------------------

  /** One step loads the tag at most once, and only when `gtag` was undefined. */
  lemma StepLoadsAtMostOnce(p: Page, config: Config, a: Action)
    requires p.env.Valid()
    ensures LoadsAtMostOnce(p.env, Step(p, config, a).env, config.trackingId)
  {
  }

  /** However the visitor clicks, timers fire and the clock moves, the page holds at most one
      tag script more than it started with. */
  lemma {:induction false} RunLoadsAtMostOnce(p: Page, config: Config, actions: seq<Action>)
    requires p.env.Valid()
    ensures LoadsAtMostOnce(p.env, Run(p, config, actions).env, config.trackingId)
    decreases |actions|
  {
    if actions != [] {
      var next := Step(p, config, actions[0]);
      StepLoadsAtMostOnce(p, config, actions[0]);
      RunLoadsAtMostOnce(next, config, actions[1..]);
    }
  }

  /** From its first load on, whatever the visitor does, a page holds at most one tag script. */
  lemma PageLoadsTagAtMostOnce(storage: map<string, string>, now: int, config: Config, actions: seq<Action>)
    ensures |Run(NextLoad(storage, now, config), config, actions).env.scripts| <= 1
  {
    RunLoadsAtMostOnce(NextLoad(storage, now, config), config, actions);
  }

  /** Whatever happens on one page, the analytics queue is only ever appended to. */
  lemma {:induction false} RunOnlyAppendsToQueue(p: Page, config: Config, actions: seq<Action>)
    requires p.env.Valid()
    ensures QueueExtends(p.env, Run(p, config, actions).env)
    decreases |actions|
  {
    if actions != [] {
      var next := Step(p, config, actions[0]);
      RunOnlyAppendsToQueue(next, config, actions[1..]);
    }
  }
}
