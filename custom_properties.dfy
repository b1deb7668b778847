/**
 * What assets/js/custom.js does, proved about the operations of module Custom: the same
 * validity window and `init` decisions as scripts/gtag.js, the tag loaded by the top-level
 * preamble before any consent check, a second tag script on accept, and no path that
 * records a refusal.
 */
module CustomProperties {
  import opened Wrappers
  import opened Browser
  import opened Custom

  /** The page after the file is loaded into a fresh page whose storage is `storage`. */
  function FileLoad(storage: map<string, string>, now: int): Page {
    AfterInit(Page(Unstarted, TagAfterPreamble(Loaded(storage, now), DefaultTrackingId)), WithDefaults(BootstrapOptions))
  }

  const TagUrl: string := GtagScriptUrl(DefaultTrackingId)

  // ---------------------------------------------------------------------------
  // Validity and init
  // ---------------------------------------------------------------------------

  /** A timestamp written at `t` is valid exactly while less than a year has passed. */
  lemma StoredTimestampValidity(storage: map<string, string>, t: int, now: int)
    requires GetItem(storage, ConsentTimestampKey) == Some(FormatTimestamp(t))
    ensures ConsentValid(storage, now) <==> now - t < OneYear
    ensures ConsentValid(storage, t + OneYear - 1) && !ConsentValid(storage, t + OneYear)
    ensures now <= t ==> ConsentValid(storage, now)
  {
    ParseFormatRoundTrip(t);
  }

  /** `init` on a new instance: analytics iff the allowed entry is exactly "true" and consent
      is valid; the banner iff the displayed entry is absent or empty or consent is not valid. */
  lemma InitDecisions(p: Page, config: Config)
    requires p.env.Valid() && p.widget == Unstarted
    ensures var r := AfterInit(p, config);
      var storage, now := p.env.storage, p.env.now;
      var activates := GetItem(storage, AnalyticsAllowedKey) == Some("true") && ConsentValid(storage, now);
      && r.widget.isInitialized && r.env.styleInjected && r.env.storage == storage
      && (r.env.gtagDefined <==> p.env.gtagDefined || activates)
      && (r.env.scripts != p.env.scripts <==> !p.env.gtagDefined && activates)
      && (r.widget.cookieContainer.Some? <==> !Truthy(GetItem(storage, BannerDisplayedKey)) || !ConsentValid(storage, now))
      && (r.widget.cookieContainer.Some? ==> r.widget.cookieContainer == Some(NewBanner))
  {
    var r := AfterInit(p, config);
    if !p.env.gtagDefined && r.env.gtagDefined {
      assert |r.env.scripts| == |p.env.scripts| + 1;
    }
  }

  /** A second `init` changes nothing. */
  lemma InitIdempotent(p: Page, config: Config)
    requires p.env.Valid()
    ensures AfterInit(p, config).widget.isInitialized
    ensures AfterInit(AfterInit(p, config), config) == AfterInit(p, config)
  {
  }

  // ---------------------------------------------------------------------------
  // The preamble
  // ---------------------------------------------------------------------------

  /** Whatever the storage holds, loading the file appends the tag script and queues `js`
      and a `config` without privacy options before the consent manager runs. */
  lemma PreambleRunsWithoutConsent(storage: map<string, string>, now: int)
    ensures var q := FileLoad(storage, now);
      && |q.env.scripts| >= 1 && q.env.scripts[0] == TagUrl
      && q.env.dataLayer.Some? && |q.env.dataLayer.value| >= 2
      && q.env.dataLayer.value[..2] == [JsCommand(now), ConfigCommand(DefaultTrackingId, None)]
  {
    var env := TagAfterPreamble(Loaded(storage, now), DefaultTrackingId);
    assert env.dataLayer.value == [JsCommand(now), ConfigCommand(DefaultTrackingId, None)];
  }

  /** The preamble leaves `window.gtag` undefined, so a returning visitor who accepted
      within the year gets the tag script twice and two `config` commands on every load. */
  lemma ReturningVisitorLoadsTagTwice(storage: map<string, string>, t: int, now: int)
    requires GetItem(storage, AnalyticsAllowedKey) == Some("true")
    requires GetItem(storage, ConsentTimestampKey) == Some(FormatTimestamp(t))
    requires now - t < OneYear
    ensures var q := FileLoad(storage, now);
      && q.env.gtagDefined
      && q.env.scripts == [TagUrl, TagUrl]
      && q.env.dataLayer == Some([JsCommand(now), ConfigCommand(DefaultTrackingId, None),
                                  JsCommand(now), ConfigCommand(DefaultTrackingId, Some(PrivacyParams)),
                                  ConsentEvent("accept")])
  {
    StoredTimestampValidity(storage, t, now);
    var env := TagAfterPreamble(Loaded(storage, now), DefaultTrackingId);
    assert env.dataLayer.value == [JsCommand(now), ConfigCommand(DefaultTrackingId, None)];
    assert env.dataLayer.value + [JsCommand(now), ConfigCommand(DefaultTrackingId, Some(PrivacyParams)), ConsentEvent("accept")]
        == [JsCommand(now), ConfigCommand(DefaultTrackingId, None),
            JsCommand(now), ConfigCommand(DefaultTrackingId, Some(PrivacyParams)), ConsentEvent("accept")];
  }

  /** A fresh visitor: the banner appears and is revealed; accepting appends a second tag
      script and queues `js`, the privacy `config` and `accept` after the preamble's commands. */
  lemma FreshVisitorAccepts(storage: map<string, string>, now: int)
    requires storage.Keys !! ConsentKeys
    ensures var config := WithDefaults(BootstrapOptions);
      var p0 := FileLoad(storage, now);
      var p1 := Step(p0, config, TimerFires(0));
      var p2 := Step(p1, config, UserClicks(AcceptButton));
      && p0.widget.cookieContainer == Some(NewBanner) && !p0.env.gtagDefined
      && p1.widget.cookieContainer == Some(NewBanner.(active := true))
      && p2.env.storage == StorageAfterDecision(storage, "true", now)
      && p2.env.scripts == [TagUrl, TagUrl]
      && p2.env.dataLayer == Some([JsCommand(now), ConfigCommand(DefaultTrackingId, None),
                                   JsCommand(now), ConfigCommand(DefaultTrackingId, Some(PrivacyParams)),
                                   ConsentEvent("accept")])
  {
    var config := WithDefaults(BootstrapOptions);
    var env := TagAfterPreamble(Loaded(storage, now), DefaultTrackingId);
    assert env.dataLayer.value == [JsCommand(now), ConfigCommand(DefaultTrackingId, None)];
    assert !ConsentValid(storage, now);
    var p0 := FileLoad(storage, now);
    assert p0.env == env.(styleInjected := true);
    assert p0.widget == WidgetState(true, Some(NewBanner), [RevealTimer(config.bannerDelay)]);
    var p1 := Step(p0, config, TimerFires(0));
    assert p1.widget == WidgetState(true, Some(NewBanner.(active := true)), []);
    assert env.dataLayer.value + [JsCommand(now), ConfigCommand(DefaultTrackingId, Some(PrivacyParams)), ConsentEvent("accept")]
        == [JsCommand(now), ConfigCommand(DefaultTrackingId, None),
            JsCommand(now), ConfigCommand(DefaultTrackingId, Some(PrivacyParams)), ConsentEvent("accept")];
  }

  // ---------------------------------------------------------------------------
  // Decisions, as seen by the next page load
  // ---------------------------------------------------------------------------

  /** After an accept, the next load within a year shows no banner and holds two tag
      scripts; a year later the banner is back and only the preamble's script is loaded. */
  lemma AcceptThenReload(p: Page, config: Config, later: int)
    requires p.env.Valid()
    ensures var q := FileLoad(AfterAccept(p, config).env.storage, later);
      && (q.widget.cookieContainer.None? <==> later - p.env.now < OneYear)
      && (q.env.gtagDefined <==> later - p.env.now < OneYear)
      && q.env.scripts == if later - p.env.now < OneYear then [TagUrl, TagUrl] else [TagUrl]
  {
    StoredTimestampValidity(AfterAccept(p, config).env.storage, p.env.now, later);
  }

  /** After a reset, the next load asks again; the preamble still loads the tag. */
  lemma ResetThenReload(env: Env, later: int)
    ensures var q := FileLoad(AfterReset(env).storage, later);
      && q.widget.cookieContainer == Some(NewBanner) && !q.env.gtagDefined && q.env.scripts == [TagUrl]
  {
  }

  /** Reset undoes a decision. */
  lemma ResetUndoesDecision(storage: map<string, string>, allowed: string, t: int)
    ensures StorageAfterReset(StorageAfterDecision(storage, allowed, t)) == StorageAfterReset(storage)
  {
    var before, after := StorageAfterReset(storage), StorageAfterReset(StorageAfterDecision(storage, allowed, t));
    assert forall k :: k in after <==> k in before;
  }

  /** Accepting twice loads the tag and queues the accept event once. */
  lemma AcceptTwiceLoadsOnce(p: Page, config: Config)
    requires p.env.Valid()
    ensures var r1 := AfterAccept(p, config);
      var r2 := AfterAccept(r1, config);
      && r1.env.gtagDefined
      && r1.env.scripts == p.env.scripts + (if p.env.gtagDefined then [] else [GtagScriptUrl(config.trackingId)])
      && r2.env.scripts == r1.env.scripts && r2.env.dataLayer == r1.env.dataLayer
  {
  }

  // ---------------------------------------------------------------------------
  // No refusal is ever recorded
  // ---------------------------------------------------------------------------

  /** The storage does not hold a refusal. */
  predicate NotDeclined(storage: map<string, string>) {
    GetItem(storage, AnalyticsAllowedKey) != Some("false")
  }

  /** A click on a reject button does nothing: no listener is attached to one. */
  lemma RejectClickIgnored(p: Page, config: Config)
    requires p.env.Valid()
    ensures Step(p, config, UserClicks(RejectButton)) == p
  {
  }

  /** Loading the file never records a refusal. */
  lemma FileLoadKeepsNotDeclined(storage: map<string, string>, now: int)
    requires NotDeclined(storage)
    ensures NotDeclined(FileLoad(storage, now).env.storage)
  {
  }

  lemma StepKeepsNotDeclined(p: Page, config: Config, a: Action)
    requires p.env.Valid() && NotDeclined(p.env.storage)
    ensures NotDeclined(Step(p, config, a).env.storage)
  {
  }

  /** Whatever the visitor clicks and whatever timers fire, no refusal is ever written. */
  lemma {:induction false} RunKeepsNotDeclined(p: Page, config: Config, actions: seq<Action>)
    requires p.env.Valid() && NotDeclined(p.env.storage)
    ensures NotDeclined(Run(p, config, actions).env.storage)
    decreases |actions|
  {
    if actions != [] {
      StepKeepsNotDeclined(p, config, actions[0]);
      RunKeepsNotDeclined(Step(p, config, actions[0]), config, actions[1..]);
    }
  }

  // ---------------------------------------------------------------------------
  // The banner
  // ---------------------------------------------------------------------------

  /** Shown, hidden, then the removal timer that the hide scheduled fires: the banner ends
      inactive and detached, and the pending timers are those from before the hide. */
  lemma BannerLifecycle(w: WidgetState, fadeOutDuration: int)
    requires w.cookieContainer.Some?
    ensures var h := AfterHide(AfterShow(w), fadeOutDuration);
      && h.cookieContainer == Some(w.cookieContainer.value.(active := false))
      && AfterTimer(h, |h.timers| - 1)
         == w.(cookieContainer := Some(w.cookieContainer.value.(active := false, attached := false)))
  {
    var h := AfterHide(AfterShow(w), fadeOutDuration);
    assert h.timers[..|h.timers| - 1] + h.timers[|h.timers|..] == w.timers;
  }

  // ---------------------------------------------------------------------------
  // Whatever happens on one page
  // ---------------------------------------------------------------------------

  /** One step loads the tag at most once, and only when `gtag` was undefined. */
  lemma StepLoadsAtMostOnce(p: Page, config: Config, a: Action)
    requires p.env.Valid()
    ensures LoadsAtMostOnce(p.env, Step(p, config, a).env, config.trackingId)
  {
  }

  /** After the file has loaded, the consent manager adds at most one more tag script. */
  lemma {:induction false} RunLoadsAtMostOnce(p: Page, config: Config, actions: seq<Action>)
    requires p.env.Valid()
    ensures LoadsAtMostOnce(p.env, Run(p, config, actions).env, config.trackingId)
    decreases |actions|
  {
    if actions != [] {
      StepLoadsAtMostOnce(p, config, actions[0]);
      RunLoadsAtMostOnce(Step(p, config, actions[0]), config, actions[1..]);
    }
  }

  /** Loading the file and whatever the visitor does after it leave at most two tag scripts:
      the preamble's and the one the consent manager adds. */
  lemma PageLoadsTagAtMostTwice(storage: map<string, string>, now: int, actions: seq<Action>)
    ensures |Run(FileLoad(storage, now), WithDefaults(BootstrapOptions), actions).env.scripts| <= 2
  {
    RunLoadsAtMostOnce(FileLoad(storage, now), WithDefaults(BootstrapOptions), actions);
  }

  /** Whatever happens on one page, the analytics queue is only ever appended to. */
  lemma {:induction false} RunOnlyAppendsToQueue(p: Page, config: Config, actions: seq<Action>)
    requires p.env.Valid()
    ensures QueueExtends(p.env, Run(p, config, actions).env)
    decreases |actions|
  {
    if actions != [] {
      var next := Step(p, config, actions[0]);
      RunOnlyAppendsToQueue(next, config, actions[1..]);
    }
  }
}
