/**
 * The copy of the cookie consent manager in assets/js/custom.js. It differs from
 * scripts/gtag.js in three ways: before the class, a top-level call of
 * `addGoogleAnalyticsTag` loads the tag and queues `js` and `config` on every page load,
 * whatever the visitor decided; the banner has only the accept button (the reject button
 * and its listener are commented out), so `handleReject` is never called; and the
 * configuration has no `privacyPolicyUrl`.
 *
 * As in module Gtag, pure functions say what each operation does to the page and the
 * class `CookieConsent` is proved to agree with them.
 */
module Custom {
  import opened Wrappers
  import opened Browser

  // ---------------------------------------------------------------------------
  // Constants and configuration
  // ---------------------------------------------------------------------------

  const DefaultTrackingId: string := "G-81E77KGMGF"

  const BannerDisplayedKey: string := "cookieBannerDisplayed"
  const AnalyticsAllowedKey: string := "analyticsIsAllowed"
  const ConsentTimestampKey: string := "consentTimestamp"

  /** `Object.values(this.storageKeys)`, in declaration order. */
  const StorageKeys: seq<string> := [BannerDisplayedKey, AnalyticsAllowedKey, ConsentTimestampKey]
  const ConsentKeys: set<string> := {BannerDisplayedKey, AnalyticsAllowedKey, ConsentTimestampKey}

  /** 365 days in milliseconds. */
  const OneYear: int := 365 * 24 * 60 * 60 * 1000

  /** The options of the `config` command issued when analytics are loaded. */
  const PrivacyParams: ConfigParams :=
    ConfigParams(anonymizeIp := true, allowGoogleSignals := false, allowAdPersonalizationSignals := false)

  /** The constructor's `options`: a field is Some when the key is present. */
  datatype Options = Options(
    trackingId: Option<string>,
    bannerDelay: Option<int>,
    fadeOutDuration: Option<int>)

  datatype Config = Config(trackingId: string, bannerDelay: int, fadeOutDuration: int)

  /** `{ trackingId: ..., bannerDelay: 1000, fadeOutDuration: 300, ...options }` */
  function WithDefaults(options: Options): (c: Config)
    ensures options.trackingId.None? ==> c.trackingId == DefaultTrackingId
    ensures options.bannerDelay.None? ==> c.bannerDelay == 1000
    ensures options.fadeOutDuration.None? ==> c.fadeOutDuration == 300
    ensures options.trackingId.Some? ==> c.trackingId == options.trackingId.value
    ensures options.bannerDelay.Some? ==> c.bannerDelay == options.bannerDelay.value
    ensures options.fadeOutDuration.Some? ==> c.fadeOutDuration == options.fadeOutDuration.value
  {
    Config(
      options.trackingId.GetOr(DefaultTrackingId),
      options.bannerDelay.GetOr(1000),
      options.fadeOutDuration.GetOr(300))
  }

  /** The options the bootstrap passes when it creates the single instance. */
  const BootstrapOptions: Options := Options(Some(DefaultTrackingId), Some(800), None)

  /** The banner `createCookieBanner` builds and attaches: not yet active, with the accept
      button only. */
  const NewBanner: Banner := Banner(active := false, attached := true, controls := {AcceptButton})

  // ---------------------------------------------------------------------------
  // The page as a value
  // ---------------------------------------------------------------------------

  /** The instance's own fields, and the timers it has scheduled. */
  datatype WidgetState = WidgetState(isInitialized: bool, cookieContainer: Option<Banner>, timers: seq<Timer>)

  /** The fields as the constructor sets them before it calls `init()`. */
  const Unstarted: WidgetState := WidgetState(false, None, [])

  datatype Page = Page(widget: WidgetState, env: Env)

  // ---------------------------------------------------------------------------
  // Consent entries
  // ---------------------------------------------------------------------------

  /** `isConsentValid()`: a recorded timestamp that is less than a year old. An absent or
      empty entry is not valid; an entry that does not parse makes the difference NaN,
      and `NaN < oneYear` is false. */
  function ConsentValid(storage: map<string, string>, now: int): (r: bool)
    ensures !Truthy(GetItem(storage, ConsentTimestampKey)) ==> !r
  {
    var timestamp := GetItem(storage, ConsentTimestampKey);
    if !Truthy(timestamp) then false
    else match ParseTimestamp(timestamp.value)
      case None => false
      case Some(consentDate) => now - consentDate < OneYear
  }

  /** The three `setItem` calls of `handleAccept` (allowed "true") and `handleReject`
      (allowed "false"). */
  function StorageAfterDecision(storage: map<string, string>, allowed: string, now: int): (r: map<string, string>)
    ensures r.Keys == storage.Keys + ConsentKeys
    ensures forall k :: k in storage && k !in ConsentKeys ==> r[k] == storage[k]
    ensures GetItem(r, BannerDisplayedKey) == Some("true")
    ensures GetItem(r, AnalyticsAllowedKey) == Some(allowed)
    ensures GetItem(r, ConsentTimestampKey) == Some(FormatTimestamp(now))
  {
    storage[BannerDisplayedKey := "true"][AnalyticsAllowedKey := allowed][ConsentTimestampKey := FormatTimestamp(now)]
  }

  /** The removal loop of `resetConsent`. */
  function StorageAfterReset(storage: map<string, string>): (r: map<string, string>)
    ensures r.Keys == storage.Keys - ConsentKeys
    ensures forall k :: k in r ==> r[k] == storage[k]
  {
    storage - ConsentKeys
  }

  // ---------------------------------------------------------------------------
  // Analytics
  // ---------------------------------------------------------------------------

  /** The event `trackConsentEvent(action)` issues. */
  function ConsentEvent(action: string): (e: Entry)
    ensures e.EventCommand? && e.name == "cookie_consent" && e.eventCategory == "engagement"
    ensures e.eventLabel == action && e.value == 1
  {
    EventCommand("cookie_consent", "engagement", action, 1)
  }

  /** `trackConsentEvent(action)`: one event, and only when `window.gtag` exists. */
  function TagAfterTrack(env: Env, action: string): (r: Env)
    requires env.Valid()
    ensures r.Valid()
    ensures !env.gtagDefined ==> r == env
    ensures env.gtagDefined ==> r == env.(dataLayer := Some(env.dataLayer.value + [ConsentEvent(action)]))
  {
    if env.gtagDefined then Pushed(env, ConsentEvent(action)) else env
  }

  /** `initializeAnalytics()`: nothing when `window.gtag` exists; otherwise load the tag once,
      keep any earlier queue, and queue `js`, the privacy-preserving `config` and the
      `accept` event, in that order. */
  function TagAfterInitialize(env: Env, trackingId: string): (r: Env)
    requires env.Valid()
    ensures r.Valid() && r.gtagDefined
    ensures env.gtagDefined ==> r == env
    ensures !env.gtagDefined ==>
      r == env.(gtagDefined := true,
                scripts := env.scripts + [GtagScriptUrl(trackingId)],
                dataLayer := Some(env.dataLayer.GetOr([]) +
                  [JsCommand(env.now), ConfigCommand(trackingId, Some(PrivacyParams)), ConsentEvent("accept")]))
  {
    if env.gtagDefined then env
    else
      var loading := env.(scripts := env.scripts + [GtagScriptUrl(trackingId)]);
      var defined := WithDataLayer(loading).(gtagDefined := true);
      var configured := Pushed(Pushed(defined, JsCommand(env.now)), ConfigCommand(trackingId, Some(PrivacyParams)));
      var queue := env.dataLayer.GetOr([]);
      assert queue + [JsCommand(env.now)] + [ConfigCommand(trackingId, Some(PrivacyParams))] + [ConsentEvent("accept")]
          == queue + [JsCommand(env.now), ConfigCommand(trackingId, Some(PrivacyParams)), ConsentEvent("accept")];
      TagAfterTrack(configured, "accept")
  }

  /** `addGoogleAnalyticsTag(trackingId)`, run at the top level of the file: load the tag and
      queue `js` and a `config` without options through a `gtag` that is local to the
      function, so `window.gtag` stays as it was. */
  function TagAfterPreamble(env: Env, trackingId: string): (r: Env)
    ensures r.Valid()
    ensures r == env.(scripts := env.scripts + [GtagScriptUrl(trackingId)],
                      dataLayer := Some(env.dataLayer.GetOr([]) + [JsCommand(env.now), ConfigCommand(trackingId, None)]))
  {
    var loading := env.(scripts := env.scripts + [GtagScriptUrl(trackingId)]);
    var queue := env.dataLayer.GetOr([]);
    assert queue + [JsCommand(env.now)] + [ConfigCommand(trackingId, None)]
        == queue + [JsCommand(env.now), ConfigCommand(trackingId, None)];
    Pushed(Pushed(WithDataLayer(loading), JsCommand(env.now)), ConfigCommand(trackingId, None))
  }

  // ---------------------------------------------------------------------------
  // Banner
  // ---------------------------------------------------------------------------

  /** `hideBanner()`: without a container, nothing; otherwise drop "active" and schedule the removal. */
  function AfterHide(w: WidgetState, fadeOutDuration: int): (r: WidgetState)
    ensures w.cookieContainer.None? ==> r == w
    ensures w.cookieContainer.Some? ==>
      && r.cookieContainer == Some(w.cookieContainer.value.(active := false))
      && r.timers == w.timers + [RemovalTimer(fadeOutDuration)]
    ensures r.isInitialized == w.isInitialized
  {
    match w.cookieContainer
    case None => w
    case Some(b) => w.(cookieContainer := Some(b.(active := false)), timers := w.timers + [RemovalTimer(fadeOutDuration)])
  }

  /** `showBanner()` together with its animation-frame callback: add "active" if there is a container. */
  function AfterShow(w: WidgetState): (r: WidgetState)
    ensures w.cookieContainer.None? ==> r == w
    ensures w.cookieContainer.Some? ==> r.cookieContainer == Some(w.cookieContainer.value.(active := true))
    ensures r.timers == w.timers && r.isInitialized == w.isInitialized
  {
    match w.cookieContainer
    case None => w
    case Some(b) => w.(cookieContainer := Some(b.(active := true)))
  }

  /** The callback `hideBanner` schedules: detach the container if it is still attached. */
  function AfterRemoval(w: WidgetState): (r: WidgetState)
    ensures w.cookieContainer.None? ==> r == w
    ensures w.cookieContainer.Some? ==> r.cookieContainer == Some(w.cookieContainer.value.(attached := false))
    ensures r.timers == w.timers && r.isInitialized == w.isInitialized
  {
    match w.cookieContainer
    case Some(b) => if b.attached then w.(cookieContainer := Some(b.(attached := false))) else w
    case None => w
  }

  /** Timer `k` fires: it leaves the pending list and its callback runs. */
  function AfterTimer(w: WidgetState, k: nat): (r: WidgetState)
    requires k < |w.timers|
    ensures multiset(r.timers) + multiset{w.timers[k]} == multiset(w.timers)
    ensures r.isInitialized == w.isInitialized
    ensures r.cookieContainer.Some? <==> w.cookieContainer.Some?
    ensures w.cookieContainer.Some? && w.timers[k].RevealTimer? ==> r.cookieContainer.value.active
    ensures w.cookieContainer.Some? && w.timers[k].RemovalTimer? ==> !r.cookieContainer.value.attached
  {
    assert w.timers == w.timers[..k] + [w.timers[k]] + w.timers[k + 1..];
    var rest := w.(timers := w.timers[..k] + w.timers[k + 1..]);
    match w.timers[k]
    case RevealTimer(_) => AfterShow(rest)
    case RemovalTimer(_) => AfterRemoval(rest)
  }

  // ---------------------------------------------------------------------------
  // The operations of the widget, on the whole page
  // ---------------------------------------------------------------------------

  /** `handleAccept()` */
  function AfterAccept(p: Page, config: Config): (r: Page)
    requires p.env.Valid()
    ensures r.env.Valid() && r.env.gtagDefined
    ensures r.env.storage == StorageAfterDecision(p.env.storage, "true", p.env.now)
    ensures GetItem(r.env.storage, AnalyticsAllowedKey) == Some("true") && ConsentValid(r.env.storage, p.env.now)
    ensures r.env.now == p.env.now && r.widget.isInitialized == p.widget.isInitialized
    ensures r.widget.cookieContainer.Some? ==> !r.widget.cookieContainer.value.active
  {
    ParseFormatRoundTrip(p.env.now);
    var stored := p.env.(storage := StorageAfterDecision(p.env.storage, "true", p.env.now));
    Page(AfterHide(p.widget, config.fadeOutDuration), TagAfterInitialize(stored, config.trackingId))
  }

  /** `handleReject()`: still defined in the class, but nothing calls it. */
  function AfterReject(p: Page, config: Config): (r: Page)
    requires p.env.Valid()
    ensures r.env.Valid()
    ensures r.env.storage == StorageAfterDecision(p.env.storage, "false", p.env.now)
    ensures GetItem(r.env.storage, AnalyticsAllowedKey) == Some("false")
    ensures r.env.gtagDefined == p.env.gtagDefined && r.env.scripts == p.env.scripts
    ensures r.widget.cookieContainer.Some? ==> !r.widget.cookieContainer.value.active
  {
    var stored := p.env.(storage := StorageAfterDecision(p.env.storage, "false", p.env.now));
    Page(AfterHide(p.widget, config.fadeOutDuration), TagAfterTrack(stored, "decline"))
  }

  /** A click on one of the banner's buttons; only an attached button with a listener reacts,
      and `init` attaches a listener to the accept button only. */
  function AfterClick(p: Page, config: Config, control: Control): (r: Page)
    requires p.env.Valid()
    ensures r.env.Valid()
    ensures r != p ==> p.widget.cookieContainer.Some? && p.widget.cookieContainer.value.attached
                        && control in p.widget.cookieContainer.value.controls
    ensures control == RejectButton ==> r == p
  {
    match p.widget.cookieContainer
    case Some(b) =>
      if b.attached && control in b.controls then
        match control
        case AcceptButton => AfterAccept(p, config)
        case RejectButton => p
      else p
    case None => p
  }

  /** `init()` */
  function AfterInit(p: Page, config: Config): (r: Page)
    requires p.env.Valid()
    ensures r.env.Valid() && r.widget.isInitialized
    ensures r.env.storage == p.env.storage && r.env.now == p.env.now
    ensures p.widget.isInitialized ==> r == p
  {
    if p.widget.isInitialized then p
    else
      var styled := p.env.(styleInjected := true);
      var storage, now := p.env.storage, p.env.now;
      var env :=
        if GetItem(storage, AnalyticsAllowedKey) == Some("true") && ConsentValid(storage, now)
        then TagAfterInitialize(styled, config.trackingId)
        else styled;
      var widget :=
        if !Truthy(GetItem(storage, BannerDisplayedKey)) || !ConsentValid(storage, now)
        then p.widget.(cookieContainer := Some(NewBanner), timers := p.widget.timers + [RevealTimer(config.bannerDelay)])
        else p.widget;
      Page(widget.(isInitialized := true), env)
  }

  /** `resetConsent()` */
  function AfterReset(env: Env): (r: Env)
    ensures r.Valid() == env.Valid() && r.reloadRequested
    ensures r.storage.Keys == env.storage.Keys - ConsentKeys
    ensures forall k :: k in r.storage ==> r.storage[k] == env.storage[k]
    ensures r.scripts == env.scripts && r.dataLayer == env.dataLayer
  {
    env.(storage := StorageAfterReset(env.storage), reloadRequested := true)
  }

  /** What can happen to a page once the instance exists. */
  datatype Action =
    | UserClicks(control: Control)   // a click on a banner button
    | TimerFires(index: nat)         // a pending timer runs
    | ResetCalled                    // window.resetCookieConsent()
    | ClockReads(time: int)          // time has passed (or the clock was set)

  function Step(p: Page, config: Config, a: Action): (r: Page)
    requires p.env.Valid()
    ensures r.env.Valid()
    ensures r.widget.isInitialized == p.widget.isInitialized
    ensures !a.ClockReads? ==> r.env.now == p.env.now
  {
    match a
    case UserClicks(c) => AfterClick(p, config, c)
    case TimerFires(k) => if k < |p.widget.timers| then p.(widget := AfterTimer(p.widget, k)) else p
    case ResetCalled => p.(env := AfterReset(p.env))
    case ClockReads(t) => p.(env := p.env.(now := t))
  }

  function Run(p: Page, config: Config, actions: seq<Action>): (r: Page)
    requires p.env.Valid()
    ensures r.env.Valid()
    ensures r.widget.isInitialized == p.widget.isInitialized
    ensures (forall i :: 0 <= i < |actions| ==> !actions[i].ClockReads?) ==> r.env.now == p.env.now
    decreases |actions|
  {
    if actions == [] then p else Run(Step(p, config, actions[0]), config, actions[1..])
  }

  // ---------------------------------------------------------------------------
  // The class
  // ---------------------------------------------------------------------------

  class CookieConsent {
    const config: Config
    const window: Window
    var cookieContainer: Option<Banner>
    var isInitialized: bool
    var timers: seq<Timer>

    function Snapshot(): Page
      reads this, window
    {
      Page(WidgetState(isInitialized, cookieContainer, timers), window.State())
    }

    ghost predicate Valid()
      reads this, window
    {
      window.State().Valid()
    }

    /** `new CookieConsent(options)`: set the fields, then `init()`. */
    constructor (window: Window, options: Options)
      requires window.State().Valid()
      modifies window
      ensures this.window == window && config == WithDefaults(options)
      ensures Valid()
      ensures Snapshot() == AfterInit(Page(Unstarted, old(window.State())), config)
    {
      this.window := window;
      config := WithDefaults(options);
      cookieContainer := None;
      isInitialized := false;
      timers := [];
      new;
      Init();
    }

    /** `injectStyles()`: the style element is added once. */
    method InjectStyles()
      modifies window
      ensures window.State() == old(window.State()).(styleInjected := true)
    {
      if !window.styleInjected {
        window.AppendStyle();
      }
    }

    method InitializeAnalytics()
      requires Valid()
      modifies window
      ensures Valid()
      ensures window.State() == TagAfterInitialize(old(window.State()), config.trackingId)
    {
      if window.gtagDefined {
        return;
      }
      window.AppendScript(GtagScriptUrl(config.trackingId));
      window.InitDataLayer();
      window.DefineGtag();
      window.Push(JsCommand(window.now));
      window.Push(ConfigCommand(config.trackingId, Some(PrivacyParams)));
      TrackConsentEvent("accept");
    }

    method TrackConsentEvent(action: string)
      requires Valid()
      modifies window
      ensures Valid()
      ensures window.State() == TagAfterTrack(old(window.State()), action)
    {
      if window.gtagDefined {
        window.Push(ConsentEvent(action));
      }
    }

    method HandleAccept()
      requires Valid()
      modifies this, window
      ensures Valid()
      ensures Snapshot() == AfterAccept(old(Snapshot()), config)
    {
      var timestamp := FormatTimestamp(window.now);
      window.SetItem(BannerDisplayedKey, "true");
      window.SetItem(AnalyticsAllowedKey, "true");
      window.SetItem(ConsentTimestampKey, timestamp);
      InitializeAnalytics();
      HideBanner();
    }

    method HandleReject()
      requires Valid()
      modifies this, window
      ensures Valid()
      ensures Snapshot() == AfterReject(old(Snapshot()), config)
    {
      var timestamp := FormatTimestamp(window.now);
      window.SetItem(BannerDisplayedKey, "true");
      window.SetItem(AnalyticsAllowedKey, "false");
      window.SetItem(ConsentTimestampKey, timestamp);
      TrackConsentEvent("decline");
      HideBanner();
    }

    method HideBanner()
      modifies this
      ensures WidgetState(isInitialized, cookieContainer, timers)
           == AfterHide(old(WidgetState(isInitialized, cookieContainer, timers)), config.fadeOutDuration)
    {
      if cookieContainer.None? {
        return;
      }
      cookieContainer := Some(cookieContainer.value.(active := false));
      timers := timers + [RemovalTimer(config.fadeOutDuration)];
    }

    method ShowBanner()
      modifies this
      ensures WidgetState(isInitialized, cookieContainer, timers)
           == AfterShow(old(WidgetState(isInitialized, cookieContainer, timers)))
    {
      if cookieContainer.None? {
        return;
      }
      cookieContainer := Some(cookieContainer.value.(active := true));
    }

    method Init()
      requires Valid()
      modifies this, window
      ensures Valid()
      ensures Snapshot() == AfterInit(old(Snapshot()), config)
    {
      if isInitialized {
        return;
      }
      InjectStyles();
      var bannerDisplayed := GetItem(window.storage, BannerDisplayedKey);
      var analyticsAllowed := GetItem(window.storage, AnalyticsAllowedKey);
      if analyticsAllowed == Some("true") && ConsentValid(window.storage, window.now) {
        InitializeAnalytics();
      }
      if !Truthy(bannerDisplayed) || !ConsentValid(window.storage, window.now) {
        cookieContainer := Some(NewBanner);
        timers := timers + [RevealTimer(config.bannerDelay)];
      }
      isInitialized := true;
    }

    method ResetConsent()
      requires Valid()
      modifies window
      ensures Valid()
      ensures window.State() == AfterReset(old(window.State()))
    {
      var keys := StorageKeys;
      for i := 0 to |keys|
        invariant window.State() == old(window.State()).(storage := old(window.storage) - set j | 0 <= j < i :: keys[j])
      {
        window.RemoveItem(keys[i]);
        assert (set j | 0 <= j < i + 1 :: keys[j]) == (set j | 0 <= j < i :: keys[j]) + {keys[i]};
      }
      assert keys[0] == BannerDisplayedKey && keys[1] == AnalyticsAllowedKey && keys[2] == ConsentTimestampKey;
      assert (set j | 0 <= j < |keys| :: keys[j]) == ConsentKeys;
      window.Reload();
    }

    /** The user clicks `control`; the listener `init` attached to it, if any, runs. */
    method Click(control: Control)
      requires Valid()
      modifies this, window
      ensures Valid()
      ensures Snapshot() == AfterClick(old(Snapshot()), config, control)
    {
      if cookieContainer.Some? && cookieContainer.value.attached && control in cookieContainer.value.controls {
        match control
        case AcceptButton => HandleAccept();
        case RejectButton =>
      }
    }

    /** The pending timer at position `k` fires. */
    method RunTimer(k: nat)
      requires k < |timers|
      modifies this
      ensures WidgetState(isInitialized, cookieContainer, timers)
           == AfterTimer(old(WidgetState(isInitialized, cookieContainer, timers)), k)
    {
      var timer := timers[k];
      timers := timers[..k] + timers[k + 1..];
      match timer
      case RevealTimer(_) =>
        ShowBanner();
      case RemovalTimer(_) =>
        if cookieContainer.Some? && cookieContainer.value.attached {
          cookieContainer := Some(cookieContainer.value.(attached := false));
        }
    }
  }

  // ---------------------------------------------------------------------------
  // Loading the file
  // ---------------------------------------------------------------------------

  method AddGoogleAnalyticsTag(window: Window, trackingId: string)
    modifies window
    ensures window.State() == TagAfterPreamble(old(window.State()), trackingId)
  {
    window.AppendScript(GtagScriptUrl(trackingId));
    window.InitDataLayer();
    window.Push(JsCommand(window.now));
    window.Push(ConfigCommand(trackingId, None));
  }

  /** `createCookieConsent()`: `instance` is `window.cookieConsentInstance`; no second
      instance is created when one exists. */
  method CreateCookieConsent(window: Window, instance: CookieConsent?) returns (r: CookieConsent)
    requires window.State().Valid()
    modifies window
    ensures instance != null ==> r == instance && window.State() == old(window.State())
    ensures instance == null ==>
      && fresh(r) && r.window == window && r.config == WithDefaults(BootstrapOptions) && r.Valid()
      && r.Snapshot() == AfterInit(Page(Unstarted, old(window.State())), r.config)
  {
    if instance != null {
      return instance;
    }
    r := new CookieConsent(window, BootstrapOptions);
  }

  /** `window.resetCookieConsent()` */
  method ResetCookieConsent(instance: CookieConsent?)
    requires instance != null ==> instance.Valid()
    modifies if instance != null then {instance.window} else {}
    ensures instance != null ==> instance.window.State() == AfterReset(old(instance.window.State()))
  {
    if instance != null {
      instance.ResetConsent();
    }
  }

  /** Loading the file on a page whose document is parsed: the top-level preamble, then the
      bootstrap. */
  method LoadScript(window: Window, instance: CookieConsent?) returns (r: CookieConsent)
    requires window.State().Valid()
    modifies window
    ensures instance != null ==> r == instance && window.State() == TagAfterPreamble(old(window.State()), DefaultTrackingId)
    ensures instance == null ==>
      && fresh(r) && r.window == window && r.config == WithDefaults(BootstrapOptions) && r.Valid()
      && r.Snapshot() == AfterInit(Page(Unstarted, TagAfterPreamble(old(window.State()), DefaultTrackingId)), r.config)
  {
    AddGoogleAnalyticsTag(window, DefaultTrackingId);
    r := CreateCookieConsent(window, instance);
  }
}
