/**
 * The part of the browser that both consent scripts read and change: the origin's
 * localStorage, the globals `window.gtag` and `window.dataLayer`, the script and style
 * elements appended to the document, the reload request and the clock.
 *
 * `Window` is that environment as mutable state; `Env` is the same state as a value,
 * so that the scripts' operations can be specified and reasoned about as functions.
 */
module Browser {
  import opened Wrappers

  // ---------------------------------------------------------------------------
  // The analytics command queue
  // ---------------------------------------------------------------------------

  /** The options object of a `gtag('config', id, {...})` call. */
  datatype ConfigParams = ConfigParams(
    anonymizeIp: bool,
    allowGoogleSignals: bool,
    allowAdPersonalizationSignals: bool)

  /** One argument list pushed onto `window.dataLayer` by a call of `gtag(...)`. */
  datatype Entry =
    | JsCommand(date: int)                                       // gtag('js', new Date())
    | ConfigCommand(trackingId: string, params: Option<ConfigParams>) // gtag('config', id[, params])
    | EventCommand(name: string, eventCategory: string, eventLabel: string, value: int)
                                                                 // gtag('event', name, {...})

  /** The tag endpoint, templated with the property id. */
  function GtagScriptUrl(trackingId: string): string {
    "https://www.googletagmanager.com/gtag/js?id=" + trackingId
  }

  // ---------------------------------------------------------------------------
  // localStorage values
  // ---------------------------------------------------------------------------

  /** `localStorage.getItem(key)`: the stored string, or null. */
  function GetItem(storage: map<string, string>, key: string): (r: Option<string>)
    ensures r.Some? <==> key in storage
    ensures r.Some? ==> r.value == storage[key]
  {
    if key in storage then Some(storage[key]) else None
  }

  /** JavaScript truthiness of a `getItem` result: null and the empty string are falsy. */
  predicate Truthy(v: Option<string>)
    ensures Truthy(v) <==> v !in {None, Some("")}
  {
    v.Some? && v.value != ""
  }

  // ---------------------------------------------------------------------------
  // Timestamps
  //
  // The scripts store `new Date().toISOString()` and read it back with `new Date(s)`.
  // Calendar formatting is not modelled: a timestamp is a number of milliseconds and
  // its text is a signed decimal numeral. What the scripts rely on is kept: a written
  // timestamp reads back as the same instant, it is never the empty string, and a
  // string that is not a timestamp parses to nothing (JavaScript's Invalid Date).
  // ---------------------------------------------------------------------------

  predicate IsDigit(c: char) {
    '0' <= c <= '9'
  }

  predicate AllDigits(s: string) {
    forall i :: 0 <= i < |s| ==> IsDigit(s[i])
  }

  function DigitChar(d: nat): (c: char)
    requires d < 10
    ensures IsDigit(c) && c as int - '0' as int == d
  {
    (d + '0' as int) as char
  }

  /** The decimal numeral of `n`, without leading zeros. */
  function Digits(n: nat): (s: string)
    ensures s != [] && AllDigits(s)
  {
    if n < 10 then [DigitChar(n)] else Digits(n / 10) + [DigitChar(n % 10)]
  }

  /** The number a string of decimal digits denotes. */
  function DigitsValue(s: string): nat
    requires AllDigits(s)
  {
    if s == [] then 0 else DigitsValue(s[..|s| - 1]) * 10 + (s[|s| - 1] as int - '0' as int)
  }

  /** `new Date(t).toISOString()`. */
  function FormatTimestamp(t: int): (s: string)
    ensures s != ""
  {
    if t < 0 then "-" + Digits(-t) else Digits(t)
  }

  /** `new Date(s)`: the instant `s` denotes, or None for an Invalid Date. */
  function ParseTimestamp(s: string): (r: Option<int>)
    ensures s == "" ==> r.None?
  {
    if s != "" && s[0] == '-' then
      if |s| > 1 && AllDigits(s[1..]) then Some(-(DigitsValue(s[1..]) as int)) else None
    else if s != "" && AllDigits(s) then Some(DigitsValue(s))
    else None
  }

  lemma {:induction false} DigitsValueOfDigits(n: nat)
    ensures DigitsValue(Digits(n)) == n
  {
    if n >= 10 {
      DigitsValueOfDigits(n / 10);
      var s := Digits(n);
      assert s[..|s| - 1] == Digits(n / 10);
    }
  }

  /** A timestamp written by the scripts reads back as the same instant. */
  lemma ParseFormatRoundTrip(t: int)
    ensures ParseTimestamp(FormatTimestamp(t)) == Some(t)
  {
    var s := FormatTimestamp(t);
    if t < 0 {
      DigitsValueOfDigits(-t);
      assert s[0] == '-' && s[1..] == Digits(-t);
    } else {
      DigitsValueOfDigits(t);
      assert IsDigit(s[0]);
    }
  }

  // ---------------------------------------------------------------------------
  // The banner element and pending timers
  // ---------------------------------------------------------------------------

  /** A button of the banner that has a click listener. */
  datatype Control = AcceptButton | RejectButton

  /** The banner's container element: whether it carries the "active" class, whether it is
      attached to the document body, and which buttons it holds. */
  datatype Banner = Banner(active: bool, attached: bool, controls: set<Control>)

  /** A `setTimeout` callback that has been scheduled and has not yet run, with its delay. */
  datatype Timer =
    | RevealTimer(delay: int)   // calls showBanner()
    | RemovalTimer(delay: int)  // detaches the container if it is still attached

  // ---------------------------------------------------------------------------
  // The environment
  // ---------------------------------------------------------------------------

  /** The environment as a value. `dataLayer` is None while `window.dataLayer` is undefined. */
  datatype Env = Env(
    storage: map<string, string>,   // localStorage
    gtagDefined: bool,              // window.gtag is defined
    dataLayer: Option<seq<Entry>>,  // window.dataLayer
    scripts: seq<string>,           // src of every script element appended to document.head
    styleInjected: bool,            // an element with id "cookie-consent-styles" exists
    reloadRequested: bool,          // window.location.reload() has been called
    now: int)                       // the clock: milliseconds since the epoch
  {
    /** The `gtag` function of these scripts pushes onto `dataLayer`, which it defines first. */
    predicate Valid() {
      gtagDefined ==> dataLayer.Some?
    }
  }

  /** A freshly loaded page: only the origin's storage survives from earlier loads. */
  function Loaded(storage: map<string, string>, now: int): (e: Env)
    ensures e.Valid()
  {
    Env(storage, false, None, [], false, false, now)
  }

  /** `dataLayer.push(e)`: what a call of `gtag(...)` does. */
  function Pushed(env: Env, e: Entry): (r: Env)
    requires env.dataLayer.Some?
    ensures r.Valid() == env.Valid()
  {
    env.(dataLayer := Some(env.dataLayer.value + [e]))
  }

  /** `window.dataLayer = window.dataLayer || []`. */
  function WithDataLayer(env: Env): (r: Env)
    ensures r.dataLayer.Some?
  {
    env.(dataLayer := Some(env.dataLayer.GetOr([])))
  }

  /** Between two states of one page, the tag was loaded at most once, and only when `gtag`
      was undefined. */
  predicate LoadsAtMostOnce(before: Env, after: Env, trackingId: string) {
    || (after.scripts == before.scripts && after.gtagDefined == before.gtagDefined)
    || (!before.gtagDefined && after.gtagDefined && after.scripts == before.scripts + [GtagScriptUrl(trackingId)])
  }

  /** Between two states of one page, the analytics queue was only appended to. */
  predicate QueueExtends(before: Env, after: Env) {
    before.dataLayer.Some? ==> after.dataLayer.Some? && before.dataLayer.value <= after.dataLayer.value
  }

  /** The browser window of one page load. */
  class Window {
    var storage: map<string, string>
    var gtagDefined: bool
    var dataLayer: Option<seq<Entry>>
    var scripts: seq<string>
    var styleInjected: bool
    var reloadRequested: bool
    var now: int

    function State(): Env
      reads this
    {
      Env(storage, gtagDefined, dataLayer, scripts, styleInjected, reloadRequested, now)
    }

    constructor (storage: map<string, string>, now: int)
      ensures State() == Loaded(storage, now)
    {
      this.storage := storage;
      gtagDefined := false;
      dataLayer := None;
      scripts := [];
      styleInjected := false;
      reloadRequested := false;
      this.now := now;
    }

    /** `localStorage.setItem(key, value)` */
    method SetItem(key: string, value: string)
      modifies this
      ensures State() == old(State()).(storage := old(storage)[key := value])
    {
      storage := storage[key := value];
    }

    /** `localStorage.removeItem(key)` */
    method RemoveItem(key: string)
      modifies this
      ensures State() == old(State()).(storage := old(storage) - {key})
    {
      storage := storage - {key};
    }

    /** `document.head.appendChild(script)` for a script with the given src */
    method AppendScript(src: string)
      modifies this
      ensures State() == old(State()).(scripts := old(scripts) + [src])
    {
      scripts := scripts + [src];
    }

    /** `document.head.appendChild(styleElement)` for the element with the marker id */
    method AppendStyle()
      modifies this
      ensures State() == old(State()).(styleInjected := true)
    {
      styleInjected := true;
    }

    /** `window.dataLayer = window.dataLayer || []` */
    method InitDataLayer()
      modifies this
      ensures State() == WithDataLayer(old(State()))
    {
      if dataLayer.None? {
        dataLayer := Some([]);
      }
    }

    /** `window.gtag = function () { dataLayer.push(arguments); }` */
    method DefineGtag()
      modifies this
      ensures State() == old(State()).(gtagDefined := true)
    {
      gtagDefined := true;
    }

    /** `dataLayer.push(arguments)` */
    method Push(e: Entry)
      requires dataLayer.Some?
      modifies this
      ensures State() == Pushed(old(State()), e)
    {
      dataLayer := Some(dataLayer.value + [e]);
    }

    /** `window.location.reload()`: the request only; the new page load is a new Window. */
    method Reload()
      modifies this
      ensures State() == old(State()).(reloadRequested := true)
    {
      reloadRequested := true;
    }
  }
}
