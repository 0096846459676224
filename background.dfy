/**
 * The background time tracker: at most one browsing session (tab, domain,
 * start time) and a ledger of whole seconds per domain, driven by four browser
 * events. Each handler is modelled twice: as a pure step function on
 * `TrackerState`, about which the lemmas below are proved, and as a method of
 * `SessionTracker` that updates the tracker's fields in place and is proved to
 * realise that step. Time (`Date.now()`), the asynchronously resolved tab and
 * URL hostname parsing are parameters; each flush is one atomic update.
 */
module Background {
  import opened Wrappers
  import opened Text

  /** `chrome.windows.WINDOW_ID_NONE`: no browser window has focus. */
  const WINDOW_ID_NONE: int := -1

  /** Domain name to accumulated whole seconds. */
  type Ledger = map<string, int>

  /** A browser tab as returned by a tab query; its URL may be unavailable. */
  datatype Tab = Tab(id: int, url: Option<string>)

  datatype TrackerState = TrackerState(
    activeTabId: Option<int>,
    activeDomain: Option<string>,
    sessionStart: Option<int>,
    durations: Ledger)

  /** The browser events the tracker listens to, with what they resolve. */
  datatype Event =
    | NavigationCommitted(tabId: int, url: string, frameId: int)
    | TabRemoved(removedTabId: int)
    | TabActivated(activatedTabId: int, tabUrl: Option<string>)
    | FocusChanged(windowId: int, focusedTab: Option<Tab>)

  /** JavaScript truthiness of a string-or-null. */
  predicate Truthy(s: Option<string>) {
    s.Some? && s.value != ""
  }

  /** JavaScript truthiness of a timestamp-or-null. */
  predicate IsSet(t: Option<int>) {
    t.Some? && t.value != 0
  }

  function Lookup(ledger: Ledger, domain: string): int {
    if domain in ledger then ledger[domain] else 0
  }

  /** `Math.floor((now - start) / 1000)`: the whole seconds elapsed. */
  function Elapsed(start: int, now: int): (secs: int)
    ensures secs * 1000 <= now - start < secs * 1000 + 1000
  {
    (now - start) / 1000
  }

  /** Every entry of `before` is present in `after` and has not decreased. */
  ghost predicate Grows(before: Ledger, after: Ledger) {
    forall d :: d in before ==> d in after && before[d] <= after[d]
  }

  ghost predicate NonNegative(ledger: Ledger) {
    forall d :: d in ledger ==> ledger[d] >= 0
  }

  /** `updateDuration`: add `duration` seconds to the domain's entry. */
  function AddDuration(ledger: Ledger, domain: Option<string>, duration: int): (r: Ledger)
    ensures !Truthy(domain) || duration <= 0 ==> r == ledger
    ensures Truthy(domain) && duration > 0 ==>
      r.Keys == ledger.Keys + {domain.value} && r[domain.value] == Lookup(ledger, domain.value) + duration
    ensures forall d :: d in ledger && Some(d) != domain ==> d in r && r[d] == ledger[d]
    ensures Grows(ledger, r)
  {
    if !Truthy(domain) || duration <= 0 then ledger
    else ledger[domain.value := Lookup(ledger, domain.value) + duration]
  }

  /** The guard every handler tests before accounting: a tab, a domain and a start are all set. */
  predicate Open(s: TrackerState) {
    s.activeTabId.Some? && Truthy(s.activeDomain) && IsSet(s.sessionStart)
  }

  /** The ledger after closing the current session at `now`, if it is open: the open
    * domain gains the whole seconds elapsed when there are any, and nothing else changes. */
  function Flush(s: TrackerState, now: int): (r: Ledger)
    ensures Open(s) && Elapsed(s.sessionStart.value, now) > 0 ==>
      var d := s.activeDomain.value;
      && r.Keys == s.durations.Keys + {d}
      && r[d] == Lookup(s.durations, d) + Elapsed(s.sessionStart.value, now)
    ensures !Open(s) || Elapsed(s.sessionStart.value, now) <= 0 ==> r == s.durations
    ensures forall d :: d in s.durations && !(Open(s) && s.activeDomain == Some(d)) ==> d in r && r[d] == s.durations[d]
    ensures Grows(s.durations, r)
  {
    if Open(s) then AddDuration(s.durations, s.activeDomain, Elapsed(s.sessionStart.value, now))
    else s.durations
  }

  function Cleared(ledger: Ledger): TrackerState {
    TrackerState(None, None, None, ledger)
  }

  /** `webNavigation.onCommitted`. */
  function AfterCommitted(s: TrackerState, now: int, tabId: int, url: string, frameId: int,
                       hostname: string -> Option<string>): TrackerState
  {
    if frameId == 0 && StartsWith(url, "http") then
      match hostname(url)
      case None => s
      case Some(h) => TrackerState(Some(tabId), Some(h), Some(now), Flush(s, now))
    else s
  }

  /** `tabs.onRemoved`. */
  function AfterRemoved(s: TrackerState, now: int, tabId: int): TrackerState {
    if s.activeTabId == Some(tabId) && Truthy(s.activeDomain) && IsSet(s.sessionStart) then
      Cleared(Flush(s, now))
    else s
  }

  /** `tabs.onActivated`, with `url` the URL of the tab `tabs.get` resolves (None: no tab or no URL). */
  function AfterActivated(s: TrackerState, now: int, tabId: int, url: Option<string>,
                       hostname: string -> Option<string>): TrackerState
  {
    var ledger := Flush(s, now);
    if url.Some? && StartsWith(url.value, "http") then
      match hostname(url.value)
      case None => Cleared(ledger)
      case Some(h) => TrackerState(Some(tabId), Some(h), Some(now), ledger)
    else Cleared(ledger)
  }

  /** `windows.onFocusChanged`, with `tab` the first active tab of the focused window, if any. */
  function AfterFocusChanged(s: TrackerState, now: int, windowId: int, tab: Option<Tab>,
                          hostname: string -> Option<string>): TrackerState
  {
    if windowId == WINDOW_ID_NONE then
      if Open(s) then s.(sessionStart := None, durations := Flush(s, now)) else s
    else if tab.Some? && tab.value.url.Some? && StartsWith(tab.value.url.value, "http") then
      match hostname(tab.value.url.value)
      case None => Cleared(s.durations)
      case Some(h) => s.(activeTabId := Some(tab.value.id), activeDomain := Some(h), sessionStart := Some(now))
    else s
  }

  function Step(s: TrackerState, now: int, e: Event, hostname: string -> Option<string>): TrackerState {
    match e
    case NavigationCommitted(tabId, url, frameId) => AfterCommitted(s, now, tabId, url, frameId, hostname)
    case TabRemoved(tabId) => AfterRemoved(s, now, tabId)
    case TabActivated(tabId, url) => AfterActivated(s, now, tabId, url, hostname)
    case FocusChanged(windowId, tab) => AfterFocusChanged(s, now, windowId, tab, hostname)
  }

  /** The state after a sequence of timestamped events, in order. */
  function Run(s: TrackerState, events: seq<(int, Event)>, hostname: string -> Option<string>): TrackerState
    decreases |events|
  {
    if events == [] then s
    else Run(Step(s, events[0].0, events[0].1, hostname), events[1..], hostname)
  }

  // ----- Properties of the handlers -----

  /** A navigation in a sub-frame, or to a URL not starting with "http", changes nothing. */
  lemma CommittedIgnoresOtherNavigations(s: TrackerState, now: int, tabId: int, url: string, frameId: int,
                                         hostname: string -> Option<string>)
    requires frameId != 0 || !StartsWith(url, "http")
    ensures AfterCommitted(s, now, tabId, url, frameId, hostname) == s
  {
  }

  /** An unparsable top-frame URL aborts the event before the old session is flushed. */
  lemma CommittedUnparsableKeepsState(s: TrackerState, now: int, tabId: int, url: string,
                                      hostname: string -> Option<string>)
    requires hostname(url).None?
    ensures AfterCommitted(s, now, tabId, url, 0, hostname) == s
  {
  }

  /** A valid top-frame navigation credits the old session's elapsed seconds to its
    * domain (only if it was open) and then starts a new session at `now`. */
  lemma CommittedFlushesThenInstalls(s: TrackerState, now: int, tabId: int, url: string, h: string,
                                     hostname: string -> Option<string>)
    requires StartsWith(url, "http") && hostname(url) == Some(h)
    ensures var r := AfterCommitted(s, now, tabId, url, 0, hostname);
      && r.activeTabId == Some(tabId) && r.activeDomain == Some(h) && r.sessionStart == Some(now)
      && (Open(s) ==> r.durations == AddDuration(s.durations, s.activeDomain, Elapsed(s.sessionStart.value, now)))
      && (!Open(s) ==> r.durations == s.durations)
  {
  }

  /** Removing a tab other than the session's, or while no session is open, is a no-op;
    * otherwise the session is flushed and all three fields are cleared. */
  lemma RemovedOnlyClosesOwnSession(s: TrackerState, now: int, tabId: int)
    ensures var r := AfterRemoved(s, now, tabId);
      && (s.activeTabId != Some(tabId) || !Open(s) ==> r == s)
      && (s.activeTabId == Some(tabId) && Open(s) ==> r == Cleared(Flush(s, now)))
  {
  }

  /** Activation always flushes the prior open session; it then tracks the activated tab
    * only when its URL starts with "http" and parses, and otherwise clears the session. */
  lemma ActivatedFlushesThenTracks(s: TrackerState, now: int, tabId: int, url: Option<string>,
                                   hostname: string -> Option<string>)
    ensures var r := AfterActivated(s, now, tabId, url, hostname);
      && r.durations == Flush(s, now)
      && (if url.Some? && StartsWith(url.value, "http") && hostname(url.value).Some?
          then r.activeTabId == Some(tabId) && r.activeDomain == hostname(url.value) && r.sessionStart == Some(now)
          else r.activeTabId.None? && r.activeDomain.None? && r.sessionStart.None?)
  {
  }

  /** Losing all focus flushes the open session and clears only its start time. */
  lemma BlurKeepsTabAndDomain(s: TrackerState, now: int, tab: Option<Tab>, hostname: string -> Option<string>)
    ensures var r := AfterFocusChanged(s, now, WINDOW_ID_NONE, tab, hostname);
      && r.durations == Flush(s, now)
      && r.activeTabId == s.activeTabId && r.activeDomain == s.activeDomain
      && (Open(s) ==> r.sessionStart.None?)
      && (!Open(s) ==> r == s)
  {
  }

  /** After a blur no event credits any time until some handler sets a new start:
    * the next flush, whatever the event and its time, leaves the ledger as it is. */
  lemma {:induction false} NoFlushAfterBlur(s: TrackerState, now: int, tab: Option<Tab>, later: int,
                                            hostname: string -> Option<string>)
    ensures !Open(AfterFocusChanged(s, now, WINDOW_ID_NONE, tab, hostname))
    ensures var b := AfterFocusChanged(s, now, WINDOW_ID_NONE, tab, hostname);
      Flush(b, later) == b.durations
  {
    var b := AfterFocusChanged(s, now, WINDOW_ID_NONE, tab, hostname);
    if Open(s) {
      assert b.sessionStart.None?;
      assert !Open(b);
    }
  }

  /** Gaining focus on an http tab installs a new session without crediting the open one:
    * the seconds since the old start are never added to the ledger. */
  lemma FocusGainDropsOpenSession(s: TrackerState, now: int, windowId: int, tab: Tab, h: string,
                                  hostname: string -> Option<string>)
    requires windowId != WINDOW_ID_NONE
    requires tab.url.Some? && StartsWith(tab.url.value, "http") && hostname(tab.url.value) == Some(h)
    ensures var r := AfterFocusChanged(s, now, windowId, Some(tab), hostname);
      && r.durations == s.durations
      && r == TrackerState(Some(tab.id), Some(h), Some(now), s.durations)
  {
  }

  /** Gaining focus on a window whose active tab is absent or not http leaves everything as it was. */
  lemma FocusGainOnOtherTabKeepsState(s: TrackerState, now: int, windowId: int, tab: Option<Tab>,
                                      hostname: string -> Option<string>)
    requires windowId != WINDOW_ID_NONE
    requires tab.None? || tab.value.url.None? || !StartsWith(tab.value.url.value, "http")
    ensures AfterFocusChanged(s, now, windowId, tab, hostname) == s
  {
  }

  /** Every event either leaves the ledger alone or credits exactly the open session's
    * elapsed seconds to its domain; nothing is credited to any other domain. */
  lemma StepCreditsOnlyOpenSession(s: TrackerState, now: int, e: Event, hostname: string -> Option<string>)
    ensures var r := Step(s, now, e, hostname);
      r.durations == s.durations || r.durations == Flush(s, now)
  {
  }

  /** Whenever an event credits time, the session's start moves to `now` or is cleared,
    * so the same interval is never credited twice. */
  lemma {:induction false} StepRestartsClockAfterCredit(s: TrackerState, now: int, e: Event,
                                                        hostname: string -> Option<string>)
    ensures var r := Step(s, now, e, hostname);
      r.durations != s.durations ==> r.sessionStart == Some(now) || r.sessionStart.None?
  {
    match e
    case NavigationCommitted(tabId, url, frameId) =>
    case TabRemoved(tabId) =>
    case TabActivated(tabId, url) =>
    case FocusChanged(windowId, tab) =>
      if windowId != WINDOW_ID_NONE {
        assert Step(s, now, e, hostname).durations == s.durations;
      }
  }

  lemma StepGrows(s: TrackerState, now: int, e: Event, hostname: string -> Option<string>)
    ensures Grows(s.durations, Step(s, now, e, hostname).durations)
  {
    StepCreditsOnlyOpenSession(s, now, e, hostname);
  }

  lemma GrowsTransitive(a: Ledger, b: Ledger, c: Ledger)
    requires Grows(a, b) && Grows(b, c)
    ensures Grows(a, c)
  {
  }

  /** Over any sequence of events, ledger entries are never removed and never decrease. */
  lemma {:induction false} RunGrows(s: TrackerState, events: seq<(int, Event)>, hostname: string -> Option<string>)
    ensures Grows(s.durations, Run(s, events, hostname).durations)
    decreases |events|
  {
    if events != [] {
      var t := Step(s, events[0].0, events[0].1, hostname);
      StepGrows(s, events[0].0, events[0].1, hostname);
      RunGrows(t, events[1..], hostname);
      GrowsTransitive(s.durations, t.durations, Run(t, events[1..], hostname).durations);
    }
  }

  /** A ledger of non-negative entries stays non-negative over any sequence of events. */
  lemma {:induction false} RunKeepsNonNegative(s: TrackerState, events: seq<(int, Event)>,
                                               hostname: string -> Option<string>)
    requires NonNegative(s.durations)
    ensures NonNegative(Run(s, events, hostname).durations)
    decreases |events|
  {
    if events != [] {
      var t := Step(s, events[0].0, events[0].1, hostname);
      StepCreditsOnlyOpenSession(s, events[0].0, events[0].1, hostname);
      RunKeepsNonNegative(t, events[1..], hostname);
    }
  }

  // ----- Crediting over a sequence of navigations -----

  /** A top-frame navigation to an http URL whose host parses to a non-empty name. */
  predicate ValidNavigation(e: Event, hostname: string -> Option<string>) {
    && e.NavigationCommitted? && e.frameId == 0 && StartsWith(e.url, "http")
    && hostname(e.url).Some? && hostname(e.url).value != ""
  }

  /** Timestamps that never go back, starting no earlier than `from`. */
  predicate Chronological(from: int, events: seq<(int, Event)>)
    decreases |events|
  {
    events == [] || (from <= events[0].0 && Chronological(events[0].0, events[1..]))
  }

  /** The session open in `s`, as its domain and start time. */
  function OpenSession(s: TrackerState): Option<(string, int)> {
    if Open(s) then Some((s.activeDomain.value, s.sessionStart.value)) else None
  }

  /** The seconds a sequence of navigations should credit to `d`: each session, the one
    * `open` at the start and then one per navigation, lasts until the next navigation,
    * and each one on `d` contributes its whole elapsed seconds. The last session is
    * still open and contributes nothing yet. */
  ghost function SessionCredit(d: string, open: Option<(string, int)>, events: seq<(int, Event)>,
                               hostname: string -> Option<string>): int
    requires forall i :: 0 <= i < |events| ==> ValidNavigation(events[i].1, hostname)
    decreases |events|
  {
    if events == [] then 0
    else
      assert ValidNavigation(events[0].1, hostname);
      var t := events[0].0;
      var host := hostname(events[0].1.url).value;
      (if open.Some? && open.value.0 == d then Elapsed(open.value.1, t) else 0)
      + SessionCredit(d, Some((host, t)), events[1..], hostname)
  }

  /** Flushing an open session adds its elapsed seconds to its own domain and nothing elsewhere. */
  lemma FlushLookup(s: TrackerState, now: int, d: string)
    requires Open(s) ==> s.sessionStart.value <= now
    ensures Lookup(Flush(s, now), d) == Lookup(s.durations, d)
      + (if Open(s) && s.activeDomain.value == d then Elapsed(s.sessionStart.value, now) else 0)
  {
    if Open(s) {
      var secs := Elapsed(s.sessionStart.value, now);
      assert secs >= 0;
    }
  }

  /** Over navigations at non-decreasing, positive times, every domain gains exactly the
    * elapsed seconds of its sessions: each interval is credited once, to the domain that
    * was open during it. */
  lemma {:induction false} RunCreditsSessions(s: TrackerState, events: seq<(int, Event)>,
                                              hostname: string -> Option<string>, d: string)
    requires forall i :: 0 <= i < |events| ==> ValidNavigation(events[i].1, hostname)
    requires forall i :: 0 <= i < |events| ==> events[i].0 > 0
    requires Chronological(if Open(s) then s.sessionStart.value else 0, events)
    ensures Lookup(Run(s, events, hostname).durations, d)
         == Lookup(s.durations, d) + SessionCredit(d, OpenSession(s), events, hostname)
    decreases |events|
  {
    if events != [] {
      var t, e := events[0].0, events[0].1;
      assert ValidNavigation(e, hostname) && t > 0;
      var host := hostname(e.url).value;
      var next := Step(s, t, e, hostname);
      assert next == TrackerState(Some(e.tabId), Some(host), Some(t), Flush(s, t));
      FlushLookup(s, t, d);
      assert OpenSession(next) == Some((host, t));
      var rest := events[1..];
      assert forall i :: 0 <= i < |rest| ==> rest[i] == events[i + 1];
      RunCreditsSessions(next, rest, hostname, d);
    }
  }

  /** Two navigations after an open "a.com" session: "a.com" is credited for both of its
    * sessions and "b.com" for the one in between. */
  lemma SessionsScenario(ledger: Ledger, hostname: string -> Option<string>)
    requires hostname("https://a.com/") == Some("a.com") && hostname("https://b.com/") == Some("b.com")
    ensures var s := TrackerState(Some(1), Some("a.com"), Some(1_000), ledger);
      var events := [(11_000, NavigationCommitted(1, "https://b.com/", 0)),
                     (41_500, NavigationCommitted(1, "https://a.com/", 0)),
                     (46_000, NavigationCommitted(2, "https://b.com/", 0))];
      var r := Run(s, events, hostname).durations;
      && Lookup(r, "a.com") == Lookup(ledger, "a.com") + 14
      && Lookup(r, "b.com") == Lookup(ledger, "b.com") + 30
  {
    var s := TrackerState(Some(1), Some("a.com"), Some(1_000), ledger);
    var events := [(11_000, NavigationCommitted(1, "https://b.com/", 0)),
                   (41_500, NavigationCommitted(1, "https://a.com/", 0)),
                   (46_000, NavigationCommitted(2, "https://b.com/", 0))];
    assert StartsWith("https://a.com/", "http") && StartsWith("https://b.com/", "http");
    RunCreditsSessions(s, events, hostname, "a.com");
    RunCreditsSessions(s, events, hostname, "b.com");
  }

  /** "a.com" open for 65 seconds, then a navigation to "b.com": 65 seconds go to "a.com"
    * and "b.com" starts from zero. */
  lemma NavigationScenario(ledger: Ledger, hostname: string -> Option<string>)
    requires "a.com" !in ledger && "b.com" !in ledger
    requires hostname("https://b.com/") == Some("b.com")
    ensures var s := TrackerState(Some(7), Some("a.com"), Some(1_000_000), ledger);
      var r := AfterCommitted(s, 1_065_000, 7, "https://b.com/", 0, hostname);
      && r.durations == ledger["a.com" := 65]
      && r.activeDomain == Some("b.com") && r.sessionStart == Some(1_065_000)
  {
    assert StartsWith("https://b.com/", "http");
  }

  /**
   * The tracker as the background script holds it: three module-level variables
   * and the stored ledger, reassigned by the event handlers.
   */
  class SessionTracker {
    var activeTabId: Option<int>
    var activeDomain: Option<string>
    var sessionStart: Option<int>
    var durations: Ledger

    function State(): TrackerState
      reads this
    {
      TrackerState(activeTabId, activeDomain, sessionStart, durations)
    }

    /** Start of the background script: no session, and the ledger as stored. */
    constructor (stored: Ledger)
      ensures State() == Cleared(stored)
    {
      activeTabId, activeDomain, sessionStart := None, None, None;
      durations := stored;
    }

    /** `updateDuration`, with the storage read-modify-write taken as one step. */
    method UpdateDuration(domain: Option<string>, duration: int)
      modifies this`durations
      ensures durations == AddDuration(old(durations), domain, duration)
      ensures Grows(old(durations), durations)
    {
      if !Truthy(domain) || duration <= 0 {
        return;
      }
      var d := domain.value;
      var previous := if d in durations then durations[d] else 0;
      durations := durations[d := previous + duration];
    }

    /** The flush each handler performs when a tab, a domain and a start are set. */
    method FlushAt(now: int)
      modifies this`durations
      ensures durations == Flush(old(State()), now)
    {
      if activeTabId.Some? && Truthy(activeDomain) && IsSet(sessionStart) {
        var duration := (now - sessionStart.value) / 1000;
        UpdateDuration(activeDomain, duration);
      }
    }

    method OnCommitted(now: int, tabId: int, url: string, frameId: int, hostname: string -> Option<string>)
      modifies this
      ensures State() == AfterCommitted(old(State()), now, tabId, url, frameId, hostname)
    {
      if frameId == 0 && StartsWith(url, "http") {
        var newDomain := hostname(url);
        if newDomain.None? {
          return;
        }
        FlushAt(now);
        activeTabId := Some(tabId);
        activeDomain := newDomain;
        sessionStart := Some(now);
      }
    }

    method OnRemoved(now: int, tabId: int)
      modifies this
      ensures State() == AfterRemoved(old(State()), now, tabId)
    {
      if activeTabId == Some(tabId) && Truthy(activeDomain) && IsSet(sessionStart) {
        FlushAt(now);
        activeTabId, activeDomain, sessionStart := None, None, None;
      }
    }

    method OnActivated(now: int, tabId: int, url: Option<string>, hostname: string -> Option<string>)
      modifies this
      ensures State() == AfterActivated(old(State()), now, tabId, url, hostname)
    {
      FlushAt(now);
      if url.Some? && StartsWith(url.value, "http") {
        activeTabId := Some(tabId);
        var host := hostname(url.value);
        if host.Some? {
          activeDomain := host;
          sessionStart := Some(now);
        } else {
          activeTabId, activeDomain, sessionStart := None, None, None;
        }
      } else {
        activeTabId, activeDomain, sessionStart := None, None, None;
      }
    }

    method OnFocusChanged(now: int, windowId: int, tab: Option<Tab>, hostname: string -> Option<string>)
      modifies this
      ensures State() == AfterFocusChanged(old(State()), now, windowId, tab, hostname)
    {
      if windowId == WINDOW_ID_NONE {
        if activeTabId.Some? && Truthy(activeDomain) && IsSet(sessionStart) {
          FlushAt(now);
          sessionStart := None;
        }
      } else if tab.Some? && tab.value.url.Some? && StartsWith(tab.value.url.value, "http") {
        activeTabId := Some(tab.value.id);
        var host := hostname(tab.value.url.value);
        if host.Some? {
          activeDomain := host;
          sessionStart := Some(now);
        } else {
          activeTabId, activeDomain, sessionStart := None, None, None;
        }
      }
    }
  }
}
