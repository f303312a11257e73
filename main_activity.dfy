/** The host activity (MainActivity.kt): which browser screen to request when the
    session list changes, how toolbar events, back presses and key events are
    routed to the browser fragment, what the toolbar shows as URL, and the toolbar
    state provider that delegates to the browser fragment.

    The fragment manager lookup `findFragmentByTag(BrowserFragment.FRAGMENT_TAG)` is
    the field `browserFragment`: absent, or present with a visibility flag and the
    answers the fragment would give. ScreenController is the last screen request. */
module Focus {
  import opened Wrappers
  import opened Toolbar
  import opened Prefs

  /** BrowserFragment.APP_URL_HOME, the sentinel URL of the home screen. */
  const AppUrlHome: string := "firefox:home"

  /** Provenance of a URL handed to the screen controller. */
  datatype Source = NoSource | UserEntered | ExternalIntent

  /** A browsing session. The activity reads only whether the session list is
      empty; the fields say what a session is. */
  datatype Session = Session(id: string, url: string, source: Source)

  /** The calls the activity makes on ScreenController. */
  datatype ScreenRequest =
    | BrowserForUrl(url: string, source: Source)
    | BrowserForCurrentSession
    | SettingsScreen

  /** The browser fragment as the activity sees it: whether it is visible, and its
      answers to a back press, to the key event being dispatched, and to the
      toolbar's state questions. */
  datatype BrowserView = BrowserView(
    isVisible: bool, handlesBack: bool, handlesKey: bool, navigationState: NavigationState)

  /** One call of browserFragment.onNavigationEvent, with the blocking setting as
      the fragment finds it at that moment. */
  datatype Handover = Handover(dispatch: Dispatch, blockingEnabled: bool)

  predicate ShowingBrowser(browser: Option<BrowserView>) {
    browser.Some? && browser.value.isVisible
  }

  // ---------------------------------------------------------------------------
  // Session observer

  /** The screen requested for one emission of the session list. */
  function ScreenForSessions(sessions: seq<Session>): (r: ScreenRequest)
    ensures sessions == [] <==> r == BrowserForUrl(AppUrlHome, NoSource)
    ensures sessions != [] <==> r == BrowserForCurrentSession
  {
    if |sessions| == 0 then BrowserForUrl(AppUrlHome, NoSource) else BrowserForCurrentSession
  }

  // ---------------------------------------------------------------------------
  // Back press and key dispatch

  datatype BackOutcome = BackOutcome(browserConsulted: bool, hostDefaultRuns: bool)

  /** onBackPressed: the browser fragment gets first refusal. */
  function OnBackPressed(browser: Option<BrowserView>): (r: BackOutcome)
    ensures r.browserConsulted <==> ShowingBrowser(browser)
    ensures r.hostDefaultRuns <==> !(ShowingBrowser(browser) && browser.value.handlesBack)
  {
    if browser.Some? && browser.value.isVisible && browser.value.handlesBack then
      BackOutcome(true, false)
    else
      BackOutcome(browser.Some? && browser.value.isVisible, true)
  }

  datatype KeyOutcome = KeyOutcome(handled: bool, browserConsulted: bool, hostConsulted: bool)

  /** dispatchKeyEvent: `hostHandles` is what the activity's own dispatch returns. */
  function DispatchKeyEvent(browser: Option<BrowserView>, hostHandles: bool): (r: KeyOutcome)
    ensures r.browserConsulted <==> ShowingBrowser(browser)
    ensures r.hostConsulted <==> !(ShowingBrowser(browser) && browser.value.handlesKey)
    ensures ShowingBrowser(browser) ==> r.handled == (browser.value.handlesKey || hostHandles)
    ensures !ShowingBrowser(browser) ==> r.handled == hostHandles
  {
    if browser.Some? && browser.value.isVisible then
      if browser.value.handlesKey then KeyOutcome(true, true, false)
      else KeyOutcome(hostHandles, true, true)
    else
      KeyOutcome(hostHandles, false, true)
  }

  // ---------------------------------------------------------------------------
  // Toolbar event routing

  /** What one onToolbarEvent call does: a screen request, a write of the blocking
      setting, and a hand-over to the browser fragment, each optional. */
  datatype Route = Route(screen: Option<ScreenRequest>, blockingWrite: Option<bool>, forward: Option<Dispatch>)

  function RouteToolbarEvent(
    event: NavigationEvent, value: Option<string>, autocomplete: Option<AutocompleteResult>,
    browser: Option<BrowserView>): (r: Route)
    ensures event == Settings ==> r == Route(Some(SettingsScreen), None, None)
    ensures event != Settings ==> r.screen == None
    ensures event == Turbo ==> r.blockingWrite == Some(value == Some(ValChecked))
    ensures event != Turbo ==> r.blockingWrite == None
    ensures event != Settings && ShowingBrowser(browser) ==> r.forward == Some(Dispatch(event, value, autocomplete))
    ensures !ShowingBrowser(browser) ==> r.forward == None
  {
    if event == Settings then Route(Some(SettingsScreen), None, None)
    else
      var write := if event == Turbo then Some(value == Some(ValChecked)) else None;
      var forward := if browser.Some? && browser.value.isVisible then Some(Dispatch(event, value, autocomplete)) else None;
      Route(None, write, forward)
  }

  // ---------------------------------------------------------------------------
  // Toolbar URL display

  /** The URL the toolbar shows after the browser fragment reports `url`. */
  function ToolbarUrlAfterUpdate(current: string, url: Option<string>): (r: string)
    ensures url == Some(AppUrlHome) ==> r == ""
    ensures url == None ==> r == current
    ensures url.Some? && url.value != AppUrlHome ==> r == url.value
    ensures r != AppUrlHome || current == AppUrlHome
  {
    match url
    case None => current
    case Some(u) => if u == AppUrlHome then "" else u
  }

  // ---------------------------------------------------------------------------
  // Toolbar state provider

  /** DelegateToBrowserFragmentNavigationStateProvider's boolean queries. The lookup
      checks only that the fragment exists, not that it is visible. */
  function ProviderQuery(browser: Option<BrowserView>, q: StateQuery): (r: bool)
    ensures browser == None ==> !r
    ensures browser.Some? ==> r == browser.value.navigationState.Answer(q)
  {
    match browser
    case None => false
    case Some(b) => b.navigationState.Answer(q)
  }

  /** DelegateToBrowserFragmentNavigationStateProvider.getCurrentUrl. */
  function ProviderCurrentUrl(browser: Option<BrowserView>): (r: Option<string>)
    ensures browser == None ==> r == None
    ensures browser.Some? ==> r == browser.value.navigationState.currentUrl
  {
    match browser
    case None => None
    case Some(b) => b.navigationState.currentUrl
  }

  // ---------------------------------------------------------------------------
  // The activity's state

  class MainActivity {
    /** Settings.getInstance(context), shared with the home tile overlay. */
    const settings: Preferences
    /** The result of looking the browser fragment up by its tag. */
    var browserFragment: Option<BrowserView>
    /** The last call made on ScreenController. */
    var lastScreenRequest: Option<ScreenRequest>
    /** Every call of browserFragment.onNavigationEvent, in order. */
    var forwarded: seq<Handover>
    /** toolbar.url */
    var toolbarUrl: string
    /** How many times toolbar.invalidateActions() has run. */
    var actionInvalidations: nat

    constructor (settings: Preferences, browserFragment: Option<BrowserView>)
      ensures this.settings == settings && this.browserFragment == browserFragment
      ensures lastScreenRequest == None && forwarded == [] && toolbarUrl == "" && actionInvalidations == 0
    {
      this.settings := settings;
      this.browserFragment := browserFragment;
      lastScreenRequest := None;
      forwarded := [];
      toolbarUrl := "";
      actionInvalidations := 0;
    }

    /** The session-list observer registered in onCreate. */
    method OnSessionsChanged(sessions: seq<Session>)
      modifies this`lastScreenRequest
      ensures lastScreenRequest == Some(ScreenForSessions(sessions))
    {
      if |sessions| == 0 {
        // No active session: start one on the home page.
        lastScreenRequest := Some(BrowserForUrl(AppUrlHome, NoSource));
      } else {
        lastScreenRequest := Some(BrowserForCurrentSession);
      }
    }

    /** onValidBrowserIntent: a validated external request pre-empts the observer. */
    method OnValidBrowserIntent(url: string, source: Source)
      modifies this`lastScreenRequest
      ensures lastScreenRequest == Some(BrowserForUrl(url, source))
    {
      lastScreenRequest := Some(BrowserForUrl(url, source));
    }

    /** onToolbarEvent */
    method OnToolbarEvent(event: NavigationEvent, value: Option<string>, autocomplete: Option<AutocompleteResult>)
      modifies this`lastScreenRequest, this`forwarded, settings`isBlockingEnabled
      ensures var r := RouteToolbarEvent(event, value, autocomplete, browserFragment);
        && lastScreenRequest == (if r.screen.Some? then r.screen else old(lastScreenRequest))
        && settings.isBlockingEnabled == (if r.blockingWrite.Some? then r.blockingWrite.value else old(settings.isBlockingEnabled))
        && forwarded == old(forwarded) + (if r.forward.Some? then [Handover(r.forward.value, settings.isBlockingEnabled)] else [])
      // TURBO persists the setting before the hand-over: the fragment already sees it.
      ensures event == Turbo && ShowingBrowser(browserFragment) ==>
        forwarded[|forwarded| - 1] == Handover(Dispatch(Turbo, value, autocomplete), value == Some(ValChecked))
    {
      match event {
        case Settings =>
          lastScreenRequest := Some(SettingsScreen);
          return;
        case Turbo =>
          settings.isBlockingEnabled := value == Some(ValChecked);
        case _ =>
      }
      var fragment := browserFragment;
      if fragment.Some? && fragment.value.isVisible {
        forwarded := forwarded + [Handover(Dispatch(event, value, autocomplete), settings.isBlockingEnabled)];
      }
      // The browser fragment is the only fragment: an absent or hidden one drops the event.
    }

    /** The onUrlUpdate callback installed on every attached browser fragment. */
    method OnUrlUpdate(url: Option<string>)
      modifies this`toolbarUrl, this`actionInvalidations
      ensures toolbarUrl == ToolbarUrlAfterUpdate(old(toolbarUrl), url)
      ensures actionInvalidations == old(actionInvalidations) + 1
    {
      match url {
        case Some(u) =>
          if u == AppUrlHome {
            toolbarUrl := ""; // the toolbar shows its hint instead
          } else {
            toolbarUrl := u;
          }
        case None =>
      }
      actionInvalidations := actionInvalidations + 1;
    }
  }

  // ---------------------------------------------------------------------------
  // Runs of toolbar events and URL updates

  /** The blocking setting after a run of toolbar events, starting from `blocking`. */
  function BlockingAfter(blocking: bool, events: seq<Dispatch>, browser: Option<BrowserView>): bool
    decreases |events|
  {
    if events == [] then blocking
    else
      var last := events[|events| - 1];
      var before := BlockingAfter(blocking, events[..|events| - 1], browser);
      var r := RouteToolbarEvent(last.event, last.value, last.autocomplete, browser);
      if r.blockingWrite.Some? then r.blockingWrite.value else before
  }

  /** Event `i` of a run is a TURBO event and no later one is. */
  predicate LastTurboAt(events: seq<Dispatch>, i: int)
    requires 0 <= i < |events|
  {
    events[i].event == Turbo && forall j :: i < j < |events| ==> events[j].event != Turbo
  }

  /** The blocking setting is decided by the last TURBO event of a run alone, and a
      run without one leaves it as it was. */
  lemma {:induction false} BlockingFollowsLastTurbo(blocking: bool, events: seq<Dispatch>, browser: Option<BrowserView>)
    ensures (forall i :: 0 <= i < |events| ==> events[i].event != Turbo) ==>
      BlockingAfter(blocking, events, browser) == blocking
    ensures forall i :: 0 <= i < |events| && LastTurboAt(events, i) ==>
      BlockingAfter(blocking, events, browser) == (events[i].value == Some(ValChecked))
    decreases |events|
  {
    if events != [] {
      var n := |events| - 1;
      var front := events[..n];
      BlockingFollowsLastTurbo(blocking, front, browser);
      forall i | 0 <= i < |events| && LastTurboAt(events, i)
        ensures BlockingAfter(blocking, events, browser) == (events[i].value == Some(ValChecked))
      {
        if i < n {
          assert events[n].event != Turbo;
          assert LastTurboAt(front, i) by {
            forall j | i < j < n ensures front[j].event != Turbo { assert front[j] == events[j]; }
          }
        }
      }
      if forall i :: 0 <= i < |events| ==> events[i].event != Turbo {
        assert forall i :: 0 <= i < n ==> front[i].event != Turbo by {
          forall i | 0 <= i < n ensures front[i].event != Turbo { assert front[i] == events[i]; }
        }
      }
    }
  }

  /** Everything handed to the browser fragment over a run of toolbar events. */
  function ForwardedAfter(events: seq<Dispatch>, browser: Option<BrowserView>): seq<Dispatch>
    decreases |events|
  {
    if events == [] then []
    else
      var last := events[|events| - 1];
      var r := RouteToolbarEvent(last.event, last.value, last.autocomplete, browser);
      ForwardedAfter(events[..|events| - 1], browser) + (if r.forward.Some? then [r.forward.value] else [])
  }

  /** The events of a run other than SETTINGS, in order. */
  function WithoutSettings(events: seq<Dispatch>): seq<Dispatch>
    decreases |events|
  {
    if events == [] then []
    else if events[0].event == Settings then WithoutSettings(events[1..])
    else [events[0]] + WithoutSettings(events[1..])
  }

  lemma {:induction false} WithoutSettingsAppend(events: seq<Dispatch>, e: Dispatch)
    ensures WithoutSettings(events + [e]) == WithoutSettings(events) + (if e.event == Settings then [] else [e])
    decreases |events|
  {
    if events == [] {
      assert events + [e] == [e];
      assert [e][1..] == [];
    } else {
      assert (events + [e])[0] == events[0];
      assert (events + [e])[1..] == events[1..] + [e];
      WithoutSettingsAppend(events[1..], e);
    }
  }

  /** A visible browser fragment receives exactly the non-SETTINGS events of a run,
      unchanged and in order; an absent or hidden one receives nothing. */
  lemma {:induction false} ForwardedIsEveryNonSettingsEvent(events: seq<Dispatch>, browser: Option<BrowserView>)
    ensures ForwardedAfter(events, browser) == if ShowingBrowser(browser) then WithoutSettings(events) else []
    decreases |events|
  {
    if events != [] {
      var n := |events| - 1;
      ForwardedIsEveryNonSettingsEvent(events[..n], browser);
      assert events[..n] + [events[n]] == events;
      WithoutSettingsAppend(events[..n], events[n]);
    }
  }

  /** The toolbar URL after a run of onUrlUpdate calls. */
  function ToolbarUrlAfter(current: string, urls: seq<Option<string>>): string
    decreases |urls|
  {
    if urls == [] then current
    else ToolbarUrlAfterUpdate(ToolbarUrlAfter(current, urls[..|urls| - 1]), urls[|urls| - 1])
  }

  /** Report `i` of a run is a URL and every later one is null. */
  predicate LastReportAt(urls: seq<Option<string>>, i: int)
    requires 0 <= i < |urls|
  {
    urls[i].Some? && forall j :: i < j < |urls| ==> urls[j] == None
  }

  /** The toolbar shows the last reported URL (the home sentinel as the empty
      string), and keeps its URL through a run that reports only nulls. */
  lemma {:induction false} ToolbarShowsLastReportedUrl(current: string, urls: seq<Option<string>>)
    ensures (forall i :: 0 <= i < |urls| ==> urls[i] == None) ==> ToolbarUrlAfter(current, urls) == current
    ensures forall i :: 0 <= i < |urls| && LastReportAt(urls, i) ==>
      ToolbarUrlAfter(current, urls) == (if urls[i].value == AppUrlHome then "" else urls[i].value)
    decreases |urls|
  {
    if urls != [] {
      var n := |urls| - 1;
      var front := urls[..n];
      ToolbarShowsLastReportedUrl(current, front);
      forall i | 0 <= i < |urls| && LastReportAt(urls, i)
        ensures ToolbarUrlAfter(current, urls) == (if urls[i].value == AppUrlHome then "" else urls[i].value)
      {
        if i < n {
          assert urls[n] == None;
          assert LastReportAt(front, i) by {
            forall j | i < j < n ensures front[j] == None { assert front[j] == urls[j]; }
          }
        }
      }
      if forall i :: 0 <= i < |urls| ==> urls[i] == None {
        assert forall i :: 0 <= i < n ==> front[i] == None by {
          forall i | 0 <= i < n ensures front[i] == None { assert front[i] == urls[i]; }
        }
      }
    }
  }

  /** The toolbar never shows the home sentinel literally unless it started with it. */
  lemma {:induction false} ToolbarNeverShowsSentinel(current: string, urls: seq<Option<string>>)
    requires current != AppUrlHome
    ensures ToolbarUrlAfter(current, urls) != AppUrlHome
    decreases |urls|
  {
    if urls != [] {
      ToolbarNeverShowsSentinel(current, urls[..|urls| - 1]);
    }
  }
}
