/** The home tile overlay (HomeTileGridNavigation.kt): tile activation, the
    throttled unpin prompt on tile focus, the URL field's commit and
    "user changed the URL" bookkeeping, overlay button clicks, the ordered effects
    of setVisibility, and the overlay scroll view's padded scroll delta.

    Views are reduced to the state the overlay reads and writes; the callbacks it
    invokes (onNavigationEvent, onPreSetVisibilityListener) are recorded, in order,
    in the overlay's effect log when they are set. */
module FocusBrowser {
  import opened Wrappers
  import opened Toolbar
  import opened Prefs

  /** MAX_UNPIN_TOAST_COUNT */
  const MaxUnpinToastCount: int := 3

  // ---------------------------------------------------------------------------
  // Unpin prompt throttle

  /** The persisted prompt counter and this overlay instance's canShowUpinToast. */
  datatype Throttle = Throttle(counter: int, canShow: bool)

  /** One onTileFocused callback: the state afterwards and whether the prompt shows. */
  function TileFocused(t: Throttle): (r: (Throttle, bool))
    ensures r.1 <==> t.counter < MaxUnpinToastCount && t.canShow
    ensures r.1 ==> r.0 == Throttle(t.counter + 1, false)
    ensures !r.1 ==> r.0 == t
  {
    if t.counter < MaxUnpinToastCount && t.canShow then (Throttle(t.counter + 1, false), true)
    else (t, false)
  }

  /** `n` focus events on one overlay instance: the final state and the number of
      prompts shown. */
  function FocusRun(t: Throttle, n: nat): (Throttle, nat)
    decreases n
  {
    if n == 0 then (t, 0)
    else
      var (t1, shown) := TileFocused(t);
      var (t2, k) := FocusRun(t1, n - 1);
      (t2, k + if shown then 1 else 0)
  }

  /** However many focus events arrive, one overlay instance shows the prompt at
      most once, exactly once when it may and there is a focus event, and the
      counter grows by the number of prompts shown and stays capped. */
  lemma {:induction false} FocusRunShowsAtMostOnce(t: Throttle, n: nat)
    ensures var (t', shown) := FocusRun(t, n);
      && shown <= 1
      && shown == (if n > 0 && t.canShow && t.counter < MaxUnpinToastCount then 1 else 0)
      && t'.counter == t.counter + shown
      && (t.counter <= MaxUnpinToastCount ==> t'.counter <= MaxUnpinToastCount)
      && t'.canShow == (t.canShow && shown == 0)
    decreases n
  {
    if n > 0 {
      var (t1, _) := TileFocused(t);
      FocusRunShowsAtMostOnce(t1, n - 1);
      if n - 1 > 0 {
        assert !(t1.canShow && t1.counter < MaxUnpinToastCount);
      }
    }
  }

  /** A run of overlay instances, each built with canShowUpinToast set by initTiles
      and receiving the given number of focus events: the final counter and the
      total number of prompts shown. */
  function OverlayLifetimes(counter: int, focusCounts: seq<nat>): (int, nat)
    decreases |focusCounts|
  {
    if focusCounts == [] then (counter, 0)
    else
      var (t, k) := FocusRun(Throttle(counter, true), focusCounts[0]);
      var (c, total) := OverlayLifetimes(t.counter, focusCounts[1..]);
      (c, k + total)
  }

  /** How many instances of a run receive at least one focus event. */
  function FocusedInstances(focusCounts: seq<nat>): nat
    decreases |focusCounts|
  {
    if focusCounts == [] then 0
    else (if focusCounts[0] > 0 then 1 else 0) + FocusedInstances(focusCounts[1..])
  }

  function Min(a: int, b: int): int { if a <= b then a else b }

  /** The prompt is shown once per focused overlay instance until the persisted
      counter reaches MAX_UNPIN_TOAST_COUNT, and never again after that. */
  lemma {:induction false} PromptBudget(counter: int, focusCounts: seq<nat>)
    ensures var (c, total) := OverlayLifetimes(counter, focusCounts);
      && total == (if counter < MaxUnpinToastCount then Min(MaxUnpinToastCount - counter, FocusedInstances(focusCounts)) else 0)
      && c == counter + total
      && (counter >= 0 ==> total <= MaxUnpinToastCount)
    decreases |focusCounts|
  {
    if focusCounts != [] {
      FocusRunShowsAtMostOnce(Throttle(counter, true), focusCounts[0]);
      var (t, _) := FocusRun(Throttle(counter, true), focusCounts[0]);
      PromptBudget(t.counter, focusCounts[1..]);
    }
  }

  /** Four focus events on a fresh overlay with the counter at 2 show one prompt
      and leave the counter at 3, after which no overlay shows it again. */
  lemma CounterAtTwoScenario(later: seq<nat>)
    ensures FocusRun(Throttle(2, true), 4) == (Throttle(3, false), 1)
    ensures OverlayLifetimes(3, later) == (3, 0)
  {
    FocusRunShowsAtMostOnce(Throttle(2, true), 4);
    PromptBudget(3, later);
  }

  // ---------------------------------------------------------------------------
  // Tile activation, URL commit, user-changed flag, clicks

  /** The loadUrl callback given to the tile adapter. */
  function TileActivation(url: string): (r: Option<Dispatch>)
    ensures r.Some? <==> url != ""
    ensures r.Some? ==> r.value == Dispatch(LoadTile, Some(url), None)
  {
    if |url| > 0 then Some(Dispatch(LoadTile, Some(url), None)) else None
  }

  datatype Commit = Commit(newText: string, dispatch: Dispatch)

  /** The URL field's commit listener: the text the field is set to and the event
      emitted, given the field's text and its last autocomplete result. */
  function CommitOutcome(text: string, lastResult: AutocompleteResult): (r: Option<Commit>)
    ensures r.Some? <==> text != ""
    ensures r.Some? ==> r.value.newText == lastResult.text
    ensures r.Some? ==> r.value.dispatch == Dispatch(LoadUrl, Some(text), Some(lastResult))
  {
    if |text| > 0 then Some(Commit(lastResult.text, Dispatch(LoadUrl, Some(text), Some(lastResult))))
    else None
  }

  datatype UrlInputEvent = UserInput | FocusGained | FocusLost

  /** hasUserChangedURLSinceEditTextFocused after one listener call. */
  function UserChangedAfterEvent(changed: bool, e: UrlInputEvent): (r: bool)
    ensures e == UserInput ==> r
    ensures e == FocusLost ==> !r
    ensures e == FocusGained ==> r == changed
  {
    match e
    case UserInput => true
    case FocusGained => changed
    case FocusLost => false
  }

  function UserChangedAfter(changed: bool, events: seq<UrlInputEvent>): bool
    decreases |events|
  {
    if events == [] then changed
    else UserChangedAfterEvent(UserChangedAfter(changed, events[..|events| - 1]), events[|events| - 1])
  }

  /** Event `i` of a run is a user input that no later focus loss cancels. */
  predicate InputSinceFocusLostAt(events: seq<UrlInputEvent>, i: int)
    requires 0 <= i < |events|
  {
    events[i] == UserInput && forall j :: i < j < |events| ==> events[j] != FocusLost
  }

  /** The flag is set exactly when the user typed after the last focus loss, or it
      was set at the start and the field never lost focus. */
  lemma {:induction false} UserChangedCharacterisation(changed: bool, events: seq<UrlInputEvent>)
    ensures UserChangedAfter(changed, events) <==>
      (exists i :: 0 <= i < |events| && InputSinceFocusLostAt(events, i)) ||
      (changed && forall j :: 0 <= j < |events| ==> events[j] != FocusLost)
    decreases |events|
  {
    if events != [] {
      var n := |events| - 1;
      var front := events[..n];
      UserChangedCharacterisation(changed, front);
      assert forall j :: 0 <= j < n ==> front[j] == events[j];
      match events[n]
      case UserInput =>
        assert InputSinceFocusLostAt(events, n);
      case FocusLost =>
        forall i | 0 <= i < |events| ensures !InputSinceFocusLostAt(events, i) {
          if i < n { assert events[n] == FocusLost; }
        }
      case FocusGained =>
        forall i | 0 <= i < n ensures InputSinceFocusLostAt(front, i) <==> InputSinceFocusLostAt(events, i) {
        }
        if exists i :: 0 <= i < |events| && InputSinceFocusLostAt(events, i) {
          var i :| 0 <= i < |events| && InputSinceFocusLostAt(events, i);
          assert i < n;
        }
    }
  }

  datatype Click = Click(dispatch: Dispatch, turboWrite: Option<bool>)

  /** onClick, given the event `NavigationEvent.fromViewClick` maps the clicked view
      to and the checked states of the turbo and pin buttons. */
  function ClickOutcome(event: Option<NavigationEvent>, turboChecked: bool, pinChecked: bool): (r: Option<Click>)
    ensures r.None? <==> event.None?
    ensures r.Some? ==> r.value.dispatch.event == event.value && r.value.dispatch.autocomplete == None
    ensures r.Some? ==> r.value.turboWrite == (if event.value == Turbo then Some(turboChecked) else None)
    ensures r.Some? && event.value == PinAction ==>
      r.value.dispatch.value == Some(if pinChecked then ValChecked else ValUnchecked)
    ensures r.Some? && event.value != PinAction ==> r.value.dispatch.value == None
  {
    match event
    case None => None
    case Some(e) =>
      var value := if e == PinAction then Some(if pinChecked then ValChecked else ValUnchecked) else None;
      Some(Click(Dispatch(e, value, None), if e == Turbo then Some(turboChecked) else None))
  }

  // ---------------------------------------------------------------------------
  // Visibility

  datatype Visibility = Visible | Invisible | Gone

  /** What the overlay does that is observable from outside, in order. */
  datatype Effect =
    | NavigationEmitted(dispatch: Dispatch)
    | BlockingWritten(enabled: bool)
    | UnpinToastShown
    | PreSetVisibility(isVisible: bool)
    | VisibilityApplied(visibility: Visibility)
    | ScrolledTo(x: int, y: int)
    | UrlInputFocusRequested
    | OverlayClickTelemetry(event: NavigationEvent, turboChecked: bool, pinChecked: bool)

  /** `onNavigationEvent?.invoke(...)`: recorded only when the callback is set. */
  function Emitted(listenerSet: bool, d: Option<Dispatch>): (r: seq<Effect>)
    ensures r != [] <==> listenerSet && d.Some?
    ensures r != [] ==> r == [NavigationEmitted(d.value)]
  {
    if listenerSet && d.Some? then [NavigationEmitted(d.value)] else []
  }

  /** The effects of setVisibility, in order. */
  function SetVisibilityEffects(v: Visibility, listenerSet: bool): (r: seq<Effect>)
    ensures var k := if listenerSet then 1 else 0;
      && |r| > k
      && (listenerSet ==> r[0] == PreSetVisibility(v == Visible))
      && r[k] == VisibilityApplied(v)
      && r[k + 1..] == (if v == Visible then [ScrolledTo(0, 0), UrlInputFocusRequested] else [])
  {
    (if listenerSet then [PreSetVisibility(v == Visible)] else [])
    + [VisibilityApplied(v)]
    + (if v == Visible then [ScrolledTo(0, 0), UrlInputFocusRequested] else [])
  }

  // ---------------------------------------------------------------------------
  // The overlay's state

  class HomeTileGridNavigation {
    /** Settings and the default SharedPreferences, shared with the activity. */
    const settings: Preferences
    /** canShowUpinToast */
    var canShowUpinToast: bool
    /** hasUserChangedURLSinceEditTextFocused */
    var hasUserChangedUrlSinceEditTextFocused: bool
    /** navUrlInput's text, its lastAutocompleteResult and whether it has focus. */
    var urlText: string
    var lastAutocompleteResult: AutocompleteResult
    var urlInputFocused: bool
    /** turboButton.isChecked and pinButton.isChecked */
    var turboButtonChecked: bool
    var pinButtonChecked: bool
    /** Whether onNavigationEvent and onPreSetVisibilityListener are non-null. */
    var onNavigationEventSet: bool
    var onPreSetVisibilityListenerSet: bool
    var visibility: Visibility
    /** overlayScrollView's scroll position. */
    var scrollX: int
    var scrollY: int
    var effects: seq<Effect>

    /** The init block: initTiles makes the prompt available to this instance. */
    constructor (settings: Preferences)
      ensures this.settings == settings
      ensures canShowUpinToast && !hasUserChangedUrlSinceEditTextFocused
      ensures !onNavigationEventSet && !onPreSetVisibilityListenerSet && effects == []
    {
      this.settings := settings;
      canShowUpinToast := false;
      hasUserChangedUrlSinceEditTextFocused := false;
      urlText := "";
      lastAutocompleteResult := EmptyAutocompleteResult;
      urlInputFocused := false;
      turboButtonChecked := false;
      pinButtonChecked := false;
      onNavigationEventSet := false;
      onPreSetVisibilityListenerSet := false;
      visibility := Visible;
      scrollX, scrollY := 0, 0;
      effects := [];
      new;
      InitTiles();
    }

    method InitTiles()
      modifies this`canShowUpinToast
      ensures canShowUpinToast
    {
      canShowUpinToast := true;
    }

    /** The adapter's loadUrl callback. */
    method OnTileLoadUrl(url: string)
      modifies this`effects
      ensures effects == old(effects) + Emitted(onNavigationEventSet, TileActivation(url))
    {
      if |url| > 0 && onNavigationEventSet {
        effects := effects + [NavigationEmitted(Dispatch(LoadTile, Some(url), None))];
      }
    }

    /** The adapter's onTileFocused callback. */
    method OnTileFocused()
      modifies this`canShowUpinToast, this`effects, settings`unpinToastCounter
      ensures var (t, shown) := TileFocused(Throttle(old(settings.unpinToastCounter), old(canShowUpinToast)));
        && settings.unpinToastCounter == t.counter
        && canShowUpinToast == t.canShow
        && effects == old(effects) + (if shown then [UnpinToastShown] else [])
    {
      var prefInt := settings.unpinToastCounter;
      if prefInt < MaxUnpinToastCount && canShowUpinToast {
        settings.unpinToastCounter := prefInt + 1;
        effects := effects + [UnpinToastShown];
        canShowUpinToast := false;
      }
    }

    /** navUrlInput.setText: setting the text drops the cached autocomplete result. */
    method SetText(text: string)
      modifies this`urlText, this`lastAutocompleteResult
      ensures urlText == text && lastAutocompleteResult == EmptyAutocompleteResult
    {
      urlText := text;
      lastAutocompleteResult := EmptyAutocompleteResult;
    }

    /** The URL field's commit listener. */
    method OnCommit()
      modifies this`urlText, this`lastAutocompleteResult, this`effects
      ensures var c := CommitOutcome(old(urlText), old(lastAutocompleteResult));
        && urlText == (if c.Some? then c.value.newText else old(urlText))
        && lastAutocompleteResult == (if c.Some? then EmptyAutocompleteResult else old(lastAutocompleteResult))
        && effects == old(effects) + Emitted(onNavigationEventSet, if c.Some? then Some(c.value.dispatch) else None)
    {
      var userInput := urlText;
      if |userInput| > 0 {
        var cachedAutocompleteResult := lastAutocompleteResult;
        SetText(cachedAutocompleteResult.text);
        if onNavigationEventSet {
          effects := effects + [NavigationEmitted(Dispatch(LoadUrl, Some(userInput), Some(cachedAutocompleteResult)))];
        }
      }
    }

    /** The URL field's user-input listener. */
    method OnUserInput()
      modifies this`hasUserChangedUrlSinceEditTextFocused
      ensures hasUserChangedUrlSinceEditTextFocused == UserChangedAfterEvent(old(hasUserChangedUrlSinceEditTextFocused), UserInput)
    {
      hasUserChangedUrlSinceEditTextFocused := true;
    }

    /** The URL field gains or loses focus, and its focus-change listener runs. */
    method OnUrlInputFocusChange(hasFocus: bool)
      modifies this`urlInputFocused, this`hasUserChangedUrlSinceEditTextFocused
      ensures urlInputFocused == hasFocus
      ensures hasUserChangedUrlSinceEditTextFocused ==
        UserChangedAfterEvent(old(hasUserChangedUrlSinceEditTextFocused), if hasFocus then FocusGained else FocusLost)
    {
      urlInputFocused := hasFocus;
      if !hasFocus {
        hasUserChangedUrlSinceEditTextFocused := false;
      }
    }

    /** onClick, with `event` the result of NavigationEvent.fromViewClick. */
    method OnClick(event: Option<NavigationEvent>)
      modifies this`effects, settings`isBlockingEnabled
      ensures var c := ClickOutcome(event, turboButtonChecked, pinButtonChecked);
        && settings.isBlockingEnabled == (if c.Some? && c.value.turboWrite.Some? then c.value.turboWrite.value else old(settings.isBlockingEnabled))
        && effects == old(effects)
          + (if c.Some? && c.value.turboWrite.Some? then [BlockingWritten(c.value.turboWrite.value)] else [])
          + Emitted(onNavigationEventSet, if c.Some? then Some(c.value.dispatch) else None)
          + (if c.Some? then [OverlayClickTelemetry(event.value, turboButtonChecked, pinButtonChecked)] else [])
    {
      if event.None? {
        return;
      }
      var e := event.value;
      var value: Option<string> := None;
      var isTurboButtonChecked := turboButtonChecked;
      var isPinButtonChecked := pinButtonChecked;
      match e {
        case Turbo =>
          settings.isBlockingEnabled := isTurboButtonChecked;
          effects := effects + [BlockingWritten(isTurboButtonChecked)];
        case PinAction =>
          value := Some(if isPinButtonChecked then ValChecked else ValUnchecked);
        case _ =>
      }
      if onNavigationEventSet {
        effects := effects + [NavigationEmitted(Dispatch(e, value, None))];
      }
      effects := effects + [OverlayClickTelemetry(e, isTurboButtonChecked, isPinButtonChecked)];
    }

    /** setVisibility: the pre-listener first, then the change itself, then (only
        when becoming visible) scroll to the top and focus the URL field. Hiding
        the overlay takes focus away from a focused URL field, which runs the
        field's focus listener with hasFocus = false. */
    method SetVisibility(v: Visibility)
      modifies this`visibility, this`scrollX, this`scrollY, this`urlInputFocused,
        this`hasUserChangedUrlSinceEditTextFocused, this`effects
      ensures visibility == v
      ensures effects == old(effects) + SetVisibilityEffects(v, onPreSetVisibilityListenerSet)
      ensures v == Visible ==> scrollX == 0 && scrollY == 0 && urlInputFocused
      ensures v == Visible ==> hasUserChangedUrlSinceEditTextFocused == old(hasUserChangedUrlSinceEditTextFocused)
      ensures v != Visible ==> scrollX == old(scrollX) && scrollY == old(scrollY)
      ensures v != Visible && old(visibility) != v && old(urlInputFocused) ==>
        !urlInputFocused &&
        hasUserChangedUrlSinceEditTextFocused == UserChangedAfterEvent(old(hasUserChangedUrlSinceEditTextFocused), FocusLost)
      ensures v != Visible && !(old(visibility) != v && old(urlInputFocused)) ==>
        urlInputFocused == old(urlInputFocused) &&
        hasUserChangedUrlSinceEditTextFocused == old(hasUserChangedUrlSinceEditTextFocused)
    {
      if onPreSetVisibilityListenerSet {
        effects := effects + [PreSetVisibility(v == Visible)];
      }
      var changed := visibility != v;
      visibility := v;
      effects := effects + [VisibilityApplied(v)];
      if v != Visible && changed && urlInputFocused {
        // The framework clears the focus of a descendant of a view it hides.
        OnUrlInputFocusChange(false);
      }
      if v == Visible {
        scrollX, scrollY := 0, 0;
        effects := effects + [ScrolledTo(0, 0)];
        // Gaining focus leaves hasUserChangedURLSinceEditTextFocused as it is.
        urlInputFocused := true;
        effects := effects + [UrlInputFocusRequested];
      }
    }
  }

  // ---------------------------------------------------------------------------
  // BrowserNavigationOverlayScrollView

  const Int32Min: int := -0x8000_0000
  const Int32Max: int := 0x7fff_ffff

  /** Kotlin's Int. */
  type Int32 = x: int | Int32Min <= x <= Int32Max

  /** Two's-complement wrap-around of an Int operation's mathematical result. */
  function Wrap32(x: int): (r: Int32)
    ensures Int32Min <= x <= Int32Max ==> r == x
  {
    (x - Int32Min) % 0x1_0000_0000 + Int32Min
  }

  /** Integer.signum */
  function Signum(x: int): (r: int)
    ensures r == 0 <==> x == 0
    ensures r == 1 <==> x > 0
    ensures r == -1 <==> x < 0
  {
    if x > 0 then 1 else if x < 0 then -1 else 0
  }

  function Abs(x: int): int { if x < 0 then -x else x }

  /** computeScrollDeltaToGetChildRectOnScreen: the default delta pushed away from
      zero by the padding, with Kotlin's wrapping multiplication and addition. */
  function ComputeScrollDelta(delta: Int32, padding: Int32): (r: Int32)
    ensures delta == 0 ==> r == 0
    ensures delta > 0 && delta + padding <= Int32Max ==> r == delta + padding
    ensures delta < 0 && padding > Int32Min && delta - padding >= Int32Min ==> r == delta - padding
  {
    Wrap32(delta + Wrap32(padding * Signum(delta)))
  }

  /** With a non-negative padding and no overflow, the padded delta scrolls the same
      way as the default one and, unless there is nothing to scroll, by exactly
      `padding` more. */
  lemma ScrollDeltaKeepsDirection(delta: Int32, padding: Int32)
    requires padding >= 0 && Abs(delta) + padding <= Int32Max + (if delta < 0 then 1 else 0)
    ensures Signum(ComputeScrollDelta(delta, padding)) == Signum(delta)
    ensures delta != 0 ==> Abs(ComputeScrollDelta(delta, padding)) == Abs(delta) + padding
  {
  }

  /** When the padded delta does not fit an Int, the wrap-around reverses the
      scroll direction. */
  lemma ScrollDeltaOverflowFlipsDirection(delta: Int32, padding: Int32)
    requires padding >= 0
    ensures delta > 0 && delta + padding > Int32Max ==> ComputeScrollDelta(delta, padding) < 0
    ensures delta < 0 && delta - padding < Int32Min ==> ComputeScrollDelta(delta, padding) > 0
  {
  }
}
