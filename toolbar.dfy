/** The vocabulary shared by the toolbar, the home tile overlay and the activity:
    the closed set of navigation events, what travels with one, and the questions
    a ToolbarStateProvider answers. */
module Toolbar {
  import opened Wrappers

  /** NavigationEvent: the discrete user-navigation actions an input surface emits. */
  datatype NavigationEvent = Back | Forward | Reload | LoadUrl | LoadTile | Turbo | PinAction | Settings

  /** The two string values a toggle event carries (NavigationEvent.VAL_CHECKED / VAL_UNCHECKED). */
  const ValChecked: string := "checked"
  const ValUnchecked: string := "unchecked"

  /** InlineAutocompleteEditText.AutocompleteResult: the completion the URL field last offered. */
  datatype AutocompleteResult = AutocompleteResult(text: string, source: string, totalItems: int)

  /** The value the URL field falls back to once its text is set programmatically. */
  const EmptyAutocompleteResult := AutocompleteResult("", "", 0)

  /** One invocation of an `onNavigationEvent(event, value, autocompleteResult)` callback. */
  datatype Dispatch = Dispatch(event: NavigationEvent, value: Option<string>, autocomplete: Option<AutocompleteResult>)

  /** The boolean questions of ToolbarStateProvider. */
  datatype StateQuery = IsBackEnabled | IsForwardEnabled | IsUrlPinned | IsPinEnabled | IsRefreshEnabled

  /** What one ToolbarStateProvider answers to each of its questions. */
  datatype NavigationState = NavigationState(
    backEnabled: bool, forwardEnabled: bool, currentUrl: Option<string>,
    urlPinned: bool, pinEnabled: bool, refreshEnabled: bool)
  {
    function Answer(q: StateQuery): bool {
      match q
      case IsBackEnabled => backEnabled
      case IsForwardEnabled => forwardEnabled
      case IsUrlPinned => urlPinned
      case IsPinEnabled => pinEnabled
      case IsRefreshEnabled => refreshEnabled
    }
  }
}
