/** Which message handler an incoming message reaches.  The dispatcher tries
    the admin router before the user router (main.py lines 29-30) and, in
    each router, the handlers in the order they are registered; the first
    one whose filters all pass takes the message.  A handler registered
    without a state filter matches in every state. */
module Routing {
  import opened Wrappers
  import opened Strings
  import opened Fsm
  import opened Handlers
  import opened Admin

  datatype MessageHandler =
    | AdminPanelHandler | BackToMainMenuHandler | AddServerStartHandler | ListServersHandler
    | ServerNameStep | ChannelIdStep | ModerationGroupStep | AddAdminHandler | AdminIdStep
    | StartHandler | CreateAdHandler | TextStep | PhotoStep | Ignored

  /** An incoming message: its text (None for a photo and other media) and
      whether it carries a photo. */
  datatype Incoming = Incoming(text: Option<string>, hasPhoto: bool)

  /** The `Command("start")` filter: the first word is `/start`. */
  predicate IsStart(text: Option<string>) {
    text.Some? && Split(text.value, ' ')[0] == "/start"
  }

  /** The handler of each add-server step. */
  function StepHandler(state: State): MessageHandler {
    match state
    case WaitingForServerName => ServerNameStep
    case WaitingForChannelId => ChannelIdStep
    case WaitingForModerationGroup => ModerationGroupStep
    case _ => Ignored
  }

  predicate IsAddServerStep(state: Option<State>) {
    state == Some(WaitingForServerName) || state == Some(WaitingForChannelId)
    || state == Some(WaitingForModerationGroup)
  }

  /** The routing as registered. */
  function RouteMessage(state: Option<State>, m: Incoming): MessageHandler {
    if m.text == Some(AdminPanelCaption) then AdminPanelHandler
    else if m.text == Some(BackCaption) then BackToMainMenuHandler
    else RouteAfterBack(state, m)
  }

  /** The handlers registered after `back_to_main_menu`. */
  function RouteAfterBack(state: Option<State>, m: Incoming): MessageHandler {
    if m.text == Some(AddServerCaption) then AddServerStartHandler
    else if m.text == Some(ListServersCaption) then ListServersHandler
    else if IsAddServerStep(state) then StepHandler(state.value)
    else if m.text == Some(AddAdminCaption) then AddAdminHandler
    else if state == Some(WaitingForAdminId) then AdminIdStep
    else if IsStart(m.text) then StartHandler
    else if m.text == Some(CreateAdCaption) then CreateAdHandler
    else if state == Some(WaitingForText) then TextStep
    else if state == Some(WaitingForPhoto) && m.hasPhoto then PhotoStep
    else Ignored
  }

  /** As registered, "back" in an add-server step never reaches that step's
      handler, so its own "back" branch (which clears the session) is dead:
      `back_to_main_menu` answers instead and leaves the session in the step. */
  lemma BackBypassesAddServerSteps(state: Option<State>, hasPhoto: bool)
    requires IsAddServerStep(state)
    ensures RouteMessage(state, Incoming(Some(BackCaption), hasPhoto)) == BackToMainMenuHandler
    ensures RouteMessage(state, Incoming(Some(BackCaption), hasPhoto)) != StepHandler(state.value)
  {
  }

  /** The routing the step handlers' "back" branches are written for: in an
      add-server step the step handler sees "back" before the global one. */
  function RouteMessageIntended(state: Option<State>, m: Incoming): MessageHandler {
    if m.text == Some(AdminPanelCaption) then AdminPanelHandler
    else if m.text == Some(BackCaption) && IsAddServerStep(state) then StepHandler(state.value)
    else if m.text == Some(BackCaption) then BackToMainMenuHandler
    else RouteAfterBack(state, m)
  }

  /** The intended routing differs from the registered one exactly for
      "back" in an add-server step, which it hands to that step. */
  lemma IntendedRouting(state: Option<State>, m: Incoming)
    ensures RouteMessageIntended(state, m) != RouteMessage(state, m) <==>
      m.text == Some(BackCaption) && IsAddServerStep(state)
    ensures m.text == Some(BackCaption) && IsAddServerStep(state) ==>
      RouteMessageIntended(state, m) == StepHandler(state.value)
  {
    if IsAddServerStep(state) {
      assert StepHandler(state.value) != BackToMainMenuHandler;
    }
  }

  /** In any other state the global "back" keeps answering with the main
      menu, under both routings. */
  lemma BackElsewhere(state: Option<State>, m: Incoming)
    requires m.text == Some(BackCaption) && !IsAddServerStep(state)
    ensures RouteMessage(state, m) == BackToMainMenuHandler
    ensures RouteMessageIntended(state, m) == BackToMainMenuHandler
  {
  }
}
