/**
 * The landing page's network gate: the three flags of the `Home` component
 * (is the network selector shown, has it ever been opened, has the user
 * pressed Enter), the three event handlers that change them, the one
 * navigation they can trigger, and the tab-order helper that depends on them.
 *
 * React's `setState` is modelled as an immediate, sequential update: no
 * handler reads a flag it has set earlier in the same call, so the order of
 * writes is all that matters, and the last write to a flag wins in both
 * readings.
 *
 * The first half of the module is a pure model of the gate (a state value,
 * one step function per handler, and the run of a sequence of events); the
 * second half is the `Home` class whose handler methods update the flags in
 * place and are proved to follow the pure model.
 */
module HomePage {

  /**
   * The route `history.push` is given by the Enter handler: the wizard path
   * for the install step sequence. No property depends on its content.
   */
  const WizardInstallPath: string := "/wizard/Install"

  /** The close reason the modal reports for a click outside it. */
  const BackdropClick: string := "backdropClick"

  /** The three pieces of component state that make up the gate. */
  datatype GateState = GateState(
    showNetworkModal: bool,
    networkModalWasOpened: bool,
    enterSelected: bool)

  /** The state every flag starts in when the landing page mounts. */
  const Initial: GateState := GateState(false, false, false)

  /** The new gate state of one handler call, and the routes it pushed. */
  datatype Step = Step(state: GateState, pushed: seq<string>)

  /** A user interaction that reaches one of the handlers. */
  datatype Event =
    | OpenNetworkModal
    | CloseNetworkModal(reason: string)
    | Enter

  /**
   * The facts every state reachable from `Initial` satisfies: the selector is
   * only ever shown after it has been opened, and Enter is only ever recorded
   * once the selector has been opened.
   */
  predicate Reachable(s: GateState)
  {
    (s.showNetworkModal ==> s.networkModalWasOpened) &&
    (s.enterSelected ==> s.networkModalWasOpened)
  }

  /** `handleOpenNetworkModal`: show the selector and remember that it was opened. */
  function Open(s: GateState): (r: GateState)
    ensures r.showNetworkModal && r.networkModalWasOpened
    ensures r.enterSelected == s.enterSelected
  {
    s.(showNetworkModal := true, networkModalWasOpened := true)
  }

  /**
   * `handleEnter`: record the Enter intent; the first time round (the
   * selector never opened) open the selector instead of navigating,
   * otherwise push the wizard route without touching the selector.
   */
  function EnterStep(s: GateState): (r: Step)
    ensures r.state.enterSelected && r.state.networkModalWasOpened
    ensures r.pushed != [] <==> s.networkModalWasOpened
    ensures r.pushed == [] || r.pushed == [WizardInstallPath]
    ensures !s.networkModalWasOpened ==> r.state.showNetworkModal
    ensures s.networkModalWasOpened ==> r.state.showNetworkModal == s.showNetworkModal
  {
    var entered := s.(enterSelected := true);
    if !s.networkModalWasOpened then Step(Open(entered), [])
    else Step(entered, [WizardInstallPath])
  }

  /**
   * `handleCloseNetworkModal`: a backdrop click is ignored; any other reason
   * hides the selector and, when Enter had been pressed, re-runs the Enter
   * handler on the updated state.
   */
  function CloseStep(s: GateState, reason: string): (r: Step)
    ensures reason == BackdropClick ==> r == Step(s, [])
    ensures reason != BackdropClick && !s.enterSelected ==>
              r == Step(s.(showNetworkModal := false), [])
    ensures r.state.networkModalWasOpened ==
              (s.networkModalWasOpened || (reason != BackdropClick && s.enterSelected))
    ensures r.state.enterSelected == s.enterSelected
  {
    if reason == BackdropClick then Step(s, [])
    else
      var hidden := s.(showNetworkModal := false);
      if s.enterSelected then EnterStep(hidden) else Step(hidden, [])
  }

  /** Dispatches one event to the handler the page wires it to. */
  function Apply(s: GateState, e: Event): (r: Step)
  {
    match e
    case OpenNetworkModal => Step(Open(s), [])
    case CloseNetworkModal(reason) => CloseStep(s, reason)
    case Enter => EnterStep(s)
  }

  /** Handles `events` one after another from `s`; `pushed` is every route pushed, in order. */
  function Run(s: GateState, events: seq<Event>): (r: Step)
    decreases |events|
  {
    if events == [] then Step(s, [])
    else
      var first := Apply(s, events[0]);
      var rest := Run(first.state, events[1..]);
      Step(rest.state, first.pushed + rest.pushed)
  }

  /** Whether one event, in state `s`, navigates to the wizard. */
  predicate Navigates(s: GateState, e: Event)
  {
    match e
    case OpenNetworkModal => false
    case CloseNetworkModal(reason) => reason != BackdropClick && s.enterSelected
    case Enter => s.networkModalWasOpened
  }

  // ---------------------------------------------------------------------
  // Properties of one event
  // ---------------------------------------------------------------------

  /** The page mounts in a state that satisfies `Reachable`. */
  lemma InitialIsReachable()
    ensures Reachable(Initial)
  {
  }

  /** Every handler keeps a state reachable. */
  lemma ApplyKeepsReachable(s: GateState, e: Event)
    requires Reachable(s)
    ensures Reachable(Apply(s, e).state)
  {
  }

  /**
   * In a reachable state an event pushes the wizard route exactly when
   * `Navigates` says so, and then exactly once.
   */
  lemma ApplyPushesIffNavigates(s: GateState, e: Event)
    requires Reachable(s)
    ensures Apply(s, e).pushed == if Navigates(s, e) then [WizardInstallPath] else []
  {
  }

  /** No event, from any state, pushes a route unless the selector had been opened before it. */
  lemma PushOnlyAfterSelectorOpened(s: GateState, e: Event)
    ensures Apply(s, e).pushed != [] ==> s.networkModalWasOpened
  {
  }

  /** From any state, one event pushes nothing or pushes the wizard route once. */
  lemma ApplyPushesAtMostOnce(s: GateState, e: Event)
    ensures Apply(s, e).pushed == [] || Apply(s, e).pushed == [WizardInstallPath]
  {
  }

  /**
   * Once Enter has been pressed, a genuine close of the selector always hides
   * it and navigates, and a backdrop click still changes nothing.
   */
  lemma CloseAfterEnterNavigates(s: GateState, reason: string)
    requires Reachable(s) && s.enterSelected
    ensures reason != BackdropClick ==>
              CloseStep(s, reason) == Step(s.(showNetworkModal := false), [WizardInstallPath])
    ensures reason == BackdropClick ==> CloseStep(s, reason) == Step(s, [])
  {
  }

  // ---------------------------------------------------------------------
  // Properties of every sequence of events
  // ---------------------------------------------------------------------

  /** Every state reached from a reachable state is reachable. */
  lemma {:induction false} RunKeepsReachable(s: GateState, events: seq<Event>)
    requires Reachable(s)
    ensures Reachable(Run(s, events).state)
    decreases |events|
  {
    if events != [] {
      ApplyKeepsReachable(s, events[0]);
      RunKeepsReachable(Apply(s, events[0]).state, events[1..]);
    }
  }

  /**
   * `networkModalWasOpened` and `enterSelected` only ever go from false to
   * true: no sequence of handler calls clears either of them.
   */
  lemma {:induction false} RunFlagsMonotone(s: GateState, events: seq<Event>)
    ensures s.networkModalWasOpened ==> Run(s, events).state.networkModalWasOpened
    ensures s.enterSelected ==> Run(s, events).state.enterSelected
    decreases |events|
  {
    if events != [] {
      RunFlagsMonotone(Apply(s, events[0]).state, events[1..]);
    }
  }

  /**
   * The only route ever pushed is the install wizard's, and a run pushes no
   * more routes than it has events.
   */
  lemma {:induction false} RunPushesOnlyWizard(s: GateState, events: seq<Event>)
    ensures forall i :: 0 <= i < |Run(s, events).pushed| ==> Run(s, events).pushed[i] == WizardInstallPath
    ensures |Run(s, events).pushed| <= |events|
    decreases |events|
  {
    if events != [] {
      ApplyPushesAtMostOnce(s, events[0]);
      RunPushesOnlyWizard(Apply(s, events[0]).state, events[1..]);
    }
  }

  /**
   * The wizard is never entered without the selector having been opened: if
   * it is still unopened after a run, the run pushed nothing.
   */
  lemma {:induction false} NoNavigationWhileUnopened(s: GateState, events: seq<Event>)
    ensures !Run(s, events).state.networkModalWasOpened ==> Run(s, events).pushed == []
    decreases |events|
  {
    if events != [] {
      var first := Apply(s, events[0]);
      PushOnlyAfterSelectorOpened(s, events[0]);
      RunFlagsMonotone(first.state, events[1..]);
      NoNavigationWhileUnopened(first.state, events[1..]);
    }
  }

  /**
   * From a reachable state, the routes pushed by a run are exactly one wizard
   * push per event that `Navigates` in the state it was handled in.
   */
  lemma {:induction false} RunPushesIffNavigates(s: GateState, events: seq<Event>)
    requires Reachable(s)
    ensures |Run(s, events).pushed| == NavigationCount(s, events)
    decreases |events|
  {
    if events != [] {
      ApplyPushesIffNavigates(s, events[0]);
      ApplyKeepsReachable(s, events[0]);
      RunPushesIffNavigates(Apply(s, events[0]).state, events[1..]);
    }
  }

  /** The number of events of a run that navigate, each judged in the state it meets. */
  function NavigationCount(s: GateState, events: seq<Event>): (n: nat)
    ensures n <= |events|
    decreases |events|
  {
    if events == [] then 0
    else (if Navigates(s, events[0]) then 1 else 0) + NavigationCount(Apply(s, events[0]).state, events[1..])
  }

  // ---------------------------------------------------------------------
  // Scenarios
  // ---------------------------------------------------------------------

  /**
   * A fresh page: pressing Enter opens the selector and pushes nothing; a
   * following non-backdrop close hides it and pushes the wizard route once.
   */
  lemma FreshEnterThenClose(reason: string)
    requires reason != BackdropClick
    ensures Run(Initial, [Enter]) == Step(GateState(true, true, true), [])
    ensures Run(Initial, [Enter, CloseNetworkModal(reason)]) ==
              Step(GateState(false, true, true), [WizardInstallPath])
  {
    var shown := GateState(true, true, true);
    assert Apply(Initial, Enter) == Step(shown, []);
    assert Run(shown, []) == Step(shown, []);
    assert Run(shown, [CloseNetworkModal(reason)]) == Step(GateState(false, true, true), [WizardInstallPath]);
    assert [Enter, CloseNetworkModal(reason)][1..] == [CloseNetworkModal(reason)];
  }

  /**
   * Opening the selector by hand and closing it, then pressing Enter,
   * navigates straight away without showing the selector again.
   */
  lemma OpenCloseThenEnter(reason: string)
    requires reason != BackdropClick
    ensures Run(Initial, [OpenNetworkModal, CloseNetworkModal(reason), Enter]) ==
              Step(GateState(false, true, true), [WizardInstallPath])
  {
    var events := [OpenNetworkModal, CloseNetworkModal(reason), Enter];
    var shown, closed, entered := GateState(true, true, false), GateState(false, true, false), GateState(false, true, true);
    assert Run(entered, []) == Step(entered, []);
    assert Run(closed, [Enter]) == Step(entered, [WizardInstallPath]);
    assert events[1..] == [CloseNetworkModal(reason), Enter];
    assert events[1..][1..] == [Enter];
    assert Run(shown, events[1..]) == Step(entered, [WizardInstallPath]);
  }

  /** Opening the selector and clicking the backdrop leaves it open. */
  lemma BackdropKeepsSelectorOpen()
    ensures Run(Initial, [OpenNetworkModal, CloseNetworkModal(BackdropClick)]) ==
              Step(GateState(true, true, false), [])
  {
    var shown := GateState(true, true, false);
    assert Run(shown, []) == Step(shown, []);
    assert Run(shown, [CloseNetworkModal(BackdropClick)]) == Step(shown, []);
    assert [OpenNetworkModal, CloseNetworkModal(BackdropClick)][1..] == [CloseNetworkModal(BackdropClick)];
  }

  // ---------------------------------------------------------------------
  // The component
  // ---------------------------------------------------------------------

  /**
   * The `Home` component's gate state, updated in place by its handlers.
   * `pushes` is the log of routes given to `history.push`.
   */
  class Home {
    var showNetworkModal: bool
    var networkModalWasOpened: bool
    var enterSelected: bool
    ghost var pushes: seq<string>

    /** The current flags as a value of the pure model. */
    ghost function State(): GateState
      reads this
    {
      GateState(showNetworkModal, networkModalWasOpened, enterSelected)
    }

    /** Mounting the page: every flag false, nothing pushed. */
    constructor ()
      ensures State() == Initial && Reachable(State())
      ensures pushes == []
    {
      showNetworkModal := false;
      networkModalWasOpened := false;
      enterSelected := false;
      pushes := [];
    }

    /** `handleOpenNetworkModal` */
    method HandleOpenNetworkModal()
      modifies this
      ensures showNetworkModal && networkModalWasOpened
      ensures enterSelected == old(enterSelected)
      ensures pushes == old(pushes)
      ensures State() == Open(old(State()))
    {
      showNetworkModal := true;
      networkModalWasOpened := true;
    }

    /** `handleEnter` */
    method HandleEnter()
      modifies this
      ensures State() == EnterStep(old(State())).state
      ensures pushes == old(pushes) + EnterStep(old(State())).pushed
      ensures enterSelected && networkModalWasOpened
      ensures old(networkModalWasOpened) ==>
                showNetworkModal == old(showNetworkModal) && pushes == old(pushes) + [WizardInstallPath]
      ensures !old(networkModalWasOpened) ==> showNetworkModal && pushes == old(pushes)
    {
      enterSelected := true;
      if !networkModalWasOpened {
        HandleOpenNetworkModal();
      } else {
        pushes := pushes + [WizardInstallPath];
      }
    }

    /** `handleCloseNetworkModal`; the event object it also receives is unused. */
    method HandleCloseNetworkModal(reason: string)
      modifies this
      ensures State() == CloseStep(old(State()), reason).state
      ensures pushes == old(pushes) + CloseStep(old(State()), reason).pushed
      ensures reason == BackdropClick ==> State() == old(State()) && pushes == old(pushes)
      ensures reason != BackdropClick && !old(enterSelected) ==>
                !showNetworkModal && pushes == old(pushes)
      ensures reason != BackdropClick && Reachable(old(State())) && old(enterSelected) ==>
                !showNetworkModal && pushes == old(pushes) + [WizardInstallPath]
    {
      if reason != BackdropClick {
        showNetworkModal := false;
        if enterSelected {
          HandleEnter();
        }
      }
    }

    /** The page's wiring of clicks and modal closes to the three handlers. */
    method Dispatch(e: Event)
      modifies this
      ensures State() == Apply(old(State()), e).state
      ensures pushes == old(pushes) + Apply(old(State()), e).pushed
      ensures Reachable(old(State())) ==> Reachable(State())
    {
      match e
      case OpenNetworkModal => HandleOpenNetworkModal();
      case CloseNetworkModal(reason) => HandleCloseNetworkModal(reason);
      case Enter => HandleEnter();
    }

    /**
     * `tabIndex`: while the selector is shown every control behind it gets
     * -1, taking it out of keyboard tab order; otherwise it keeps its priority.
     */
    function TabIndex(priority: int): (r: int)
      reads this
      ensures showNetworkModal ==> r == -1
      ensures !showNetworkModal ==> r == priority
      ensures priority >= 0 ==> (r < 0 <==> showNetworkModal)
    {
      if showNetworkModal then -1 else priority
    }
  }
}
