# Landing-page network gate of the staking installer

This project models the network gate on the installer's landing page, the `Home` component, and proves properties of it. The gate decides when the network selector modal is shown. It also decides when pressing Enter takes the user into the install wizard, which means pushing the wizard route of the install step sequence, `/wizard/${StepSequenceKey.Install}`. The model names this route `WizardInstallPath` and gives it the literal `/wizard/Install`, which the table below uses (see "## Left out").

The gate is three booleans:

- `showNetworkModal`: the selector is on screen.
- `networkModalWasOpened`: the selector has been shown at least once.
- `enterSelected`: the user has pressed Enter.

Three handlers change them:

- opening the selector;
- closing it, with the close reason the modal reports;
- pressing Enter.

`tabIndex` takes every control behind the selector out of keyboard tab order while the selector is shown.

`home_gate.dfy` holds one module, `HomePage`, in two parts:

- **A pure model.** `GateState` is the three flags as a value. `Open`, `EnterStep` and `CloseStep` are the handlers as functions. `EnterStep` and `CloseStep` return the new state and the routes pushed; `Open` returns only the new state, since opening pushes nothing. `Apply` dispatches an `Event` and `Run` plays a sequence of events. Lemmas about these cover:
  - the reachable-state invariant `Reachable`;
  - the monotone flags;
  - which events navigate;
  - that the wizard route is the only route ever pushed;
  - that nothing is pushed before the selector has been opened;
  - three concrete scenarios.
- **The component as a class.** `Home` has the three flags as mutable fields and a ghost log `pushes` that stands for `history.push`. Each handler is a method that updates the fields in place. Each method's postcondition equates the new flags and the new log with the pure step function applied to the old state. `HandleCloseNetworkModal` calls `HandleEnter` on the updated object, as the component does.

React's `setState` is treated as an immediate sequential update. This is sound for this component because no handler reads a flag that it has set earlier in the same call:

- the close handler writes `showNetworkModal`, and the Enter handler it calls reads only `networkModalWasOpened`;
- when the Enter handler opens the selector, its write of `true` to `showNetworkModal` comes after the close handler's write of `false`, so `true` wins under both readings.

Three behaviours of the code are worth stating plainly:

- **Enter is never cleared.** Nothing sets `enterSelected` back to false. So after the first Enter, every later close that is not a backdrop click navigates again (`CloseAfterEnterNavigates`).
- **No confirmation is checked.** Once Enter has been pressed, the code navigates on any close reason other than `backdropClick`, whether or not a network was picked. Before Enter, such a close only hides the selector.
- **Enter is not idempotent.** Once the selector has been opened, every call to the Enter handler pushes the route again (`EnterStep`, `RunPushesIffNavigates`).

## Model

| member | source | states |
|---|---|---|
| HomePage.Open | src/react/pages/Home.tsx:77-80 | opening the selector leaves it shown and marked as opened, with `enterSelected` unchanged |
| HomePage.EnterStep | src/react/pages/Home.tsx:100-112 | Enter always leaves `enterSelected` and `networkModalWasOpened` true; it pushes something iff the selector had been opened, and then exactly `/wizard/Install`; the first time it shows the selector, and otherwise it leaves `showNetworkModal` as it was |
| HomePage.CloseStep | src/react/pages/Home.tsx:82-90 | a backdrop click changes nothing and pushes nothing; any other reason with Enter not pressed only hides the selector; `enterSelected` is never changed; `networkModalWasOpened` becomes true only through the nested Enter |
| HomePage.InitialIsReachable | src/react/pages/Home.tsx:71-73 | the all-false state the page mounts in satisfies `Reachable` (shown ⇒ opened, entered ⇒ opened) |
| HomePage.ApplyKeepsReachable | src/react/pages/Home.tsx:77-112 | every handler preserves `Reachable` |
| HomePage.ApplyPushesIffNavigates | src/react/pages/Home.tsx:82-112 | in a reachable state an event pushes `/wizard/Install` exactly once when it is Enter after the selector was opened, or a non-backdrop close after Enter; otherwise it pushes nothing |
| HomePage.PushOnlyAfterSelectorOpened | src/react/pages/Home.tsx:100-110 | from any state, an event that pushes a route starts in a state where the selector had already been opened |
| HomePage.CloseAfterEnterNavigates | src/react/pages/Home.tsx:82-88 | once Enter has been pressed, a non-backdrop close hides the selector and navigates, and a backdrop close changes nothing |
| HomePage.RunKeepsReachable | src/react/pages/Home.tsx:71-112 | every sequence of handler calls from a reachable state ends in a reachable state |
| HomePage.RunFlagsMonotone | src/react/pages/Home.tsx:72-101 | no sequence of handler calls turns `networkModalWasOpened` or `enterSelected` from true back to false |
| HomePage.ApplyPushesAtMostOnce | src/react/pages/Home.tsx:82-112 | from any state, one handler call pushes nothing or pushes `/wizard/Install` exactly once |
| HomePage.RunPushesOnlyWizard | src/react/pages/Home.tsx:106-110 | every route pushed by any sequence of handler calls is `/wizard/Install`, and a run pushes no more routes than it has events |
| HomePage.NoNavigationWhileUnopened | src/react/pages/Home.tsx:100-110 | if the selector is still unopened after a sequence of handler calls, nothing was pushed |
| HomePage.RunPushesIffNavigates | src/react/pages/Home.tsx:82-112 | from a reachable state, the number of pushes of a run equals the number of its events that navigate in the state they meet |
| HomePage.FreshEnterThenClose | src/react/pages/Home.tsx:82-110 | on a fresh page, Enter shows the selector and pushes nothing; a following non-backdrop close hides it and pushes `/wizard/Install` once |
| HomePage.OpenCloseThenEnter | src/react/pages/Home.tsx:77-110 | opening the selector by hand, closing it and then pressing Enter navigates once without showing the selector again |
| HomePage.BackdropKeepsSelectorOpen | src/react/pages/Home.tsx:82-83 | opening the selector and then clicking the backdrop leaves it shown, with no flag changed and nothing pushed |
| HomePage.Home.constructor | src/react/pages/Home.tsx:71-73 | on mount every flag is false, the state is reachable, and nothing has been pushed |
| HomePage.Home.HandleOpenNetworkModal | src/react/pages/Home.tsx:77-80 | sets `showNetworkModal` and `networkModalWasOpened`; keeps `enterSelected` and the push log |
| HomePage.Home.HandleEnter | src/react/pages/Home.tsx:100-112 | the new flags and log equal `EnterStep` of the old state: if already opened, it appends `/wizard/Install` once and does not reopen the selector; otherwise it shows the selector and pushes nothing |
| HomePage.Home.HandleCloseNetworkModal | src/react/pages/Home.tsx:82-90 | the new flags and log equal `CloseStep` of the old state: a backdrop click changes nothing; another reason hides the selector, and pushes `/wizard/Install` once exactly when Enter had been pressed (in a reachable state) |
| HomePage.Home.Dispatch | src/react/pages/Home.tsx:116-145 | routing a click or modal close to its handler moves the object exactly as `Apply` does, and keeps `Reachable` |
| HomePage.Home.TabIndex | src/react/pages/Home.tsx:114 | `-1` while the selector is shown and the priority otherwise, so a non-negative priority is out of tab order exactly while the selector is shown |

## Left out

- The styled components and the JSX layout (src/react/pages/Home.tsx:10-55, 116-148) are presentation with no logic. Only the wiring of the three handlers to the buttons and the modal is kept, as `Home.Dispatch`.
- `sendToGithub` and `sendToDiscord` (src/react/pages/Home.tsx:92-98) only hand a URL to the host's external-open call, which is outside this model.
- The router (`useHistory`) is a library. Only its effect is kept, as the ghost `pushes` log. The route is pushed as a path string, not as a location object.
- `NetworkPicker`, `setNetwork` and `VersionFooter` are not part of this model. The network value itself is not modelled, because the gate never reads it.
- React's rendering, batching and re-render scheduling are not modelled. Handlers run one at a time, and each one updates the state sequentially.
- The event object passed to the close handler is unused by the code and is left out. The modal's close reasons are any string; only `backdropClick` is special.
- src/react/components/InstallFlow/0-SystemCheck.tsx is purely presentational. It forwards its back/next callbacks and hard-codes both disable flags to false, so there is no step logic in it to model.
- `WizardInstallPath` stands for `/wizard/${StepSequenceKey.Install}` (src/react/pages/Home.tsx:106-108). The value of `StepSequenceKey.Install` is defined in a types file that is not part of this model, so the model fixes the literal `/wizard/Install`; no property depends on the content of this string, only on its being the one route ever pushed.
- Events are not restricted to those the page can actually deliver: the modal reports a close only while it is open, the Select Network and Enter buttons sit behind the open modal, and a push leaves the landing route. The model lets every handler run in every state, and leaving the page after a push is not modelled. Every property over runs holds for this larger set of event sequences, so it holds for the ones the page produces; the statements about repeated Enter or close after a push describe handler calls the page may never make.
- Home.TabIndex: the priority is an `int`, where the code takes a JavaScript `number`; every call site passes 0 or 1 (src/react/pages/Home.tsx:119, 136, 138, 142).
