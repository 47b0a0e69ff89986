# GitHub contributions chart: the page's session state machine

The page component turns a GitHub username into a contributions chart. It
keeps five state variables: `loading`, `username`, `theme`, `data` and
`error`. Its event handlers move them through a small state machine:

- typing a name;
- submitting the form, which cleans the name and starts a fetch;
- the fetch resolving, which either reports "not found" (zero years) or stores the dataset;
- the fetch rejecting;
- picking a theme;
- the `[data, theme]` effect, which redraws the chart when there is data, and its `draw` guard.

The render function also gates the submit button, the result panel, the JSON
export link and the choice between the native Share button and the Twitter
fallback.

The model has five files:

- `nullable.dfy`: `Option`, which stands for JavaScript's null-or-value.
- `session.dfy`: the state snapshot `View`, one pure transition per handler, the `draw` guard, the effect body and the invariant `Inv`, which says:
  - no data is held while loading;
  - a held dataset has at least one year;
  - the error is one of the page's three messages.
- `gates.dfy`: the render-time predicates and the host probe for `navigator.share`.
- `lifecycle.dfy`: traces of events. After each handler comes the commit, which runs the effect when `data` or `theme` changed, with the canvas mounted exactly when there is data (the canvas is rendered only under `data !== null`). Lemmas state what each event does to the state and which outside calls it makes (fetch, paint, JSON export). They also state what holds in every reachable state.
- `app.dfy`: `class App`, whose fields are the five state variables and which has one method per handler. Each method states its new state field by field. It also ties that state to the transition in `session.dfy`. `Page.Dispatch` covers the handler methods `EditUsername`, `Submit`, `OnFetchResolved`, `OnFetchRejected`, `ChangeTheme` and `OnDownloadJson`. It calls one of them and then, when `data` or `theme` changed, `RunEffect` with the canvas mounted. It proves the resulting state and the outside calls (fetch, paint, JSON export) are exactly those of one event of the trace model. So sequences of these calls follow `Lifecycle.Run`. `Draw` and `RunEffect` take the canvas's presence as a free input. Calling either with no canvas while there is data stores the draw-failure message, which is a state no trace reaches.

Outside code is not modelled. Its results are inputs or outputs instead:

- `cleanUsername` is a parameter `clean: string -> string`.
- `fetchData`'s outcome arrives as a later call, `OnFetchResolved(dataset)` or `OnFetchRejected()`. The year count the code tests is `|dataset.years|`.
- `drawContributions` and `downloadJSON` are represented by the arguments the page passes them.
- Whether a canvas element and `navigator.share` exist are boolean inputs.

The page does not tie a fetch result to the submission that started it. Its handlers accept any outcome in any state, and so do the model's traces. That makes the set of traces larger than what the page can produce. It includes an outcome with no fetch pending, and a submit while the button is disabled. So some reachable states are ones the page never shows, such as a check-failed message next to a chart.

`Lifecycle.Gated` narrows the traces to what the page's own controls allow:
- a submit only while the submit button is enabled;
- an outcome only while a fetch is pending.

The button is disabled while loading, so under this gate at most one fetch is ever in flight, and no older fetch can answer late. Along gated traces, an outcome lands on the state the submit handler left (`Lifecycle.GatedOutcomeDecides`). An error and a chart are then never shown together (`Lifecycle.GatedErrorHidesResult`).

Two behaviours one might expect are absent from the code:
- an older fetch's late result should be ignored;
- exporting with no dataset should be reported as an error.

The model follows the code: there is no stale-result guard, and the JSON export does nothing when there is no data.

One consequence shows in the lifecycle model. The effect draws only when there is data, and the canvas is mounted exactly then. So the failure branch of `draw` ("Something went wrong... Check back later.") is never reached along any trace (`Lifecycle.ReachableIsSound`). `App.Draw` still models that branch for direct calls.

## Model

| member | source | states |
|---|---|---|
| `Session.Initial` | src/pages/index.js:16-20 | the page starts not loading, with an empty username, the "standard" theme, no data and no error |
| `Session.DrawCall` | src/pages/index.js:76-89 | `drawContributions` is called exactly when a canvas exists and there is data, with that data, the current username and theme and the fixed footer text |
| `Session.EffectCall` | src/pages/index.js:22-27 | the effect paints only when there is data (and a canvas), and then makes the same call as `draw` |
| `Session.JsonExport` | src/pages/index.js:59-64 | `downloadJSON` is called exactly when `data` is not null, with that data |
| `Session.MessagesDistinct` | src/pages/index.js:42-50 | the not-found, the check-failed and the draw-failed messages are pairwise different |
| `Session.HandlersKeepInv` | src/pages/index.js:29-52 | typing, submitting, either fetch outcome, a theme change, `draw` and the effect all keep `Inv` |
| `Gates.SubmitEnabledIff` | src/pages/index.js:179 | the submit button is enabled iff the username is non-empty and no fetch is pending |
| `Gates.ExactlyOneShareButton` | src/pages/index.js:140-156 | with data, exactly one of Share and Share on Twitter is offered, Share iff `global.navigator` exists and has `share`; without data neither is |
| `Lifecycle.StepKeepsSound` | src/pages/index.js:76-80 | one event plus its commit keeps `Inv` and never stores the draw-failure message, because the canvas is mounted whenever the effect draws |
| `Lifecycle.CommitKeepsView` | src/pages/index.js:22-27 | the effect run by the commit never changes the state a handler left, because the canvas is mounted whenever it draws |
| `Lifecycle.RunKeepsSound` | src/pages/index.js:22-27 | any trace of events from a sound state ends in a sound state |
| `Lifecycle.ReachableIsSound` | src/pages/index.js:29-52 | every reachable state holds no data while loading, never holds a zero-year dataset, and shows only the not-found or check-failed message |
| `Lifecycle.ReachableGatesAgree` | src/pages/index.js:126-130 | in every reachable state the result panel is visible iff the export buttons and the JSON link are rendered; while loading, none of them is and submit is disabled |
| `Lifecycle.GatedOutcomeDecides` | src/pages/index.js:38-51 | under the page's gate, an outcome arrives on the state the submit handler left. Loading ends. A rejection or zero years sets an error with no data held; otherwise the dataset is held and there is no error |
| `Lifecycle.GatedStepKeepsSettled` | src/pages/index.js:179 | an event the page's controls allow keeps `Sound`, keeps "nothing reported while loading", and keeps "an error never comes with data" |
| `Lifecycle.GatedRunKeepsSettled` | src/pages/index.js:29-52 | every gated trace from a settled state ends in a settled state |
| `Lifecycle.GatedErrorHidesResult` | src/pages/index.js:126-130 | along every gated trace from the initial state, no error is shown while loading, and an error is never shown with the result panel, the export buttons or the JSON link |
| `Lifecycle.SubmitFetchesCleanName` | src/pages/index.js:32-37 | a submission fetches the cleaned old username, sets loading, clears error and data as the handler does, and paints nothing |
| `Lifecycle.ResolvePaints` | src/pages/index.js:43-45 | a result with years that differs from the held data is stored, loading ends, the error is untouched, and exactly one paint follows with the current name and theme |
| `Lifecycle.ResolveEmptyReportsNotFound` | src/pages/index.js:39-42 | a result with zero years, arriving in any state, ends loading, sets the not-found message, keeps whatever data was held and paints nothing. Under the page's gate that data is null (`GatedOutcomeDecides`) |
| `Lifecycle.RejectReportsFailure` | src/pages/index.js:47-51 | a rejection, arriving in any state, ends loading, sets the check-failed message (not the not-found one), keeps whatever data was held and paints nothing. Under the page's gate that data is null (`GatedOutcomeDecides`) |
| `Lifecycle.ThemeChangeRepaints` | src/pages/index.js:22-27 | a new theme with data loaded repaints the same dataset in that theme, with no fetch and no other state change |
| `Lifecycle.ThemeChangeWithoutRepaint` | src/pages/index.js:220 | with no data, or the same theme again, a theme change records the name and makes no call |
| `Lifecycle.DownloadJsonExportsData` | src/pages/index.js:61-63 | the JSON export leaves the state alone and exports the held dataset, or does nothing when there is none |
| `Lifecycle.EditOnlySetsName` | src/pages/index.js:172 | typing sets only the username and makes no call |
| `Lifecycle.NotFoundScenario` | src/pages/index.js:29-46 | submitting `"  @ghost_user "`, when it cleans to `ghost_user` and the fetch returns no years, ends in the not-found message with no data and no export controls |
| `Lifecycle.ReadyScenario` | src/pages/index.js:22-46 | submitting `octocat`, receiving two years and then picking `halloween` ends with the data shown, export controls rendered, no error and the new theme |
| `Page.Dispatch` | src/pages/index.js:22-64 | delivering an event to its handler method changes the object's state and makes outside calls exactly as one step of the trace model does. When `data` or `theme` changed, this includes the effect run with the canvas mounted. `Inv` is kept |
| `Page.App.constructor` | src/pages/index.js:16-20 | the five fields start at the hooks' initial values |
| `Page.App.EditUsername` | src/pages/index.js:172 | only `username` changes, to the typed text |
| `Page.App.Submit` | src/pages/index.js:29-37 | `loading` becomes true, `error` and `data` null, `username` the cleaned old name; the fetch is asked for that cleaned name; the theme is unchanged |
| `Page.App.OnFetchResolved` | src/pages/index.js:38-46 | loading ends; zero years sets the not-found message and leaves data; otherwise data becomes the dataset and the error is untouched |
| `Page.App.OnFetchRejected` | src/pages/index.js:47-51 | loading ends and the error becomes the check-failed message, which is not the not-found message; data is unchanged |
| `Page.App.ChangeTheme` | src/pages/index.js:218-221 | only `theme` changes |
| `Page.App.Draw` | src/pages/index.js:76-89 | with no canvas or no data the error becomes the draw-failure message and nothing is painted; otherwise the error is untouched and the paint uses data, username, theme and footer; nothing else changes |
| `Page.App.RunEffect` | src/pages/index.js:22-27 | with no data nothing changes and nothing is painted; otherwise it does what `draw` does |
| `Page.App.OnDownloadJson` | src/pages/index.js:59-64 | exports exactly when `data` is not null, and exports that data |

Several members only restate one-line guards of the page in another form: `Gates.SubmitEnabledIff`, `Gates.ExactlyOneShareButton`, `Session.DrawCall`, `Session.JsonExport` and `Page.App.OnDownloadJson`. Their rows record what the guards are. The properties the page's gates and calls actually guarantee across a session are the lifecycle lemmas:
- `Lifecycle.ReachableGatesAgree` for the gates;
- `Lifecycle.StepKeepsSound` and `Lifecycle.ReachableIsSound` for the draw guard;
- `Lifecycle.ResolvePaints` and `Lifecycle.ThemeChangeRepaints` for the paint calls.

## Left out

- JSX markup, styling, the header and footer text, `ThemeSelector` and the GitHub star button: view glue with no state to model.
- `cleanUsername`, `fetchData`, `download`, `downloadJSON`, `uploadToTwitter` and `share` (from `../utils/export`) are not part of this model. `cleanUsername` is an arbitrary function parameter, and the others appear only as the calls the page makes.
- `onDownload`, `onShare` and `onShareTwitter` (src/pages/index.js:54-74): they hand `canvasRef.current` to the unseen export functions with no guard and no state change. Only the choice between the Share and Twitter buttons is modelled.
- `drawContributions`, loaded by a dynamic `import` of an external canvas library, together with `scrollIntoView` and `console.log`: foreign calls and side effects. The model keeps only the options object passed to the drawing call.
- Promise scheduling and several fetches in flight are not represented. Fetch outcomes are plain events that may come in any order. No "latest submission wins" property is claimed, because the page does not have one.
- Renders between the setters of one callback are not modelled. The `then` and `catch` callbacks may be committed one setter at a time, but only `setData` touches an effect dependency there. So the final state and the effect calls are the same as for one combined update.
- Dataset contents: the years are opaque apart from how many there are. The per-year totals and contiguous days are built by unseen code.
- Lifecycle.Commit: the effect's dependencies are compared by value. React compares them by object identity, so the model does not repaint when a second result is structurally equal to the held data. A fresh fetch always produces a new object, so React would repaint in that case.
