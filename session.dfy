/**
 * The state of the contributions-chart page and what each of its event
 * handlers does to it, as pure functions on a snapshot of that state.
 * The class in app.dfy is proved against these functions, and the event
 * trace in lifecycle.dfy is built from them.
 */
module Session {
  import opened Nullable

  /** One year of contribution history. The page never looks inside it. */
  type YearSummary(==)

  /** What `fetchData` resolves with; the page inspects only its number of years. */
  datatype Dataset = Dataset(years: seq<YearSummary>)

  const NotFoundMessage: string := "Could not find your profile"
  const CheckFailedMessage: string := "I could not check your profile successfully..."
  const DrawFailedMessage: string := "Something went wrong... Check back later."
  const InitialTheme: string := "standard"
  const FooterText: string := "Made by @sallar & friends - github-contributions.vercel.app"

  /** The page's five state variables. `None` stands for `null`. */
  datatype View = View(
    loading: bool,
    username: string,
    theme: string,
    data: Option<Dataset>,
    error: Option<string>)

  /** The values the state hooks start with. */
  function Initial(): (v: View)
    ensures !v.loading && v.username == [] && v.theme == InitialTheme && v.data.None? && v.error.None?
  {
    View(false, "", InitialTheme, None, None)
  }

  /** The options object handed to the rendering library's `drawContributions`. */
  datatype Render = Render(data: Dataset, username: string, themeName: string, footerText: string)

  /** The username field's change handler. */
  function Edited(v: View, text: string): View {
    v.(username := text)
  }

  /**
   * The synchronous part of the submit handler: the username is replaced by
   * its cleaned form and the previous outcome is discarded. `clean` stands for
   * `cleanUsername`, whose definition is not part of this model.
   */
  function Submitted(v: View, clean: string -> string): View {
    v.(username := clean(v.username), loading := true, error := None, data := None)
  }

  /** The fetch promise's `then` callback: zero years means "not found". */
  function Resolved(v: View, d: Dataset): View {
    if |d.years| == 0 then
      v.(loading := false, error := Some(NotFoundMessage))
    else
      v.(loading := false, data := Some(d))
  }

  /** The fetch promise's `catch` callback. */
  function Rejected(v: View): View {
    v.(loading := false, error := Some(CheckFailedMessage))
  }

  /** The theme selector's change handler. */
  function ThemeChanged(v: View, name: string): View {
    v.(theme := name)
  }

  /** The guard at the top of `draw`: no canvas element or no data. */
  predicate DrawGuardFails(v: View, canvasPresent: bool) {
    !canvasPresent || v.data.None?
  }

  /** The state after `draw`: only the error changes, and only when the guard fails. */
  function Drawn(v: View, canvasPresent: bool): View {
    if DrawGuardFails(v, canvasPresent) then v.(error := Some(DrawFailedMessage)) else v
  }

  /** The `drawContributions` call `draw` makes, if any. */
  function DrawCall(v: View, canvasPresent: bool): (call: Option<Render>)
    ensures call.Some? <==> !DrawGuardFails(v, canvasPresent)
    ensures call.Some? ==> call.value.data == v.data.value && call.value.username == v.username
                           && call.value.themeName == v.theme && call.value.footerText == FooterText
  {
    if DrawGuardFails(v, canvasPresent) then None
    else Some(Render(v.data.value, v.username, v.theme, FooterText))
  }

  /** The body of the effect that watches `data` and `theme`: draw only when there is data. */
  function Effected(v: View, canvasPresent: bool): View {
    if v.data.None? then v else Drawn(v, canvasPresent)
  }

  /** The `drawContributions` call the effect makes, if any. */
  function EffectCall(v: View, canvasPresent: bool): (call: Option<Render>)
    ensures call.Some? ==> v.data.Some? && canvasPresent
    ensures v.data.Some? && canvasPresent ==> call == DrawCall(v, canvasPresent)
  {
    if v.data.None? then None else DrawCall(v, canvasPresent)
  }

  /** Whether the effect's dependency list `[data, theme]` changed between two renders. */
  predicate DepsChanged(before: View, after: View) {
    before.data != after.data || before.theme != after.theme
  }

  /** The argument the JSON export handler passes to `downloadJSON`, if it calls it. */
  function JsonExport(v: View): (exported: Option<Dataset>)
    ensures exported.Some? <==> v.data.Some?
    ensures exported.Some? ==> exported.value == v.data.value
  {
    if v.data.Some? then Some(v.data.value) else None
  }

  /** The three messages the page ever stores in `error`. */
  predicate KnownError(msg: string) {
    msg == NotFoundMessage || msg == CheckFailedMessage || msg == DrawFailedMessage
  }

  /**
   * What every handler keeps: no data is held while a fetch is pending, a held
   * dataset has at least one year, and an error is one of the page's messages.
   */
  predicate Inv(v: View) {
    && (v.loading ==> v.data.None?)
    && (v.data.Some? ==> |v.data.value.years| > 0)
    && (v.error.Some? ==> KnownError(v.error.value))
  }

  /** The three messages are pairwise different, so the user can tell the cases apart. */
  lemma MessagesDistinct()
    ensures NotFoundMessage != CheckFailedMessage
    ensures NotFoundMessage != DrawFailedMessage
    ensures CheckFailedMessage != DrawFailedMessage
  {
  }

  /** Each handler, the draw routine and the effect keep `Inv`. */
  lemma HandlersKeepInv(v: View, clean: string -> string, text: string, d: Dataset, canvasPresent: bool)
    requires Inv(v)
    ensures Inv(Edited(v, text)) && Inv(Submitted(v, clean)) && Inv(Resolved(v, d))
    ensures Inv(Rejected(v)) && Inv(ThemeChanged(v, text))
    ensures Inv(Drawn(v, canvasPresent)) && Inv(Effected(v, canvasPresent))
  {
  }
}
