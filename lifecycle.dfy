/**
 * The page over time: a trace of user and network events, each followed by
 * the commit in which React runs the `[data, theme]` effect if one of its
 * dependencies changed. Fetch outcomes arrive as events of their own, in any
 * order and at any time, because the page does not tie a result to the
 * submission that asked for it.
 */
module Lifecycle {
  import opened Nullable
  import opened Session
  import opened Gates

  datatype Event =
    | Edit(text: string)
    | Submit
    | Resolve(dataset: Dataset)
    | Reject
    | ChangeTheme(name: string)
    | DownloadJson

  /** A call the page makes into code outside it. */
  datatype Call =
    | Fetch(handle: string)
    | Paint(render: Render)
    | ExportJson(dataset: Dataset)

  datatype Outcome = Outcome(view: View, calls: seq<Call>)

  /** One event handler's effect on the state and the calls it makes. */
  function Handle(clean: string -> string, v: View, e: Event): Outcome {
    match e
    case Edit(text) => Outcome(Edited(v, text), [])
    case Submit => Outcome(Submitted(v, clean), [Fetch(clean(v.username))])
    case Resolve(d) => Outcome(Resolved(v, d), [])
    case Reject => Outcome(Rejected(v), [])
    case ChangeTheme(name) => Outcome(ThemeChanged(v, name), [])
    case DownloadJson =>
      Outcome(v, match JsonExport(v) case Some(d) => [ExportJson(d)] case None => [])
  }

  /** The commit after a handler: the effect runs iff its dependencies changed. */
  function Commit(before: View, o: Outcome): Outcome {
    if DepsChanged(before, o.view) then
      var canvas := CanvasMounted(o.view);
      Outcome(Effected(o.view, canvas),
              o.calls + match EffectCall(o.view, canvas) case Some(r) => [Paint(r)] case None => [])
    else o
  }

  function Step(clean: string -> string, v: View, e: Event): Outcome {
    Commit(v, Handle(clean, v, e))
  }

  /** The state after a whole trace of events. */
  function Run(clean: string -> string, v: View, trace: seq<Event>): View
    decreases |trace|
  {
    if trace == [] then v else Run(clean, Step(clean, v, trace[0]).view, trace[1..])
  }

  /** `Inv`, and the draw routine's failure message is never stored. */
  predicate Sound(v: View) {
    Inv(v) && v.error != Some(DrawFailedMessage)
  }

  /** The effect never reaches the failing branch of `draw`: the canvas is mounted whenever there is data. */
  lemma StepKeepsSound(clean: string -> string, v: View, e: Event)
    requires Sound(v)
    ensures Sound(Step(clean, v, e).view)
  {
  }

  /**
   * The commit after a handler never changes the state the handler left: the
   * canvas is mounted whenever the effect draws, so `draw`'s guard passes.
   */
  lemma CommitKeepsView(clean: string -> string, v: View, e: Event)
    ensures Step(clean, v, e).view == Handle(clean, v, e).view
  {
  }

  lemma {:induction false} RunKeepsSound(clean: string -> string, v: View, trace: seq<Event>)
    requires Sound(v)
    ensures Sound(Run(clean, v, trace))
    decreases |trace|
  {
    if trace != [] {
      StepKeepsSound(clean, v, trace[0]);
      RunKeepsSound(clean, Step(clean, v, trace[0]).view, trace[1..]);
    }
  }

  /** Every reachable state keeps `Inv` and never shows the draw failure. */
  lemma ReachableIsSound(clean: string -> string, trace: seq<Event>)
    ensures var v := Run(clean, Initial(), trace);
            Inv(v) && (v.error.Some? ==> v.error.value == NotFoundMessage || v.error.value == CheckFailedMessage)
  {
    RunKeepsSound(clean, Initial(), trace);
  }

  /**
   * In every reachable state the result panel is visible exactly when the JSON
   * link and the export buttons are rendered, and while a fetch is pending
   * none of them is, nor is the submit button enabled.
   */
  lemma ReachableGatesAgree(clean: string -> string, trace: seq<Event>, h: Host)
    ensures var v := Run(clean, Initial(), trace);
            && (ResultVisible(v) <==> JsonLinkRendered(v))
            && (ResultVisible(v) <==> ButtonsRendered(v))
            && (LoadingShown(v) ==>
                  !ResultVisible(v) && !JsonLinkRendered(v) && SubmitDisabled(v)
                  && !NativeShareOffered(v, h) && !TwitterOffered(v, h))
  {
    RunKeepsSound(clean, Initial(), trace);
  }

  /**
   * Whether the page itself lets event `e` happen in state `v`. A submission
   * needs the enabled submit button. A fetch outcome needs a pending fetch:
   * the button is disabled while loading, so at most one fetch is ever in
   * flight, and its outcome is the next one to arrive.
   */
  predicate Allowed(v: View, e: Event) {
    match e
    case Submit => !SubmitDisabled(v)
    case Resolve(_) => v.loading
    case Reject => v.loading
    case _ => true
  }

  /** Every event of the trace is allowed in the state it reaches. */
  predicate Gated(clean: string -> string, v: View, trace: seq<Event>)
    decreases |trace|
  {
    trace == [] ||
    (Allowed(v, trace[0]) && Gated(clean, Step(clean, v, trace[0]).view, trace[1..]))
  }

  /**
   * `Sound`, and in addition: nothing is reported while a fetch is pending,
   * and a reported error never comes with a held dataset.
   */
  predicate Settled(v: View) {
    Sound(v) && (v.loading ==> v.error.None?) && (v.error.Some? ==> v.data.None?)
  }

  /** An outcome the page lets through lands on the state the submit handler left. */
  lemma GatedOutcomeDecides(clean: string -> string, v: View, e: Event)
    requires Settled(v) && v.loading && (e.Resolve? || e.Reject?)
    ensures var w := Step(clean, v, e).view;
            && !w.loading
            && (w.error.Some? <==> e.Reject? || |e.dataset.years| == 0)
            && (e.Reject? ==> w.error == Some(CheckFailedMessage))
            && (w.error.Some? ==> w.data.None?)
            && (w.error.None? ==> w.data == Some(e.dataset))
  {
    CommitKeepsView(clean, v, e);
  }

  lemma GatedStepKeepsSettled(clean: string -> string, v: View, e: Event)
    requires Settled(v) && Allowed(v, e)
    ensures Settled(Step(clean, v, e).view)
  {
    StepKeepsSound(clean, v, e);
    CommitKeepsView(clean, v, e);
  }

  lemma {:induction false} GatedRunKeepsSettled(clean: string -> string, v: View, trace: seq<Event>)
    requires Settled(v) && Gated(clean, v, trace)
    ensures Settled(Run(clean, v, trace))
    decreases |trace|
  {
    if trace != [] {
      GatedStepKeepsSettled(clean, v, trace[0]);
      GatedRunKeepsSettled(clean, Step(clean, v, trace[0]).view, trace[1..]);
    }
  }

  /**
   * Along every trace the page lets through, an error message and a chart
   * are never shown together, and nothing is reported while loading.
   */
  lemma GatedErrorHidesResult(clean: string -> string, trace: seq<Event>)
    requires Gated(clean, Initial(), trace)
    ensures var v := Run(clean, Initial(), trace);
            && Inv(v)
            && (v.loading ==> v.error.None?)
            && (v.error.Some? ==> v.data.None? && !ResultVisible(v) && !JsonLinkRendered(v) && !ButtonsRendered(v))
  {
    GatedRunKeepsSettled(clean, Initial(), trace);
  }

  /** A submission asks for the cleaned name, clears the outcome and never paints. */
  lemma SubmitFetchesCleanName(clean: string -> string, v: View)
    ensures var o := Step(clean, v, Submit);
            o.view == Submitted(v, clean) && o.calls == [Fetch(clean(v.username))]
  {
  }

  /** A result with years, replacing other data, is stored and painted with the current name and theme. */
  lemma ResolvePaints(clean: string -> string, v: View, d: Dataset)
    requires |d.years| > 0 && v.data != Some(d)
    ensures var o := Step(clean, v, Resolve(d));
            && o.view == v.(loading := false, data := Some(d))
            && o.calls == [Paint(Render(d, v.username, v.theme, FooterText))]
  {
  }

  /** A result without years reports "not found", keeps whatever data was held and paints nothing. */
  lemma ResolveEmptyReportsNotFound(clean: string -> string, v: View, d: Dataset)
    requires |d.years| == 0
    ensures var o := Step(clean, v, Resolve(d));
            o.view == v.(loading := false, error := Some(NotFoundMessage)) && o.calls == []
  {
  }

  /** A failed fetch reports the generic message, keeps whatever data was held and paints nothing. */
  lemma RejectReportsFailure(clean: string -> string, v: View)
    ensures var o := Step(clean, v, Reject);
            o.view == v.(loading := false, error := Some(CheckFailedMessage)) && o.calls == []
            && o.view.error != Some(NotFoundMessage)
  {
    MessagesDistinct();
  }

  /**
   * Picking a different theme with data loaded repaints the same dataset in
   * the new theme, fetches nothing and changes nothing but the theme.
   */
  lemma ThemeChangeRepaints(clean: string -> string, v: View, name: string)
    requires v.data.Some? && name != v.theme
    ensures var o := Step(clean, v, ChangeTheme(name));
            o.view == v.(theme := name)
            && o.calls == [Paint(Render(v.data.value, v.username, name, FooterText))]
  {
  }

  /** Without data, or with the same theme, a theme change only records the name. */
  lemma ThemeChangeWithoutRepaint(clean: string -> string, v: View, name: string)
    requires v.data.None? || name == v.theme
    ensures var o := Step(clean, v, ChangeTheme(name));
            o.view == v.(theme := name) && o.calls == []
  {
  }

  /** The JSON export changes nothing and calls `downloadJSON` exactly when there is data. */
  lemma DownloadJsonExportsData(clean: string -> string, v: View)
    ensures var o := Step(clean, v, DownloadJson);
            && o.view == v
            && (v.data.None? ==> o.calls == [])
            && (v.data.Some? ==> o.calls == [ExportJson(v.data.value)])
  {
  }

  /** Typing never fetches or paints. */
  lemma EditOnlySetsName(clean: string -> string, v: View, text: string)
    ensures var o := Step(clean, v, Edit(text));
            o.view == v.(username := text) && o.calls == []
  {
  }

  /**
   * Submitting a padded handle that cleans to a profile without history ends
   * in the "not found" message with no data and no export controls.
   */
  lemma NotFoundScenario(clean: string -> string, d: Dataset)
    requires clean("  @ghost_user ") == "ghost_user" && |d.years| == 0
    ensures var v := Run(clean, Initial(), [Edit("  @ghost_user "), Submit, Resolve(d)]);
            && v.username == "ghost_user" && !v.loading
            && v.error == Some(NotFoundMessage) && v.data.None?
            && !ResultVisible(v) && !JsonLinkRendered(v)
  {
    var t := [Edit("  @ghost_user "), Submit, Resolve(d)];
    var v1 := Step(clean, Initial(), t[0]).view;
    var v2 := Step(clean, v1, t[1]).view;
    assert t[1..][1..] == [Resolve(d)];
    assert Run(clean, Initial(), t) == Run(clean, v2, [Resolve(d)]);
    assert [Resolve(d)][1..] == [];
    assert Run(clean, v2, [Resolve(d)]) == Step(clean, v2, Resolve(d)).view;
  }

  /**
   * A profile with two years, followed by a theme change, ends ready: data
   * shown, export controls rendered, no error, the new theme recorded.
   */
  lemma ReadyScenario(clean: string -> string, d: Dataset)
    requires clean("octocat") == "octocat" && |d.years| == 2
    ensures var v := Run(clean, Initial(), [Edit("octocat"), Submit, Resolve(d), ChangeTheme("halloween")]);
            && v == View(false, "octocat", "halloween", Some(d), None)
            && ResultVisible(v) && JsonLinkRendered(v) && !SubmitDisabled(v)
  {
    var t := [Edit("octocat"), Submit, Resolve(d), ChangeTheme("halloween")];
    var v1 := Step(clean, Initial(), t[0]).view;
    var v2 := Step(clean, v1, t[1]).view;
    var v3 := Step(clean, v2, t[2]).view;
    assert v3 == View(false, "octocat", "standard", Some(d), None);
    assert t[1..][1..] == [Resolve(d), ChangeTheme("halloween")];
    assert t[1..][1..][1..] == [ChangeTheme("halloween")];
    assert Run(clean, Initial(), t) == Run(clean, v1, t[1..]);
    assert Run(clean, v1, t[1..]) == Run(clean, v2, t[1..][1..]);
    assert Run(clean, v2, t[1..][1..]) == Run(clean, v3, [ChangeTheme("halloween")]);
    assert [ChangeTheme("halloween")][1..] == [];
    assert Run(clean, v3, [ChangeTheme("halloween")]) == Step(clean, v3, ChangeTheme("halloween")).view;
  }
}
