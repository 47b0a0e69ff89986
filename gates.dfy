/**
 * What the page's render function shows and enables, as predicates on the
 * state snapshot and, for the share button, on the host environment.
 */
module Gates {
  import opened Nullable
  import opened Session

  /** The submit button's `disabled` attribute. */
  predicate SubmitDisabled(v: View) {
    |v.username| <= 0 || v.loading
  }

  /** The result panel's `display: block` condition. */
  predicate ResultVisible(v: View) {
    v.data.Some? && !v.loading
  }

  /** The export buttons and the canvas element are in the document exactly when there is data. */
  predicate ButtonsRendered(v: View) {
    v.data.Some?
  }

  /** Whether `canvasRef.current` is set after the render commits. */
  predicate CanvasMounted(v: View) {
    ButtonsRendered(v)
  }

  /** The "Download data as JSON" link is rendered unless `data` is `null`. */
  predicate JsonLinkRendered(v: View) {
    v.data.Some?
  }

  predicate LoadingShown(v: View) {
    v.loading
  }

  /** What the share test probes: whether `global.navigator` exists and has `share`. */
  datatype Host = Host(hasNavigator: bool, hasShare: bool)

  predicate NativeShareOffered(v: View, h: Host) {
    ButtonsRendered(v) && h.hasNavigator && h.hasShare
  }

  predicate TwitterOffered(v: View, h: Host) {
    ButtonsRendered(v) && !(h.hasNavigator && h.hasShare)
  }

  /** The submit button is enabled exactly when a username is typed and no fetch is pending. */
  lemma SubmitEnabledIff(v: View)
    ensures !SubmitDisabled(v) <==> |v.username| > 0 && !v.loading
  {
  }

  /**
   * With data, exactly one of the native Share button and the Twitter fallback
   * is offered, the native one exactly when the host has `navigator.share`;
   * without data, neither is.
   */
  lemma ExactlyOneShareButton(v: View, h: Host)
    ensures v.data.Some? ==> (NativeShareOffered(v, h) <==> !TwitterOffered(v, h))
    ensures v.data.Some? ==> (NativeShareOffered(v, h) <==> h.hasNavigator && h.hasShare)
    ensures v.data.None? ==> !NativeShareOffered(v, h) && !TwitterOffered(v, h)
  {
  }
}
