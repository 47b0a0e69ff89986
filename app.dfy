/**
 * The page component itself: its five state variables as fields and one
 * method per event handler. Each method states its new state field by field
 * and ties it to the matching transition in session.dfy. Dispatch shows that a
 * call of a handler method, followed by the effect when `data` or `theme`
 * changed, moves the state and makes the calls exactly as one event of
 * lifecycle.dfy does. `Draw` and `RunEffect` take the canvas's presence
 * freely, so calling them with no canvas while there is data leaves the states
 * lifecycle.dfy can reach.
 */
module Page {
  import opened Nullable
  import opened Session
  import Gates
  import Lifecycle

  class App {
    var loading: bool
    var username: string
    var theme: string
    var data: Option<Dataset>
    var error: Option<string>

    function Snapshot(): View
      reads this
    {
      View(loading, username, theme, data, error)
    }

    ghost predicate Valid()
      reads this
    {
      Inv(Snapshot())
    }

    constructor ()
      ensures Valid() && Snapshot() == Initial()
      ensures !loading && username == "" && theme == InitialTheme && data == None && error == None
    {
      loading := false;
      username := "";
      theme := InitialTheme;
      data := None;
      error := None;
    }

    /** The username field's `onChange`. */
    method EditUsername(text: string)
      requires Valid()
      modifies this
      ensures Valid() && Snapshot() == Edited(old(Snapshot()), text)
      ensures username == text
      ensures loading == old(loading) && theme == old(theme) && data == old(data) && error == old(error)
    {
      username := text;
    }

    /**
     * The form's submit handler, up to the point where it hands the cleaned
     * name to `fetchData`; `handle` is that argument. The promise's outcome
     * arrives later through OnFetchResolved or OnFetchRejected.
     */
    method Submit(clean: string -> string) returns (handle: string)
      requires Valid()
      modifies this
      ensures Valid() && Snapshot() == Submitted(old(Snapshot()), clean)
      ensures loading && error == None && data == None
      ensures username == clean(old(username)) && theme == old(theme)
      ensures handle == clean(old(username))
    {
      handle := clean(username);
      username := clean(username);
      loading := true;
      error := None;
      data := None;
    }

    /** The `then` callback of the fetch. Nothing checks which submission it answers. */
    method OnFetchResolved(dataset: Dataset)
      requires Valid()
      modifies this
      ensures Valid() && Snapshot() == Resolved(old(Snapshot()), dataset)
      ensures !loading && username == old(username) && theme == old(theme)
      ensures |dataset.years| == 0 ==> error == Some(NotFoundMessage) && data == old(data)
      ensures |dataset.years| > 0 ==> data == Some(dataset) && error == old(error)
    {
      loading := false;
      if |dataset.years| == 0 {
        error := Some(NotFoundMessage);
      } else {
        data := Some(dataset);
      }
    }

    /** The `catch` callback of the fetch. */
    method OnFetchRejected()
      requires Valid()
      modifies this
      ensures Valid() && Snapshot() == Rejected(old(Snapshot()))
      ensures !loading && error == Some(CheckFailedMessage) && error != Some(NotFoundMessage)
      ensures data == old(data) && username == old(username) && theme == old(theme)
    {
      MessagesDistinct();
      loading := false;
      error := Some(CheckFailedMessage);
    }

    /** The theme selector's `onChangeTheme`: no fetch, only the theme changes. */
    method ChangeTheme(name: string)
      requires Valid()
      modifies this
      ensures Valid() && Snapshot() == ThemeChanged(old(Snapshot()), name)
      ensures theme == name
      ensures loading == old(loading) && username == old(username) && data == old(data) && error == old(error)
    {
      theme := name;
    }

    /**
     * `draw`: with no canvas element or no data it stores the generic failure
     * message; otherwise it returns the options it passes to `drawContributions`.
     */
    method Draw(canvasPresent: bool) returns (painted: Option<Render>)
      requires Valid()
      modifies this
      ensures Valid() && Snapshot() == Drawn(old(Snapshot()), canvasPresent)
      ensures painted == DrawCall(old(Snapshot()), canvasPresent)
      ensures !canvasPresent || old(data).None? ==> painted == None && error == Some(DrawFailedMessage)
      ensures canvasPresent && old(data).Some? ==>
                painted == Some(Render(old(data).value, username, theme, FooterText)) && error == old(error)
      ensures loading == old(loading) && username == old(username) && theme == old(theme) && data == old(data)
    {
      if !canvasPresent || data.None? {
        error := Some(DrawFailedMessage);
        painted := None;
        return;
      }
      painted := Some(Render(data.value, username, theme, FooterText));
    }

    /** The effect run after a commit that changed `data` or `theme`: a redraw only when there is data. */
    method RunEffect(canvasPresent: bool) returns (painted: Option<Render>)
      requires Valid()
      modifies this
      ensures Valid() && Snapshot() == Effected(old(Snapshot()), canvasPresent)
      ensures painted == EffectCall(old(Snapshot()), canvasPresent)
      ensures old(data).None? ==> painted == None && Snapshot() == old(Snapshot())
    {
      if data.None? {
        painted := None;
        return;
      }
      painted := Draw(canvasPresent);
    }

    /** The JSON export handler: `downloadJSON(data)` when there is data, nothing otherwise. */
    method OnDownloadJson() returns (exported: Option<Dataset>)
      ensures exported.None? <==> data.None?
      ensures exported.Some? ==> exported.value == data.value
    {
      if data != None {
        exported := Some(data.value);
      } else {
        exported := None;
      }
    }
  }

  /**
   * Delivers one event of the trace model to the page's handler for it and,
   * when `data` or `theme` changed, runs the effect with the canvas mounted as
   * the render leaves it. The object's state and the outside calls made are
   * exactly those of `Lifecycle.Step`, commit included.
   */
  method Dispatch(a: App, clean: string -> string, e: Lifecycle.Event) returns (calls: seq<Lifecycle.Call>)
    requires a.Valid()
    modifies a
    ensures a.Valid() && a.Snapshot() == Lifecycle.Step(clean, old(a.Snapshot()), e).view
    ensures calls == Lifecycle.Step(clean, old(a.Snapshot()), e).calls
  {
    var before := a.Snapshot();
    match e {
    case Edit(text) =>
      a.EditUsername(text);
      calls := [];
    case Submit =>
      var handle := a.Submit(clean);
      calls := [Lifecycle.Fetch(handle)];
    case Resolve(d) =>
      a.OnFetchResolved(d);
      calls := [];
    case Reject =>
      a.OnFetchRejected();
      calls := [];
    case ChangeTheme(name) =>
      a.ChangeTheme(name);
      calls := [];
    case DownloadJson =>
      var exported := a.OnDownloadJson();
      calls := if exported.Some? then [Lifecycle.ExportJson(exported.value)] else [];
    }
    assert a.Snapshot() == Lifecycle.Handle(clean, before, e).view;
    if DepsChanged(before, a.Snapshot()) {
      var painted := a.RunEffect(Gates.CanvasMounted(a.Snapshot()));
      if painted.Some? {
        calls := calls + [Lifecycle.Paint(painted.value)];
      }
    }
  }
}
