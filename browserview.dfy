/**
 * The other browser-view variant (browserview.go): no URL handling, only
 * the bounds command. It redeclares names of browser_view.go, so it lives in
 * a module of its own.
 */
module BrowserViewsLegacy {
  import BrowserViews
  import opened Wrappers
  import opened Events
  import opened Objects

  const BrowserViewCmdSetBounds: string := "browser.view.cmd.set.bounds"
  const BrowserViewEventSetBounds: string := "browser.view.event.set.bounds"

  class BrowserView {
    const obj: Obj
    const callbackIdentifier: Identifier
    const o: Option<WindowOptions>

    constructor (base: Obj, callbacks: Identifier, wo: Option<WindowOptions>)
      ensures obj == base && callbackIdentifier == callbacks && o == wo
    {
      obj := base;
      callbackIdentifier := callbacks;
      o := wo;
    }

    /** SetBounds: does nothing once cancelled; otherwise sends the bounds, ignoring the outcome. */
    method SetBounds(bounds: Option<RectangleOptions>, answer: Answer)
      modifies obj
      ensures obj.State() == Command(old(obj.State()),
        SyncCall(Envelope(BrowserViewCmdSetBounds, obj.id).(bounds := bounds), BrowserViewEventSetBounds))
    {
      var err := obj.Err();
      if err.Some? {
        return;
      }
      var _ := obj.SynchronousEvent(
        Envelope(BrowserViewCmdSetBounds, obj.id).(bounds := bounds), BrowserViewEventSetBounds, answer);
    }
  }

  /**
   * newBrowserView: a view under a freshly allocated object id with a fresh
   * callback identifier; the `url` argument is not used and the error is always nil.
   */
  method NewBrowserView(url: string, wo: Option<WindowOptions>, i: Identifier)
    returns (b: BrowserView, err: Option<Error>)
    requires i.Valid()
    modifies i
    ensures err == None
    ensures i.Valid() && b.obj.id !in old(i.issued) && i.issued == old(i.issued) + {b.obj.id}
    ensures b.obj.id != ""
    ensures fresh(b) && fresh(b.obj) && fresh(b.callbackIdentifier)
    ensures b.obj.State() == Initial && b.o == wo
    ensures b.callbackIdentifier.Valid() && b.callbackIdentifier.issued == {}
  {
    var callbacks := new Identifier();
    var id := i.New();
    var base := new Obj(id);
    b := new BrowserView(base, callbacks, wo);
    err := None;
  }

  /** The two variants send the same bounds command under the same reply name. */
  lemma SetBoundsAgreesWithBrowserViews(id: string, bounds: Option<RectangleOptions>)
    ensures Envelope(BrowserViewCmdSetBounds, id).(bounds := bounds)
         == Envelope(BrowserViews.BrowserViewCmdSetBounds, id).(bounds := bounds)
    ensures BrowserViewEventSetBounds == BrowserViews.BrowserViewEventSetBounds
  {
  }
}
