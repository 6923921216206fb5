# go-astilectron: envelopes and the per-object command veneer

This project models the layer of go-astilectron that turns typed Go methods
into envelopes sent to the remote Electron process:

- the `Event` envelope and the `EventMessage` raw-message holder (event.go);
- `Dialog` (dialog.go), `Session` and `Window.OnBeforeRequest` (session.go);
- the two alternative `BrowserView` files (browser_view.go, browserview.go).

Every command method works the same way. If the object's lifetime has already
ended, a method with an error result returns `ctx.Err()` at once, and the two
`SetBounds`, which return nothing, simply stop. Otherwise the method builds one
envelope. That envelope carries a fixed command name, the object's own id as
`TargetID`, and at most two payload fields (`BrowserView.Create` sends `URL` and
`WindowOptions`; the others send at most one). It hands the envelope to
`synchronousEvent` together with a fixed reply name. `Window.OnBeforeRequest`
differs in one respect: it registers its hook before the lifetime check, so the
hook is registered even when the call then fails fast.

## Structure

- `wrappers.dfy`, module `Wrappers`: `Option`, `Result`, and `Error` for Go's `error` values.
- `event.dfy`, module `Events`, covers event.go.
  - `Event` is a datatype that keeps the payload fields the modelled files use.
    A string field is absent when it is `""`. A pointer field is absent when it is `None`.
  - `Fields(e)` gives the fields that the `omitempty` tags keep.
  - `EventMessage` is a class, because `UnmarshalJSON` updates its held value in place.
- `object.dfy`, module `Objects`, stands in for the unshown `object`, `identifier`, `writer` and `synchronousEvent`.
  - `Obj` is the embedded `*object`. It has an id, a `cancelled` flag for the context, an ordered listener list, a log of writes, and a log of `(command, reply name)` pairs handed to `synchronousEvent`.
  - `ObjState` is the same state as a value.
  - `Command`, `Fire`, `Apply` and `Run` are its transitions. The lemmas about sequences of steps are proved over them.
  - `Identifier` is an abstract supply of fresh ids.
- `dialog.dfy` (`Dialogs`), `session.dfy` (`Sessions`), `browser_view.dfy` (`BrowserViews`) and
  `browserview.dfy` (`BrowserViewsLegacy`): one class per veneer type. Each holds a reference `obj: Obj`,
  as the Go types embed `*object`. Each method's `ensures` gives the object's whole new state as
  `Command(old state, call)` and says what the method returns.

Inputs the model takes as parameters:

- the outcome of `synchronousEvent`, as an `Answer`;
- the transport's verdict on a write, as `writeFailure`;
- the user's `fn` in `OnBeforeRequest`, as a pure function of the inbound event;
- `url.Parse`, `filepath.Abs` and `filepath.ToSlash`, bundled in a `Library` value;
- `URL.String`, as the `render` parameter.

## Model

| member | source | states |
|---|---|---|
| Events.ReservedTargetIds | event.go:9-12 | the reserved target ids "app" and "dock" are distinct, and an envelope addressed to either one serialises its `targetID` |
| Events.JsonKeyInjective | event.go:15-77 | distinct fields carry distinct JSON keys, so the set of fields `Fields` gives fixes the set of keys emitted |
| Events.Fields | event.go:15-77 | `name` is always serialised; `targetID`, `callbackId` and every payload field are serialised exactly when they are set |
| Events.Envelope | event.go:17-18 | a bare `Event{Name, TargetID}` has the given name and target and no payload field set |
| Events.EventMessage.constructor | event.go:104-106 | `newEventMessage(i)` holds `i` unchanged |
| Events.EventMessage.Unmarshal | event.go:114-119 | the JSON decoder gets exactly the held bytes when the message holds bytes; any other held value gives the error "event message should []byte" and nothing is decoded |
| Events.EventMessage.UnmarshalJSON | event.go:122-125 | the message afterwards holds exactly `b`, there is no error, and a later `Unmarshal` decodes `b` rather than failing |
| Objects.Identifier.New | dialog.go:68 | the id is non-empty and one the identifier never issued before, and it is now recorded as issued, so every veneer command's envelope serialises its `TargetID` |
| Objects.Obj.Err | dialog.go:81 | `ctx.Err()` is `Canceled` exactly when the lifetime has ended |
| Objects.LifetimeErr | session.go:34-36 | the fail-fast error is present exactly when the state is cancelled, and it is `Canceled` |
| Objects.Command | dialog.go:81-85 | a cancelled object hands nothing to `synchronousEvent`; a live one hands it exactly the given call; nothing else changes |
| Objects.Fire | dialog.go:72-75 | firing a listener never reaches `synchronousEvent`; the cancel hook ends the lifetime and writes nothing; the before-request hook writes exactly once |
| Objects.Obj.FireListener | session.go:61-72 | one listener invocation, then removal exactly when it returns true; the before-request hook's signal is `fn`'s third result even when the write fails |
| Objects.FireRemovesOnlyItself | dialog.go:72-75 | a firing leaves the listener list alone or removes only the fired entry; the cancel hook always removes itself |
| Objects.FireInterceptWritesOnce | session.go:63-71 | one firing writes exactly one reply with the inbound callback id, `w.id`, and `fn`'s mime type and data; the hook stays exactly when `fn` returns false |
| Objects.InterceptReply | session.go:66 | the reply carries the given callback id, target id, mime type and data under the intercept-callback name |
| Objects.CancelledIsFinal | session.go:34-37 | once the lifetime has ended, it stays ended after any later steps, and nothing more is handed to `synchronousEvent` |
| Objects.DurableHookWrites | session.go:61-72 | a hook that keeps itself answers N requests with exactly N writes, in order, and changes nothing else |
| Objects.DurableHookEchoesCallbackIDs | session.go:66 | the j-th reply written by a durable hook echoes the j-th request's `CallbackID` |
| Dialogs.OtherEventKeepsDialogLive | dialog.go:72-75 | an inbound event under any name other than `dialog.event.destroyed` does not reach the cancel hook: the dialog stays live, keeps its listener, and Create still sends |
| Dialogs.Dialog.constructor | dialog.go:64-77 | the dialog gets a freshly issued id and a live lifetime, and its only listener is the `dialog.event.destroyed` cancel hook |
| Dialogs.Dialog.Create | dialog.go:80-87 | fails fast with `Canceled` and sends nothing when cancelled; otherwise hands `{dialog.cmd.create, id, DialogOptions}` to `synchronousEvent` awaiting `dialog.event.created`, and returns its error |
| Dialogs.Dialog.Destroy | dialog.go:90-96 | fails fast when cancelled; otherwise hands `{dialog.cmd.destroy, id}` over, awaiting `dialog.event.destroyed` |
| Dialogs.Dialog.ShowOpenDialog | dialog.go:98-104 | fails fast with a zero event when cancelled; otherwise sends the options under `dialog.cmd.show.open.dialog` and returns the reply awaited as `dialog.event.show.open.dialog` |
| Dialogs.DestroyedDialogIsFinal | dialog.go:72-75 | after the destroyed listener fires, the dialog is cancelled, the listener is gone, and no later step sends anything |
| Dialogs.DestroyedThenCreateSendsNothing | dialog.go:72-85 | on a new dialog, Create sends its command, but after a `dialog.event.destroyed` event it sends nothing |
| Sessions.Session.constructor | session.go:28-30 | the session gets a freshly issued id and a live lifetime |
| Sessions.Session.ClearCache | session.go:33-39 | fails fast when cancelled; otherwise sends `session.cmd.clear.cache` to `s.id`, awaiting `session.event.cleared.cache` |
| Sessions.Session.FlushStorage | session.go:42-48 | fails fast when cancelled; otherwise sends `session.cmd.flush.storage` to `s.id`, awaiting `session.event.flushed.storage` |
| Sessions.Session.LoadExtension | session.go:51-57 | fails fast when cancelled; otherwise sends `session.cmd.load.extension` with `path`, awaiting `session.event.loaded.extension` |
| Sessions.LoadExtensionCommand | session.go:55 | `path` goes into the Path field and nowhere else |
| Sessions.Window.OnBeforeRequest | session.go:59-79 | the durable hook is registered whatever the lifetime; then the call fails fast, or sends the setup command awaiting the hook's own event name |
| Sessions.BeforeRequestListener | session.go:61 | the durable listener listens on the on-before-request callback name and runs `fn` |
| Sessions.OnBeforeRequestRegistersFirst | session.go:61-77 | on a cancelled window the hook is registered but nothing is sent; on a live one the setup call targets the window and awaits the name the hook is registered on |
| Sessions.EachRequestAnsweredOnce | session.go:61-72 | after OnBeforeRequest, each request delivered under the hook's callback name gets one write echoing its callback id, while `fn` keeps the hook |
| BrowserViews.ResolvedURL | browser_view.go:39-55 | a parse failure or an `Abs` failure is an error; a URL with a scheme is kept exactly as parsed; a URL with no scheme becomes `{Scheme: "file", Path: ToSlash(Abs(url))}`; a resolved URL always has a scheme |
| BrowserViews.ResolvedURLIsFixpoint | browser_view.go:39-55 | when the rendered form of a resolved URL parses back to that URL, resolving the rendered form again gives the same URL |
| BrowserViews.NewBrowserView | browser_view.go:29-58 | an object id is drawn even if the URL then fails; the view exists exactly when resolution succeeds; the view has the resolved URL, its window options, a fresh callback identifier and a fresh object |
| BrowserViews.BrowserView.SetBounds | browser_view.go:60-66 | does nothing when cancelled; otherwise sends `browser.view.cmd.set.bounds` with `Bounds`, awaiting `browser.view.event.set.bounds`, and ignores the outcome |
| BrowserViews.BrowserView.Create | browser_view.go:68-74 | fails fast when cancelled; otherwise sends `browser.view.cmd.create` with the rendered URL and the window options, awaiting `browser.view.event.did.finish.load` |
| BrowserViewsLegacy.NewBrowserView | browserview.go:23-32 | the error is always nil, `url` is not used, and the view gets a freshly issued object id, a fresh callback identifier and its window options |
| BrowserViewsLegacy.BrowserView.SetBounds | browserview.go:34-40 | does nothing when cancelled; otherwise sends `{browser.view.cmd.set.bounds, id, Bounds}` awaiting `browser.view.event.set.bounds` |
| BrowserViewsLegacy.SetBoundsAgreesWithBrowserViews | browserview.go:10-13 | both variants send the same bounds command and await the same reply name |

## Notes on the code

- The durable hook of `OnBeforeRequest` writes its reply on every firing (session.go:63-71).
  This includes the firing where `fn` asks for the hook's removal.
- `newBrowserView` reassigns `url` to Abs's first result before it builds the error for a failed
  `filepath.Abs` (browser_view.go:48-49). So that message names Abs's result, not the original
  argument. The model does the same.

## Left out

- The code of `object`, `dispatcher`, `identifier`, `writer` and `synchronousEvent` is not part of this model.
  - `Obj.Write` and `Obj.SynchronousEvent` only append to logs and return what the environment supplies.
  - `Identifier.New` only promises freshness. Its strings are stand-ins for the real ones.
  - Dispatcher registration in `newObject` and the parent-context link are not modelled. An object starts live.
- Objects.Obj.FireListener: runs one listener and removes it at once. The dispatcher's full pass over all listeners for a name is not modelled, because that code is not shown.
- Blocking, waiting, goroutines, the `sync.Mutex` fields (browser_view.go:24, browserview.go:19) and the closure writing the enclosing `err` (session.go:66) are left out. They are concurrency.
- Logging of a failed write (session.go:67) is left out. The model keeps only that the failure does not change the removal signal.
- Events.EventMessage.UnmarshalJSON: the Go method keeps the caller's slice without copying it (event.go:123), so the held bytes alias the JSON decoder's input buffer. The model holds an immutable copy, so a later reuse of that buffer by the decoder, which would change what `Unmarshal` sees, is not captured.
- The exported event names that only callers subscribe to, such as `session.event.will.download` (session.go:16), are not modelled, because no modelled operation uses them.
- JSON encoding and decoding are not modelled: `MarshalJSON` (event.go:109-111), the `json.Unmarshal` call (event.go:116) and the rendering of `omitempty`. `Fields` says only which keys are present.
- `url.Parse`, `filepath.Abs`, `filepath.ToSlash` and `URL.String` are parameters, because their results depend on the environment. `URL` keeps six of Go's URL fields; `User`, `RawPath`, `ForceQuery`, `RawFragment` and `OmitHost` are not modelled.
- `RectangleOptions`, `WindowOptions` and the window event-name constants are declared in files that are not part of this model. They are uninterpreted types and constants.
- `Event` keeps only the payload fields that the modelled files touch, plus `AuthInfo`, `Request` and `Message`. The rest of the flat field list is left out.
- The user function `fn` of `OnBeforeRequest` is a pure function of the inbound event. Its side effects are not modelled.
