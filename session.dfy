/** Sessions (session.go): the session commands and the window's durable before-request hook. */
module Sessions {
  import opened Wrappers
  import opened Events
  import opened Objects

  const SessionCmdClearCache: string := "session.cmd.clear.cache"
  const SessionEventClearedCache: string := "session.event.cleared.cache"
  const SessionCmdFlushStorage: string := "session.cmd.flush.storage"
  const SessionEventFlushedStorage: string := "session.event.flushed.storage"
  const SessionCmdLoadExtension: string := "session.cmd.load.extension"
  const SessionEventLoadedExtension: string := "session.event.loaded.extension"

  class Session {
    const obj: Obj

    /** newSession: an object under a freshly allocated id. */
    constructor (i: Identifier)
      requires i.Valid()
      modifies i
      ensures i.Valid() && obj.id !in old(i.issued) && i.issued == old(i.issued) + {obj.id}
      ensures obj.id != "" && fresh(obj) && obj.State() == Initial
    {
      var id := i.New();
      obj := new Obj(id);
    }

    /** ClearCache: fails fast once cancelled; otherwise sends "clear.cache" and awaits "cleared.cache". */
    method ClearCache(answer: Answer) returns (err: Option<Error>)
      modifies obj
      ensures obj.State() == Command(old(obj.State()),
        SyncCall(Envelope(SessionCmdClearCache, obj.id), SessionEventClearedCache))
      ensures err == if old(obj.cancelled) then Some(Canceled) else answer.err
    {
      err := obj.Err();
      if err.Some? {
        return;
      }
      var r := obj.SynchronousEvent(Envelope(SessionCmdClearCache, obj.id), SessionEventClearedCache, answer);
      err := r.err;
    }

    /** FlushStorage: fails fast once cancelled; otherwise sends "flush.storage" and awaits "flushed.storage". */
    method FlushStorage(answer: Answer) returns (err: Option<Error>)
      modifies obj
      ensures obj.State() == Command(old(obj.State()),
        SyncCall(Envelope(SessionCmdFlushStorage, obj.id), SessionEventFlushedStorage))
      ensures err == if old(obj.cancelled) then Some(Canceled) else answer.err
    {
      err := obj.Err();
      if err.Some? {
        return;
      }
      var r := obj.SynchronousEvent(Envelope(SessionCmdFlushStorage, obj.id), SessionEventFlushedStorage, answer);
      err := r.err;
    }

    /** LoadExtension: like the others, with `path` as the envelope's only payload. */
    method LoadExtension(path: string, answer: Answer) returns (err: Option<Error>)
      modifies obj
      ensures obj.State() == Command(old(obj.State()),
        SyncCall(LoadExtensionCommand(obj.id, path), SessionEventLoadedExtension))
      ensures err == if old(obj.cancelled) then Some(Canceled) else answer.err
    {
      err := obj.Err();
      if err.Some? {
        return;
      }
      var r := obj.SynchronousEvent(LoadExtensionCommand(obj.id, path), SessionEventLoadedExtension, answer);
      err := r.err;
    }
  }

  /** The load-extension command: `path` goes into the Path field and nowhere else. */
  function LoadExtensionCommand(id: string, path: string): (e: Event)
    ensures e.name == SessionCmdLoadExtension && e.targetID == id && e.path == path
    ensures Fields(e) == Fields(Envelope(SessionCmdLoadExtension, id)) + (if path != "" then {Path} else {})
  {
    Envelope(SessionCmdLoadExtension, id).(path := path)
  }

  /** The window the hook belongs to; newWindow is declared in a file outside this model. */
  class Window {
    const obj: Obj

    constructor (obj: Obj)
      ensures this.obj == obj
    {
      this.obj := obj;
    }

    /**
     * OnBeforeRequest: registers the durable hook first, whatever the
     * lifetime; then fails fast once cancelled, or asks the remote side to
     * start intercepting and awaits the same event name the hook listens on.
     */
    method OnBeforeRequest(fn: Event -> (string, string, bool), answer: Answer) returns (err: Option<Error>)
      modifies obj
      ensures obj.State() == Command(
        Apply(old(obj.State()), obj.id, Register(BeforeRequestListener(fn))),
        SyncCall(Envelope(WebContentsEventSessionWebRequestOnBeforeRequest, obj.id),
                 WebContentsEventSessionWebRequestOnBeforeRequestCallback))
      ensures obj.listeners == old(obj.listeners) + [BeforeRequestListener(fn)]
      ensures err == if old(obj.cancelled) then Some(Canceled) else answer.err
    {
      obj.On(WebContentsEventSessionWebRequestOnBeforeRequestCallback, InterceptBeforeRequest(fn));
      err := obj.Err();
      if err.Some? {
        return;
      }
      var r := obj.SynchronousEvent(
        Envelope(WebContentsEventSessionWebRequestOnBeforeRequest, obj.id),
        WebContentsEventSessionWebRequestOnBeforeRequestCallback, answer);
      err := r.err;
    }
  }

  /** The durable listener OnBeforeRequest registers. */
  function BeforeRequestListener(fn: Event -> (string, string, bool)): (l: Listener)
    ensures l.name == WebContentsEventSessionWebRequestOnBeforeRequestCallback
    ensures l.hook.InterceptBeforeRequest? && l.hook.fn == fn
  {
    Listener(WebContentsEventSessionWebRequestOnBeforeRequestCallback, InterceptBeforeRequest(fn))
  }

  /** The steps one OnBeforeRequest call makes on the window's object. */
  function OnBeforeRequestSteps(id: string, fn: Event -> (string, string, bool)): seq<Step>
  {
    [Register(BeforeRequestListener(fn)),
     Send(SyncCall(Envelope(WebContentsEventSessionWebRequestOnBeforeRequest, id),
                   WebContentsEventSessionWebRequestOnBeforeRequestCallback))]
  }

  /**
   * Registration comes before the lifetime check: on a cancelled window the
   * hook is still registered while nothing is sent; on a live one both happen,
   * and the awaited reply name is the name the hook listens on.
   */
  lemma OnBeforeRequestRegistersFirst(s: ObjState, id: string, fn: Event -> (string, string, bool))
    ensures var t := Run(s, id, OnBeforeRequestSteps(id, fn));
      t.listeners == s.listeners + [BeforeRequestListener(fn)]
      && t.cancelled == s.cancelled && t.writes == s.writes
      && (s.cancelled ==> t.calls == s.calls)
      && (!s.cancelled ==> |t.calls| == |s.calls| + 1
                           && t.calls[|s.calls|].replyName == BeforeRequestListener(fn).name
                           && t.calls[|s.calls|].command.targetID == id)
  {
    var steps := OnBeforeRequestSteps(id, fn);
    var s1 := Apply(s, id, steps[0]);
    var s2 := Apply(s1, id, steps[1]);
    assert steps[1..][0] == steps[1] && steps[1..][1..] == [];
    assert Run(s1, id, steps[1..]) == Run(s2, id, []);
    assert Run(s, id, steps) == s2;
  }

  /**
   * After OnBeforeRequest, every request the remote side delivers to the hook
   * under its callback name is answered by one write echoing its callback id,
   * as long as `fn` keeps the hook.
   */
  lemma {:induction false} EachRequestAnsweredOnce(s: ObjState, id: string, fn: Event -> (string, string, bool), es: seq<Event>)
    requires forall j :: 0 <= j < |es| ==> !fn(es[j]).2
    requires forall j :: 0 <= j < |es| ==> es[j].name == WebContentsEventSessionWebRequestOnBeforeRequestCallback
    ensures var t := Run(s, id, OnBeforeRequestSteps(id, fn));
      var u := Run(t, id, DeliverAll(|s.listeners|, es));
      |u.writes| == |s.writes| + |es|
      && (forall j :: 0 <= j < |es| ==> u.writes[|s.writes| + j].callbackID == es[j].callbackID)
      && u.listeners == t.listeners
  {
    OnBeforeRequestRegistersFirst(s, id, fn);
    var t := Run(s, id, OnBeforeRequestSteps(id, fn));
    DurableHookWrites(t, id, |s.listeners|, es);
    DurableHookEchoesCallbackIDs(t, id, |s.listeners|, es);
  }
}
