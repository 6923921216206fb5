/**
 * The addressable object every veneer type embeds: its id, its cancellable
 * lifetime, its listeners, and the two outbound channels the veneer uses
 * (the writer and the synchronous-call primitive). The code of the object,
 * the identifier, the writer and synchronousEvent is not part of this model:
 * the writer and synchronousEvent are modelled as logs of what they were
 * handed, and their outcome is an input supplied by the environment.
 */
module Objects {
  import opened Wrappers
  import opened Events

  /**
   * A supply of identifiers that never hands out the same string twice.
   * Only freshness is modelled; the strings themselves are stand-ins.
   */
  class Identifier {
    var count: nat
    ghost var issued: set<string>

    ghost predicate Valid()
      reads this
    {
      forall s :: s in issued ==> |s| <= count
    }

    /** newIdentifier(): a supply that has issued nothing. */
    constructor ()
      ensures Valid() && issued == {}
    {
      count := 0;
      issued := {};
    }

    /** new(): an id never issued before. */
    method New() returns (id: string)
      requires Valid()
      modifies this
      ensures Valid()
      ensures id != "" && id !in old(issued) && issued == old(issued) + {id}
    {
      count := count + 1;
      id := seq(count, _ => '#');
      issued := issued + {id};
    }
  }

  /** What a listener does when it fires. */
  datatype Hook =
    | CancelObject                                          // cancel the owning object's lifetime
    | InterceptBeforeRequest(fn: Event -> (string, string, bool))  // answer a web request via `fn`

  /** A listener entry: the event name it is registered on and its hook. */
  datatype Listener = Listener(name: string, hook: Hook)

  /** What was handed to synchronousEvent: the command and the reply name to await. */
  datatype SyncCall = SyncCall(command: Event, replyName: string)

  /** What synchronousEvent returns: the reply envelope (zero on failure) and its error. */
  datatype Answer = Answer(reply: Event, err: Option<Error>)

  /** The whole mutable state of an object, as one value. */
  datatype ObjState = ObjState(
    cancelled: bool,
    listeners: seq<Listener>,
    writes: seq<Event>,
    calls: seq<SyncCall>)

  /** The state of a freshly created object. */
  const Initial: ObjState := ObjState(false, [], [], [])

  /** The reply a durable before-request hook writes for one inbound request. */
  function InterceptReply(callbackID: string, targetID: string, mimeType: string, data: string): (e: Event)
    ensures e.callbackID == callbackID && e.targetID == targetID
    ensures e.mimeType == mimeType && e.data == data
    ensures e.name == WebContentsEventInterceptStringProtocolCallback
  {
    Envelope(WebContentsEventInterceptStringProtocolCallback, targetID)
      .(callbackID := callbackID, mimeType := mimeType, data := data)
  }

  /** Window event names; they are declared in a file outside this model, so their values are left open. */
  const WebContentsEventSessionWebRequestOnBeforeRequest: string
  const WebContentsEventSessionWebRequestOnBeforeRequestCallback: string
  const WebContentsEventInterceptStringProtocolCallback: string

  /** `s` without its k-th element. */
  function RemoveAt<T>(s: seq<T>, k: nat): (r: seq<T>)
    requires k < |s|
    ensures |r| == |s| - 1
    ensures forall j :: 0 <= j < k ==> r[j] == s[j]
    ensures forall j :: k <= j < |r| ==> r[j] == s[j + 1]
  {
    s[..k] + s[k + 1..]
  }

  /**
   * The one pattern every veneer command follows: when the lifetime has ended
   * nothing reaches synchronousEvent; otherwise exactly the given call does.
   */
  function Command(s: ObjState, c: SyncCall): (r: ObjState)
    ensures r.cancelled == s.cancelled && r.listeners == s.listeners && r.writes == s.writes
    ensures s.cancelled ==> r.calls == s.calls
    ensures !s.cancelled ==> r.calls == s.calls + [c]
  {
    if s.cancelled then s else s.(calls := s.calls + [c])
  }

  /** What ctx.Err() reports for a state. */
  function LifetimeErr(s: ObjState): (err: Option<Error>)
    ensures err.Some? <==> s.cancelled
    ensures err.Some? ==> err.value == Canceled
  {
    if s.cancelled then Some(Canceled) else None
  }

  /**
   * Firing listener k of an object with id `id` on inbound event `e`: the
   * hook's effect, then removal of the entry exactly when the hook returns true.
   */
  function Fire(s: ObjState, id: string, k: nat, e: Event): (r: ObjState)
    requires k < |s.listeners|
    ensures r.calls == s.calls
    ensures r.cancelled == (s.cancelled || s.listeners[k].hook.CancelObject?)
    ensures |r.writes| == |s.writes| + (if s.listeners[k].hook.CancelObject? then 0 else 1)
    ensures s.writes <= r.writes
  {
    match s.listeners[k].hook
    case CancelObject =>
      s.(cancelled := true, listeners := RemoveAt(s.listeners, k))
    case InterceptBeforeRequest(fn) =>
      var (mimeType, data, deleteListener) := fn(e);
      s.(writes := s.writes + [InterceptReply(e.callbackID, id, mimeType, data)],
         listeners := if deleteListener then RemoveAt(s.listeners, k) else s.listeners)
  }

  /** The things that can happen to an object. */
  datatype Step =
    | Send(call: SyncCall)          // a veneer command: guarded hand-off to synchronousEvent
    | Register(listener: Listener)  // On(name, hook)
    | Deliver(index: nat, event: Event)  // the dispatcher fires listener `index` if it is registered on the event's name

  /** Whether step `Deliver(k, e)` reaches a listener: index k exists and is registered on `e.name`. */
  predicate Routes(s: ObjState, k: nat, e: Event)
  {
    k < |s.listeners| && s.listeners[k].name == e.name
  }

  /**
   * One step. A delivery that names a missing index, or a listener registered
   * on another event name, reaches nothing and changes nothing.
   */
  function Apply(s: ObjState, id: string, step: Step): ObjState
  {
    match step
    case Send(c) => Command(s, c)
    case Register(l) => s.(listeners := s.listeners + [l])
    case Deliver(k, e) => if Routes(s, k, e) then Fire(s, id, k, e) else s
  }

  function Run(s: ObjState, id: string, steps: seq<Step>): ObjState
    decreases |steps|
  {
    if steps == [] then s else Run(Apply(s, id, steps[0]), id, steps[1..])
  }

  /**
   * Cancellation is final: once the lifetime has ended it stays ended, and no
   * later step, whatever it is, hands anything more to synchronousEvent.
   */
  lemma {:induction false} CancelledIsFinal(s: ObjState, id: string, steps: seq<Step>)
    requires s.cancelled
    ensures Run(s, id, steps).cancelled
    ensures Run(s, id, steps).calls == s.calls
    decreases |steps|
  {
    if steps != [] {
      CancelledIsFinal(Apply(s, id, steps[0]), id, steps[1..]);
    }
  }

  /** Firing a hook leaves the listener list as it was or removes exactly the fired entry. */
  lemma FireRemovesOnlyItself(s: ObjState, id: string, k: nat, e: Event)
    requires k < |s.listeners|
    ensures var t := Fire(s, id, k, e);
      t.listeners == s.listeners || t.listeners == RemoveAt(s.listeners, k)
    ensures s.listeners[k].hook.CancelObject? ==> Fire(s, id, k, e).listeners == RemoveAt(s.listeners, k)
  {
  }

  /**
   * One firing of a before-request hook calls `fn` once and attempts exactly
   * one write carrying the inbound callback id; the hook stays registered
   * exactly when `fn`'s third result is false.
   */
  lemma FireInterceptWritesOnce(s: ObjState, id: string, k: nat, e: Event)
    requires k < |s.listeners| && s.listeners[k].hook.InterceptBeforeRequest?
    ensures var fn := s.listeners[k].hook.fn;
      var t := Fire(s, id, k, e);
      t.writes == s.writes + [InterceptReply(e.callbackID, id, fn(e).0, fn(e).1)]
      && (t.listeners == s.listeners <==> !fn(e).2)
      && t.cancelled == s.cancelled && t.calls == s.calls
  {
    var t := Fire(s, id, k, e);
    if s.listeners[k].hook.fn(e).2 {
      assert |t.listeners| != |s.listeners|;
    }
  }

  /** The replies a durable hook writes for a series of inbound requests. */
  function Replies(id: string, fn: Event -> (string, string, bool), es: seq<Event>): (r: seq<Event>)
    ensures |r| == |es|
  {
    if es == [] then [] else [InterceptReply(es[0].callbackID, id, fn(es[0]).0, fn(es[0]).1)] + Replies(id, fn, es[1..])
  }

  /** The j-th reply answers the j-th request, echoing its callback id. */
  lemma {:induction false} RepliesAt(id: string, fn: Event -> (string, string, bool), es: seq<Event>, j: nat)
    requires j < |es|
    ensures Replies(id, fn, es)[j] == InterceptReply(es[j].callbackID, id, fn(es[j]).0, fn(es[j]).1)
    decreases |es|
  {
    if j > 0 {
      RepliesAt(id, fn, es[1..], j - 1);
    }
  }

  /** Delivering each of `es`, in order, to listener k. */
  function DeliverAll(k: nat, es: seq<Event>): (steps: seq<Step>)
    ensures |steps| == |es|
    ensures forall j :: 0 <= j < |es| ==> steps[j] == Deliver(k, es[j])
  {
    if es == [] then [] else [Deliver(k, es[0])] + DeliverAll(k, es[1..])
  }

  /** One firing of a before-request hook that keeps itself registered: exactly one more write. */
  lemma FireKeepingHook(s: ObjState, id: string, k: nat, e: Event)
    requires k < |s.listeners| && s.listeners[k].hook.InterceptBeforeRequest?
    requires !s.listeners[k].hook.fn(e).2
    ensures Fire(s, id, k, e) == s.(writes := s.writes + [
      InterceptReply(e.callbackID, id, s.listeners[k].hook.fn(e).0, s.listeners[k].hook.fn(e).1)])
  {
  }

  /** Delivering a series to listener k starts with firing it on the first event. */
  lemma RunDeliverAllFirst(s: ObjState, id: string, k: nat, es: seq<Event>)
    requires es != [] && Routes(s, k, es[0])
    ensures Run(s, id, DeliverAll(k, es)) == Run(Fire(s, id, k, es[0]), id, DeliverAll(k, es[1..]))
  {
    var steps := DeliverAll(k, es);
    assert steps[0] == Deliver(k, es[0]) && steps[1..] == DeliverAll(k, es[1..]);
  }

  /**
   * A durable before-request hook whose function keeps it registered answers
   * every firing with exactly one write, in order; the hook stays in place
   * and nothing else changes.
   */
  lemma {:induction false} DurableHookWrites(s: ObjState, id: string, k: nat, es: seq<Event>)
    requires k < |s.listeners| && s.listeners[k].hook.InterceptBeforeRequest?
    requires forall j :: 0 <= j < |es| ==> !s.listeners[k].hook.fn(es[j]).2
    requires forall j :: 0 <= j < |es| ==> es[j].name == s.listeners[k].name
    ensures Run(s, id, DeliverAll(k, es)) == s.(writes := s.writes + Replies(id, s.listeners[k].hook.fn, es))
    decreases |es|
  {
    var fn := s.listeners[k].hook.fn;
    if es == [] {
      assert s.writes + Replies(id, fn, es) == s.writes;
    } else {
      var r0 := InterceptReply(es[0].callbackID, id, fn(es[0]).0, fn(es[0]).1);
      FireKeepingHook(s, id, k, es[0]);
      var s' := s.(writes := s.writes + [r0]);
      RunDeliverAllFirst(s, id, k, es);
      assert s'.listeners == s.listeners;
      assert forall j :: 0 <= j < |es[1..]| ==> !fn(es[1..][j]).2 && es[1..][j].name == s.listeners[k].name by {
        forall j | 0 <= j < |es[1..]| ensures !fn(es[1..][j]).2 && es[1..][j].name == s.listeners[k].name {
          assert es[1..][j] == es[j + 1];
        }
      }
      DurableHookWrites(s', id, k, es[1..]);
      assert Replies(id, fn, es) == [r0] + Replies(id, fn, es[1..]);
      assert s'.writes + Replies(id, fn, es[1..]) == s.writes + Replies(id, fn, es);
    }
  }

  /** In particular, the reply to the j-th request carries that request's callback id. */
  lemma DurableHookEchoesCallbackIDs(s: ObjState, id: string, k: nat, es: seq<Event>)
    requires k < |s.listeners| && s.listeners[k].hook.InterceptBeforeRequest?
    requires forall j :: 0 <= j < |es| ==> !s.listeners[k].hook.fn(es[j]).2
    requires forall j :: 0 <= j < |es| ==> es[j].name == s.listeners[k].name
    ensures var w := Run(s, id, DeliverAll(k, es)).writes;
      |w| == |s.writes| + |es| &&
      forall j :: 0 <= j < |es| ==> w[|s.writes| + j].callbackID == es[j].callbackID
  {
    DurableHookWrites(s, id, k, es);
    forall j | 0 <= j < |es|
      ensures Run(s, id, DeliverAll(k, es)).writes[|s.writes| + j].callbackID == es[j].callbackID
    {
      RepliesAt(id, s.listeners[k].hook.fn, es, j);
    }
  }

  /**
   * The object: id, lifetime, listener registry and the outbound logs.
   * Veneer types hold a reference to one, as Go embeds `*object`.
   */
  class Obj {
    const id: string
    var cancelled: bool
    var listeners: seq<Listener>
    var writes: seq<Event>
    var calls: seq<SyncCall>

    function State(): ObjState
      reads this
    {
      ObjState(cancelled, listeners, writes, calls)
    }

    /** newObject with a freshly allocated id: a live lifetime, no listeners, nothing sent. */
    constructor (id: string)
      ensures this.id == id && State() == Initial
    {
      this.id := id;
      cancelled := false;
      listeners := [];
      writes := [];
      calls := [];
    }

    /** ctx.Err(): Canceled once the lifetime has ended, nil before. */
    function Err(): (err: Option<Error>)
      reads this
      ensures err.Some? <==> cancelled
      ensures err.Some? ==> err.value == Canceled
    {
      LifetimeErr(State())
    }

    /** cancel(): ends the lifetime. */
    method Cancel()
      modifies this
      ensures State() == old(State()).(cancelled := true)
    {
      cancelled := true;
    }

    /** On(name, hook): appends a listener. */
    method On(name: string, hook: Hook)
      modifies this
      ensures State() == Apply(old(State()), id, Register(Listener(name, hook)))
    {
      listeners := listeners + [Listener(name, hook)];
    }

    /** w.write(e): records the write; `failure` is what the transport reports. */
    method Write(e: Event, failure: Option<Error>) returns (err: Option<Error>)
      modifies this
      ensures State() == old(State()).(writes := old(writes) + [e])
      ensures err == failure
    {
      writes := writes + [e];
      err := failure;
    }

    /** synchronousEvent(ctx, o, w, cmd, replyName): records the hand-off; `answer` is its outcome. */
    method SynchronousEvent(cmd: Event, replyName: string, answer: Answer) returns (r: Answer)
      modifies this
      ensures State() == old(State()).(calls := old(calls) + [SyncCall(cmd, replyName)])
      ensures r == answer
    {
      calls := calls + [SyncCall(cmd, replyName)];
      r := answer;
    }

    /**
     * The dispatcher fires listener k on `e`: the hook runs, then the entry
     * is removed exactly when the hook returned true. `writeFailure` is what
     * the transport reports for a write the hook attempts.
     */
    method FireListener(k: nat, e: Event, writeFailure: Option<Error>) returns (deleteListener: bool)
      requires k < |listeners|
      modifies this
      ensures State() == Fire(old(State()), id, k, e)
      ensures deleteListener == match old(listeners[k].hook)
                                case CancelObject => true
                                case InterceptBeforeRequest(fn) => fn(e).2
    {
      var entry := listeners[k];
      match entry.hook {
        case CancelObject =>
          Cancel();
          deleteListener := true;
        case InterceptBeforeRequest(fn) =>
          var (mimeType, data, delete) := fn(e);
          deleteListener := delete;
          var err := Write(InterceptReply(e.callbackID, id, mimeType, data), writeFailure);
          // a failed write is only logged; the removal signal stays fn's
      }
      if deleteListener {
        listeners := RemoveAt(listeners, k);
      }
    }
  }
}
