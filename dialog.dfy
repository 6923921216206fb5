/** Dialogs (dialog.go): a veneer object whose commands become envelopes. */
module Dialogs {
  import opened Wrappers
  import opened Events
  import opened Objects

  const DialogEventDestroyed: string := "dialog.event.destroyed"
  const DialogEventCreated: string := "dialog.event.created"
  const DialogCmdCreate: string := "dialog.cmd.create"
  const DialogCmdDestroy: string := "dialog.cmd.destroy"
  const DialogCmdShowOpenDialog: string := "dialog.cmd.show.open.dialog"
  const DialogEventShowOpenDialog: string := "dialog.event.show.open.dialog"

  /** The listener newDialog registers: on "destroyed", cancel the dialog and drop the listener. */
  const DestroyedListener: Listener := Listener(DialogEventDestroyed, CancelObject)

  class Dialog {
    const obj: Obj
    const o: Option<DialogOptions>

    /**
     * newDialog: an object under a freshly allocated id, whose only listener
     * cancels it when the destroyed event arrives.
     */
    constructor (o: Option<DialogOptions>, i: Identifier)
      requires i.Valid()
      modifies i
      ensures i.Valid() && obj.id !in old(i.issued) && i.issued == old(i.issued) + {obj.id}
      ensures obj.id != "" && fresh(obj) && this.o == o
      ensures obj.State() == Initial.(listeners := [DestroyedListener])
    {
      var id := i.New();
      var base := new Obj(id);
      this.o := o;
      this.obj := base;
      new;
      obj.On(DialogEventDestroyed, CancelObject);
    }

    /** Create: fails fast once cancelled; otherwise sends the create command and awaits "created". */
    method Create(answer: Answer) returns (err: Option<Error>)
      modifies obj
      ensures obj.State() == Command(old(obj.State()),
        SyncCall(Envelope(DialogCmdCreate, obj.id).(dialogOptions := o), DialogEventCreated))
      ensures err == if old(obj.cancelled) then Some(Canceled) else answer.err
    {
      err := obj.Err();
      if err.Some? {
        return;
      }
      var e := Envelope(DialogCmdCreate, obj.id).(dialogOptions := o);
      var r := obj.SynchronousEvent(e, DialogEventCreated, answer);
      err := r.err;
    }

    /** Destroy: fails fast once cancelled; otherwise sends the destroy command and awaits "destroyed". */
    method Destroy(answer: Answer) returns (err: Option<Error>)
      modifies obj
      ensures obj.State() == Command(old(obj.State()),
        SyncCall(Envelope(DialogCmdDestroy, obj.id), DialogEventDestroyed))
      ensures err == if old(obj.cancelled) then Some(Canceled) else answer.err
    {
      err := obj.Err();
      if err.Some? {
        return;
      }
      var r := obj.SynchronousEvent(Envelope(DialogCmdDestroy, obj.id), DialogEventDestroyed, answer);
      err := r.err;
    }

    /** ShowOpenDialog: fails fast with a zero event once cancelled; otherwise returns the reply. */
    method ShowOpenDialog(options: Option<ShowOpenDialogOptions>, answer: Answer) returns (e: Event, err: Option<Error>)
      modifies obj
      ensures obj.State() == Command(old(obj.State()),
        SyncCall(Envelope(DialogCmdShowOpenDialog, obj.id).(showOpenDialogOptions := options),
                 DialogEventShowOpenDialog))
      ensures old(obj.cancelled) ==> e == ZeroEvent && err == Some(Canceled)
      ensures !old(obj.cancelled) ==> e == answer.reply && err == answer.err
    {
      e := ZeroEvent;
      err := obj.Err();
      if err.Some? {
        return;
      }
      var r := obj.SynchronousEvent(
        Envelope(DialogCmdShowOpenDialog, obj.id).(showOpenDialogOptions := options),
        DialogEventShowOpenDialog, answer);
      e, err := r.reply, r.err;
    }
  }

  /** The steps of a dialog's own commands, as they reach its object. */
  function CreateStep(id: string, o: Option<DialogOptions>): Step
  {
    Send(SyncCall(Envelope(DialogCmdCreate, id).(dialogOptions := o), DialogEventCreated))
  }

  /**
   * Once the destroyed listener has fired, the dialog's lifetime is over, the
   * listener is gone, and whatever happens afterwards (Create, Destroy,
   * ShowOpenDialog, deliveries) nothing more reaches synchronousEvent.
   */
  lemma {:induction false} DestroyedDialogIsFinal(s: ObjState, id: string, k: nat, e: Event, later: seq<Step>)
    requires k < |s.listeners| && s.listeners[k] == DestroyedListener
    ensures var t := Fire(s, id, k, e);
      t.cancelled && t.listeners == RemoveAt(s.listeners, k)
      && Run(t, id, later).cancelled && Run(t, id, later).calls == s.calls
  {
    CancelledIsFinal(Fire(s, id, k, e), id, later);
  }

  /**
   * From creation on, a dialog's first delivered "destroyed" event ends it: the
   * dialog that receives it and is then asked to Create sends nothing.
   */
  lemma DestroyedThenCreateSendsNothing(id: string, o: Option<DialogOptions>, e: Event)
    requires e.name == DialogEventDestroyed
    ensures var s := Initial.(listeners := [DestroyedListener]);
      Run(s, id, [Deliver(0, e), CreateStep(id, o)]).calls == []
      && Run(s, id, [CreateStep(id, o)]).calls == [CreateStep(id, o).call]
  {
    var s := Initial.(listeners := [DestroyedListener]);
    DestroyedDialogIsFinal(s, id, 0, e, [CreateStep(id, o)]);
    assert [Deliver(0, e), CreateStep(id, o)][1..] == [CreateStep(id, o)];
  }

  /**
   * An inbound event under any other name does not reach the destroyed
   * listener: the dialog stays live, keeps its listener, and Create still sends.
   */
  lemma OtherEventKeepsDialogLive(id: string, o: Option<DialogOptions>, e: Event)
    requires e.name != DialogEventDestroyed
    ensures var s := Initial.(listeners := [DestroyedListener]);
      var t := Run(s, id, [Deliver(0, e), CreateStep(id, o)]);
      !t.cancelled && t.listeners == [DestroyedListener] && t.calls == [CreateStep(id, o).call]
  {
    var s := Initial.(listeners := [DestroyedListener]);
    var steps := [Deliver(0, e), CreateStep(id, o)];
    assert Apply(s, id, steps[0]) == s;
    var s2 := Apply(s, id, steps[1]);
    assert steps[1..][0] == steps[1] && steps[1..][1..] == [];
    assert Run(s, id, steps[1..]) == Run(s2, id, []);
  }
}
