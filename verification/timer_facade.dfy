/**
 * The timer synchronisation facade (src/app/core/services/timer.facade.ts).
 *
 * It owns the timer store, the push-channel client and the notifier, and
 * turns three sources into store publications: the initial status fetch,
 * snapshots pushed over the socket, and the replies to user commands. Each
 * HTTP request is represented by its outcome, handed to the method that
 * handles it, so every method is one deterministic state transition.
 */
module TimerSync {
  import opened Wrappers
  import opened Models
  import opened TimerStore
  import opened Sockets
  import opened Toasts

  /** The five commands the facade issues. */
  datatype Command = Start | Stop | Toggle | Reset | SetType(sessionType: SessionType)

  /** The operation as the error toast names it. */
  function Operation(c: Command): string {
    match c
    case Start => "start timer."
    case Stop => "stop timer."
    case Toggle => "toggle timer."
    case Reset => "reset timer."
    case SetType(_) => "change session type."
  }

  /** The toast shown when a command's request fails, e.g. "Failed to toggle timer. Please try again." */
  function FailureMessage(c: Command): (message: string)
    ensures |message| > 28 && message[..10] == "Failed to " && message[|message| - 18..] == " Please try again."
  {
    "Failed to " + Operation(c) + " Please try again."
  }

  /** The toggle failure's text, as the source spells it. */
  lemma ToggleFailureText()
    ensures FailureMessage(Command.Toggle) == "Failed to toggle timer. Please try again."
  {
  }

  /** The message names the operation: different operations get different messages. */
  lemma FailureMessageNamesOperation(a: Command, b: Command)
    ensures FailureMessage(a) == FailureMessage(b) <==> a == b || (a.SetType? && b.SetType?)
  {
    if !(a == b || (a.SetType? && b.SetType?)) {
      var x, y := Operation(a), Operation(b);
      assert x != y by {
        assert |x| != |y| || x[0] != y[0];
      }
      assert FailureMessage(a)[10..|FailureMessage(a)| - 18] == x;
      assert FailureMessage(b)[10..|FailureMessage(b)| - 18] == y;
    }
  }

  /**
   * What a command reply does to the store: a non-null reply's state replaces
   * the snapshot (its `success` flag is not consulted); a null body, an error
   * or anything else leaves the store alone.
   */
  function CommandEffect(outcome: HttpOutcome<Option<TimerResponse>>): (published: seq<TimerState>)
    ensures |published| <= 1
    ensures published != [] <==> outcome.Ok? && outcome.body.Some?
  {
    if outcome.Ok? && outcome.body.Some? then [outcome.body.value.state] else []
  }

  /** TimerFacade. */
  class TimerFacade {
    const store: TimerStateService
    const ws: WebSocketService
    const toasts: ToastService

    ghost predicate Valid()
      reads this, store, ws, toasts
    {
      store.Valid() && ws.Valid() && toasts.Valid()
    }

    /**
     * Construction: the store starts at INITIAL_STATE, the status fetch is
     * issued (its reply arrives later through `StatusLoaded`), and the socket
     * is opened with the facade subscribed to its messages.
     */
    constructor ()
      ensures Valid()
      ensures fresh(store) && fresh(ws) && fresh(toasts)
      ensures store.published == [InitialState]
      ensures ws.socket == Some(0) && !ws.destroyed
      ensures toasts.toasts == [] && toasts.idCounter == 0 && toasts.expiries == []
      ensures ws.pendingReconnects == 0 && ws.messages == []
      ensures ws.socketsCreated == 1 && ws.live == {0} && ws.closing == {}
    {
      store := new TimerStateService();
      toasts := new ToastService();
      ws := new WebSocketService();
      new;
      var _ := ws.Connect();
    }

    /**
     * The initial status fetch resolves: success publishes the fetched state;
     * failure is only logged (no publication, no toast).
     */
    method StatusLoaded(outcome: HttpOutcome<TimerState>)
      requires Valid()
      modifies store
      ensures Valid()
      ensures store.published == old(store.published) + (if outcome.Ok? then [outcome.body] else [])
      ensures store.current == if outcome.Ok? then outcome.body else old(store.current)
    {
      if outcome.Ok? {
        store.SetState(outcome.body);
      }
    }

    /**
     * A frame arrives on socket `sid`. If it parses and the facade's
     * subscription is still live (it ends when destroy$ is signalled), the
     * snapshot is published to the store, in arrival order.
     */
    method FrameReceived(sid: nat, frame: Option<TimerState>)
      requires Valid()
      requires sid in ws.live && sid !in ws.closing
      modifies store, ws`messages
      ensures Valid()
      ensures ws.messages == old(ws.messages) + (if frame.Some? then [frame.value] else [])
      ensures store.published == old(store.published) + (if frame.Some? && !ws.destroyed then [frame.value] else [])
    {
      var emitted := ws.OnMessage(sid, frame);
      if emitted.Some? && !ws.destroyed {
        store.SetState(emitted.value);
      }
    }

    /**
     * Issue `c` and handle its reply: a non-null reply publishes its state;
     * a failed request raises one error toast naming the operation.
     */
    method Execute(c: Command, outcome: HttpOutcome<Option<TimerResponse>>)
      requires Valid()
      modifies store, toasts
      ensures Valid()
      ensures store.published == old(store.published) + CommandEffect(outcome)
      ensures outcome.Err? ==> toasts.toasts == old(toasts.toasts) + [Toast(FailureMessage(c), Error, old(toasts.idCounter))]
      ensures outcome.Ok? ==> toasts.toasts == old(toasts.toasts)
      ensures toasts.idCounter == old(toasts.idCounter) + (if outcome.Err? then 1 else 0)
      ensures toasts.expiries == old(toasts.expiries) + (if outcome.Err? then [old(toasts.idCounter)] else [])
    {
      match outcome
      case Ok(body) =>
        if body.Some? {
          store.SetState(body.value.state);
        }
      case Err =>
        toasts.ShowError(FailureMessage(c));
    }

    /** start(). */
    method Start(outcome: HttpOutcome<Option<TimerResponse>>)
      requires Valid()
      modifies store, toasts
      ensures Valid()
      ensures store.published == old(store.published) + CommandEffect(outcome)
      ensures outcome.Err? ==> toasts.toasts == old(toasts.toasts) + [Toast(FailureMessage(Command.Start), Error, old(toasts.idCounter))]
      ensures outcome.Ok? ==> toasts.toasts == old(toasts.toasts)
      ensures toasts.idCounter == old(toasts.idCounter) + (if outcome.Err? then 1 else 0)
      ensures toasts.expiries == old(toasts.expiries) + (if outcome.Err? then [old(toasts.idCounter)] else [])
    {
      Execute(Command.Start, outcome);
    }

    /** stop(). */
    method Stop(outcome: HttpOutcome<Option<TimerResponse>>)
      requires Valid()
      modifies store, toasts
      ensures Valid()
      ensures store.published == old(store.published) + CommandEffect(outcome)
      ensures outcome.Err? ==> toasts.toasts == old(toasts.toasts) + [Toast(FailureMessage(Command.Stop), Error, old(toasts.idCounter))]
      ensures outcome.Ok? ==> toasts.toasts == old(toasts.toasts)
      ensures toasts.idCounter == old(toasts.idCounter) + (if outcome.Err? then 1 else 0)
      ensures toasts.expiries == old(toasts.expiries) + (if outcome.Err? then [old(toasts.idCounter)] else [])
    {
      Execute(Command.Stop, outcome);
    }

    /** toggle(). */
    method Toggle(outcome: HttpOutcome<Option<TimerResponse>>)
      requires Valid()
      modifies store, toasts
      ensures Valid()
      ensures store.published == old(store.published) + CommandEffect(outcome)
      ensures outcome.Err? ==> toasts.toasts == old(toasts.toasts) + [Toast(FailureMessage(Command.Toggle), Error, old(toasts.idCounter))]
      ensures outcome.Ok? ==> toasts.toasts == old(toasts.toasts)
      ensures toasts.idCounter == old(toasts.idCounter) + (if outcome.Err? then 1 else 0)
      ensures toasts.expiries == old(toasts.expiries) + (if outcome.Err? then [old(toasts.idCounter)] else [])
    {
      Execute(Command.Toggle, outcome);
    }

    /** reset(). */
    method Reset(outcome: HttpOutcome<Option<TimerResponse>>)
      requires Valid()
      modifies store, toasts
      ensures Valid()
      ensures store.published == old(store.published) + CommandEffect(outcome)
      ensures outcome.Err? ==> toasts.toasts == old(toasts.toasts) + [Toast(FailureMessage(Command.Reset), Error, old(toasts.idCounter))]
      ensures outcome.Ok? ==> toasts.toasts == old(toasts.toasts)
      ensures toasts.idCounter == old(toasts.idCounter) + (if outcome.Err? then 1 else 0)
      ensures toasts.expiries == old(toasts.expiries) + (if outcome.Err? then [old(toasts.idCounter)] else [])
    {
      Execute(Command.Reset, outcome);
    }

    /** setType(type). */
    method SetType(t: SessionType, outcome: HttpOutcome<Option<TimerResponse>>)
      requires Valid()
      modifies store, toasts
      ensures Valid()
      ensures store.published == old(store.published) + CommandEffect(outcome)
      ensures outcome.Err? ==> toasts.toasts == old(toasts.toasts) + [Toast(FailureMessage(Command.SetType(t)), Error, old(toasts.idCounter))]
      ensures outcome.Ok? ==> toasts.toasts == old(toasts.toasts)
      ensures toasts.idCounter == old(toasts.idCounter) + (if outcome.Err? then 1 else 0)
      ensures toasts.expiries == old(toasts.expiries) + (if outcome.Err? then [old(toasts.idCounter)] else [])
    {
      Execute(Command.SetType(t), outcome);
    }

    /** ngOnDestroy: disconnect the push channel. */
    method NgOnDestroy()
      requires Valid()
      modifies ws
      ensures Valid()
      ensures ws.destroyed && ws.socket.None?
      ensures ws.closing == old(ws.closing) + SlotSet(old(ws.socket))
      ensures ws.live == old(ws.live) && ws.socketsCreated == old(ws.socketsCreated) && ws.messages == old(ws.messages)
      ensures ws.pendingReconnects == if old(ws.destroyed) then old(ws.pendingReconnects) else 0
      ensures !old(ws.destroyed) ==> ws.TornDown()
    {
      ws.Disconnect();
    }

    /** currentState: the store's current snapshot. */
    function CurrentState(): (s: TimerState)
      reads this, store
      requires store.Valid()
      ensures s == store.GetCurrentState()
    {
      store.GetCurrentState()
    }

    function IsRunning(): (b: bool)
      reads this, store
      requires store.Valid()
      ensures b == store.GetCurrentState().isRunning
    {
      store.IsRunning()
    }

    function TimeRemaining(): (t: int)
      reads this, store
      requires store.Valid()
      ensures t == store.GetCurrentState().timeRemaining
    {
      store.TimeRemaining()
    }

    function SessionType(): (t: Models.SessionType)
      reads this, store
      requires store.Valid()
      ensures t == store.GetCurrentState().sessionType
    {
      store.SessionType()
    }
  }

  /**
   * The end-to-end scenario: the status fetch returns the idle state, then the
   * socket pushes a running snapshot; the store ends on the pushed snapshot
   * and nobody is notified.
   */
  method BootstrapThenPush(pushed: TimerState) returns (last: TimerState, notified: nat)
    ensures last == pushed && notified == 0
  {
    var facade := new TimerFacade();
    facade.StatusLoaded(Ok(InitialState));
    facade.FrameReceived(0, Some(pushed));
    last := facade.CurrentState();
    notified := |facade.toasts.toasts|;
  }

  /** A failed toggle: no publication and exactly one toggle-specific error toast. */
  method ToggleFails() returns (publications: nat, shown: seq<Toast>)
    ensures publications == 0
    ensures shown == [Toast(FailureMessage(Command.Toggle), Error, 0)]
  {
    var facade := new TimerFacade();
    var before := |facade.store.published|;
    facade.Toggle(Err);
    publications := |facade.store.published| - before;
    shown := facade.toasts.toasts;
  }
}
