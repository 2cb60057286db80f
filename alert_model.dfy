/**
 * The notification store of the application, as values.
 *
 * The store is one record shared by a toast (an auto-hiding message) and two
 * modal dialogs (confirm and prompt). Each action of the store overwrites some
 * of the record's fields; the functions below say which ones. The callbacks a
 * dialog keeps are seen only through their identity (an `ActionId`), and every
 * time the store calls one it is recorded as an `Invocation`.
 *
 * The toast's `setTimeout` is modelled by the event loop's count of hide
 * callbacks still scheduled (`World.pendingHides`) and the event `HideTimer`
 * that fires one of them. Durations are not modelled, only the order of events.
 */
module AlertModel {
  import opened Wrappers

  /** The four severities a toast can have. */
  datatype AlertType = Success | Error | Warning | Info

  /** The identity of a callback handed to `confirm` or `prompt`. */
  type ActionId = nat

  /** One call the store makes into a stored callback. */
  datatype Invocation =
    | RanConfirm(action: ActionId)
    | RanPrompt(callback: ActionId, value: string)

  /** The store's record, field for field. */
  datatype AlertState = AlertState(
    show: bool,
    kind: AlertType,
    title: string,
    message: string,
    confirmAction: Option<ActionId>,
    showConfirm: bool,
    showPrompt: bool,
    promptValue: string,
    onPromptConfirm: Option<ActionId>)

  /** The new record after an action, and the callbacks the action called, in order. */
  datatype Transition = Transition(next: AlertState, calls: seq<Invocation>)

  /** The toast-only fields `show` and `kind` agree. */
  predicate SameToast(a: AlertState, b: AlertState) {
    a.show == b.show && a.kind == b.kind
  }

  /** The confirm-only fields agree. */
  predicate SameConfirm(a: AlertState, b: AlertState) {
    a.confirmAction == b.confirmAction && a.showConfirm == b.showConfirm
  }

  /** The prompt-only fields agree. */
  predicate SamePrompt(a: AlertState, b: AlertState) {
    a.showPrompt == b.showPrompt && a.promptValue == b.promptValue && a.onPromptConfirm == b.onPromptConfirm
  }

  /** The record a fresh store starts with. */
  function Initial(): (s: AlertState)
    ensures !s.show && s.kind == Success
    ensures s.title == "" && s.message == "" && s.promptValue == ""
    ensures s.confirmAction == None && s.onPromptConfirm == None
    ensures !s.showConfirm && !s.showPrompt
  {
    AlertState(false, Success, "", "", None, false, false, "", None)
  }

  /** `toast(message, type)`; an omitted type (`None`) means `Success`. */
  function Toast(s: AlertState, message: string, t: Option<AlertType>): (r: AlertState)
    ensures r.show && r.message == message
    ensures t.Some? ==> r.kind == t.value
    ensures t.None? ==> r.kind == Success
    ensures r.title == s.title && SameConfirm(r, s) && SamePrompt(r, s)
  {
    s.(kind := t.GetOr(Success), message := message, show := true)
  }

  /** The callback that a `toast` schedules: it hides whatever toast is showing. */
  function HideToast(s: AlertState): (r: AlertState)
    ensures !r.show
    ensures r.kind == s.kind && r.title == s.title && r.message == s.message
    ensures SameConfirm(r, s) && SamePrompt(r, s)
  {
    s.(show := false)
  }

  /** `confirm({title, message, onConfirm})`: opens the dialog, dropping any earlier action uncalled. */
  function Confirm(s: AlertState, title: string, message: string, onConfirm: ActionId): (r: AlertState)
    ensures r.title == title && r.message == message
    ensures r.confirmAction == Some(onConfirm) && r.showConfirm
    ensures SameToast(r, s) && SamePrompt(r, s)
  {
    s.(title := title, message := message, confirmAction := Some(onConfirm), showConfirm := true)
  }

  /** `executeConfirm()`: calls the stored action if there is one, then closes and forgets it. */
  function ExecuteConfirm(s: AlertState): (t: Transition)
    ensures s.confirmAction.Some? ==> t.calls == [RanConfirm(s.confirmAction.value)]
    ensures s.confirmAction.None? ==> t.calls == []
    ensures !t.next.showConfirm && t.next.confirmAction == None
    ensures SameToast(t.next, s) && SamePrompt(t.next, s)
    ensures t.next.title == s.title && t.next.message == s.message
  {
    var calls := if s.confirmAction.Some? then [RanConfirm(s.confirmAction.value)] else [];
    Transition(s.(showConfirm := false, confirmAction := None), calls)
  }

  /** `prompt(title, defaultValue, onConfirm)`; an omitted default (`None`) means the empty string. */
  function Prompt(s: AlertState, title: string, defaultValue: Option<string>, onConfirm: ActionId): (r: AlertState)
    ensures r.title == title && r.onPromptConfirm == Some(onConfirm) && r.showPrompt
    ensures defaultValue.Some? ==> r.promptValue == defaultValue.value
    ensures defaultValue.None? ==> r.promptValue == ""
    ensures SameToast(r, s) && SameConfirm(r, s) && r.message == s.message
  {
    s.(title := title, promptValue := defaultValue.GetOr(""), onPromptConfirm := Some(onConfirm), showPrompt := true)
  }

  /** The prompt's input field writes the draft value into the store's `promptValue`. */
  function EditPromptValue(s: AlertState, value: string): (r: AlertState)
    ensures r.promptValue == value
    ensures r.showPrompt == s.showPrompt && r.onPromptConfirm == s.onPromptConfirm
    ensures SameToast(r, s) && SameConfirm(r, s) && r.title == s.title && r.message == s.message
  {
    s.(promptValue := value)
  }

  /** `executePrompt()`: calls the stored callback with the current draft and closes the
      dialog, but keeps the callback. */
  function ExecutePrompt(s: AlertState): (t: Transition)
    ensures s.onPromptConfirm.Some? ==> t.calls == [RanPrompt(s.onPromptConfirm.value, s.promptValue)]
    ensures s.onPromptConfirm.None? ==> t.calls == []
    ensures !t.next.showPrompt
    ensures t.next.onPromptConfirm == s.onPromptConfirm && t.next.promptValue == s.promptValue
    ensures SameToast(t.next, s) && SameConfirm(t.next, s)
    ensures t.next.title == s.title && t.next.message == s.message
  {
    var calls := if s.onPromptConfirm.Some? then [RanPrompt(s.onPromptConfirm.value, s.promptValue)] else [];
    Transition(s.(showPrompt := false), calls)
  }

  // ---------------------------------------------------------------------------
  // Traces of events
  // ---------------------------------------------------------------------------

  /** Everything that can happen to the store: its six actions, a scheduled hide
      callback firing, and the prompt's input being edited. */
  datatype Event =
    | ToastEvent(message: string, toastType: Option<AlertType>)
    | HideTimer
    | ConfirmEvent(title: string, message: string, onConfirm: ActionId)
    | ExecuteConfirmEvent
    | PromptEvent(title: string, defaultValue: Option<string>, onConfirm: ActionId)
    | EditPromptEvent(value: string)
    | ExecutePromptEvent

  /** The store together with the number of hide callbacks still scheduled. */
  datatype World = World(store: AlertState, pendingHides: nat)

  /** A world after some events, and every callback the store called on the way. */
  datatype Outcome = Outcome(world: World, calls: seq<Invocation>)

  /** What a fresh application starts with: the initial record and no timer. */
  function Start(): (w: World)
    ensures w.store == Initial() && w.pendingHides == 0
  {
    World(Initial(), 0)
  }

  /** One event. A `HideTimer` with no callback scheduled cannot happen and changes nothing. */
  function Step(w: World, e: Event): (o: Outcome)
    ensures e.ToastEvent? ==> o.world.pendingHides == w.pendingHides + 1
    ensures e.HideTimer? && w.pendingHides > 0 ==> o.world.pendingHides == w.pendingHides - 1
    ensures !e.ToastEvent? && !(e.HideTimer? && w.pendingHides > 0) ==> o.world.pendingHides == w.pendingHides
    ensures !e.ExecuteConfirmEvent? && !e.ExecutePromptEvent? ==> o.calls == []
  {
    match e
    case ToastEvent(m, t) => Outcome(World(Toast(w.store, m, t), w.pendingHides + 1), [])
    case HideTimer =>
      if w.pendingHides == 0 then Outcome(w, [])
      else Outcome(World(HideToast(w.store), w.pendingHides - 1), [])
    case ConfirmEvent(title, m, a) => Outcome(World(Confirm(w.store, title, m, a), w.pendingHides), [])
    case ExecuteConfirmEvent =>
      var t := ExecuteConfirm(w.store);
      Outcome(World(t.next, w.pendingHides), t.calls)
    case PromptEvent(title, d, cb) => Outcome(World(Prompt(w.store, title, d, cb), w.pendingHides), [])
    case EditPromptEvent(v) => Outcome(World(EditPromptValue(w.store, v), w.pendingHides), [])
    case ExecutePromptEvent =>
      var t := ExecutePrompt(w.store);
      Outcome(World(t.next, w.pendingHides), t.calls)
  }

  /** The events in order, from left to right. */
  function Run(w: World, events: seq<Event>): (o: Outcome)
    decreases |events|
  {
    if events == [] then Outcome(w, [])
    else
      var first := Step(w, events[0]);
      var rest := Run(first.world, events[1..]);
      Outcome(rest.world, first.calls + rest.calls)
  }

  /** Running `a + b` is running `a`, then `b` from where `a` left off. */
  lemma {:induction false} RunConcat(w: World, a: seq<Event>, b: seq<Event>)
    ensures Run(w, a + b).world == Run(Run(w, a).world, b).world
    ensures Run(w, a + b).calls == Run(w, a).calls + Run(Run(w, a).world, b).calls
    decreases |a|
  {
    if a == [] {
      assert a + b == b;
    } else {
      var first := Step(w, a[0]);
      assert (a + b)[0] == a[0];
      assert (a + b)[1..] == a[1..] + b;
      RunConcat(first.world, a[1..], b);
      var ab := Run(first.world, a[1..] + b);
      assert Run(w, a + b) == Outcome(ab.world, first.calls + ab.calls);
      var ra := Run(first.world, a[1..]);
      assert Run(w, a) == Outcome(ra.world, first.calls + ra.calls);
    }
  }

  // ---------------------------------------------------------------------------
  // Invariants of every reachable world
  // ---------------------------------------------------------------------------

  /** The confirm dialog is open exactly when an action is stored; the prompt dialog
      is open only when a callback is stored; a visible toast always has a hide
      callback scheduled. */
  predicate Consistent(w: World) {
    && (w.store.showConfirm <==> w.store.confirmAction.Some?)
    && (w.store.showPrompt ==> w.store.onPromptConfirm.Some?)
    && (w.store.show ==> w.pendingHides > 0)
  }

  lemma StartConsistent()
    ensures Consistent(Start())
  {
  }

  lemma StepPreservesConsistent(w: World, e: Event)
    requires Consistent(w)
    ensures Consistent(Step(w, e).world)
  {
  }

  /** Every world reachable from a consistent one is consistent; in particular a
      toast that is showing always has a hide callback still scheduled. */
  lemma {:induction false} RunPreservesConsistent(w: World, events: seq<Event>)
    requires Consistent(w)
    ensures Consistent(Run(w, events).world)
    decreases |events|
  {
    if events != [] {
      StepPreservesConsistent(w, events[0]);
      RunPreservesConsistent(Step(w, events[0]).world, events[1..]);
    }
  }

  /** Once a prompt callback is stored, no event removes it again. */
  lemma {:induction false} PromptCallbackNeverCleared(w: World, events: seq<Event>)
    requires w.store.onPromptConfirm.Some?
    ensures Run(w, events).world.store.onPromptConfirm.Some?
    decreases |events|
  {
    if events != [] {
      PromptCallbackNeverCleared(Step(w, events[0]).world, events[1..]);
    }
  }

  // ---------------------------------------------------------------------------
  // Confirm actions run at most once
  // ---------------------------------------------------------------------------

  /** How many calls of the confirm action `a` a list of invocations holds. */
  function ConfirmRuns(calls: seq<Invocation>, a: ActionId): (n: nat)
    decreases |calls|
  {
    if calls == [] then 0
    else (if calls[0] == RanConfirm(a) then 1 else 0) + ConfirmRuns(calls[1..], a)
  }

  /** How many `confirm` requests for the action `a` a list of events holds. */
  function ConfirmRequests(events: seq<Event>, a: ActionId): (n: nat)
    decreases |events|
  {
    if events == [] then 0
    else (if events[0].ConfirmEvent? && events[0].onConfirm == a then 1 else 0) + ConfirmRequests(events[1..], a)
  }

  /** One if `a` is the confirm action waiting, else zero. */
  function Waiting(s: AlertState, a: ActionId): (n: nat) {
    if s.confirmAction == Some(a) then 1 else 0
  }

  lemma {:induction false} ConfirmRunsConcat(c: seq<Invocation>, d: seq<Invocation>, a: ActionId)
    ensures ConfirmRuns(c + d, a) == ConfirmRuns(c, a) + ConfirmRuns(d, a)
    decreases |c|
  {
    if c == [] {
      assert c + d == d;
    } else {
      assert (c + d)[0] == c[0];
      assert (c + d)[1..] == c[1..] + d;
      ConfirmRunsConcat(c[1..], d, a);
    }
  }

  /** Over any trace and for every action `a`: the calls of `a` plus `a` still waiting
      never exceed the requests for `a` plus `a` waiting at the start. Each request
      for an action leads to at most one call of it. */
  lemma {:induction false} ConfirmActionsRunAtMostOnce(w: World, events: seq<Event>, a: ActionId)
    ensures ConfirmRuns(Run(w, events).calls, a) + Waiting(Run(w, events).world.store, a)
            <= ConfirmRequests(events, a) + Waiting(w.store, a)
    decreases |events|
  {
    if events != [] {
      var first := Step(w, events[0]);
      var rest := Run(first.world, events[1..]);
      ConfirmActionsRunAtMostOnce(first.world, events[1..], a);
      ConfirmRunsConcat(first.calls, rest.calls, a);
      assert ConfirmRuns(first.calls, a) + Waiting(first.world.store, a)
             <= (if events[0].ConfirmEvent? && events[0].onConfirm == a then 1 else 0) + Waiting(w.store, a);
    }
  }

  /** An action that is neither waiting nor ever requested is never called. */
  lemma UnrequestedActionNeverCalled(w: World, events: seq<Event>, a: ActionId)
    requires w.store.confirmAction != Some(a)
    requires ConfirmRequests(events, a) == 0
    ensures ConfirmRuns(Run(w, events).calls, a) == 0
  {
    ConfirmActionsRunAtMostOnce(w, events, a);
  }

  /** An action requested once, from a store where it is not waiting, is called at most once. */
  lemma RequestedOnceCalledAtMostOnce(w: World, events: seq<Event>, a: ActionId)
    requires w.store.confirmAction != Some(a)
    requires ConfirmRequests(events, a) == 1
    ensures ConfirmRuns(Run(w, events).calls, a) <= 1
  {
    ConfirmActionsRunAtMostOnce(w, events, a);
  }

  /** An action replaced by a later `confirm`, from whatever world it was stored in
      (any number of events earlier), is never called afterwards unless it is
      requested again. */
  lemma OverwrittenActionNeverCalled(w: World, title: string, message: string, b: ActionId,
                                     a: ActionId, rest: seq<Event>)
    requires a != b
    requires ConfirmRequests(rest, a) == 0
    ensures ConfirmRuns(Run(w, [ConfirmEvent(title, message, b)] + rest).calls, a) == 0
  {
    var one := [ConfirmEvent(title, message, b)];
    RunConcat(w, one, rest);
    var w1 := Step(w, one[0]).world;
    assert one[1..] == [];
    assert Run(w, one) == Outcome(w1, []);
    assert w1.store.confirmAction == Some(b);
    ConfirmActionsRunAtMostOnce(w1, rest, a);
    assert Waiting(w1.store, a) == 0;
    assert Run(w, one + rest).calls == [] + Run(w1, rest).calls;
    assert [] + Run(w1, rest).calls == Run(w1, rest).calls;
  }

  /** Wherever it happens in a trace, a confirm request followed by two
      `executeConfirm` calls adds exactly one call, of its own action. */
  lemma ConfirmThenExecuteTwice(w: World, before: seq<Event>, title: string, message: string, a: ActionId)
    ensures Run(w, before + [ConfirmEvent(title, message, a), ExecuteConfirmEvent, ExecuteConfirmEvent]).calls
            == Run(w, before).calls + [RanConfirm(a)]
  {
    var evs := [ConfirmEvent(title, message, a), ExecuteConfirmEvent, ExecuteConfirmEvent];
    var w0 := Run(w, before).world;
    RunConcat(w, before, evs);
    var w1 := Step(w0, evs[0]).world;
    var w2 := Step(w1, evs[1]).world;
    var w3 := Step(w2, evs[2]).world;
    assert evs[1..] == [ExecuteConfirmEvent, ExecuteConfirmEvent];
    assert evs[1..][1..] == [ExecuteConfirmEvent];
    assert Run(w3, []).calls == [];
    assert Run(w2, [ExecuteConfirmEvent]).calls == [];
    assert Run(w1, evs[1..]).calls == [RanConfirm(a)];
    assert Run(w0, evs).calls == [RanConfirm(a)];
  }

  /** With nothing waiting, `executeConfirm` calls nothing and changes nothing. */
  lemma ExecuteConfirmWithNothingWaiting(s: AlertState)
    requires s.confirmAction.None? && !s.showConfirm
    ensures ExecuteConfirm(s) == Transition(s, [])
  {
  }

  /** A second `confirm` before an `executeConfirm` drops the first action: only the
      second one is ever called. */
  lemma ConfirmOverwritesPendingAction(s: AlertState, t1: string, m1: string, a1: ActionId,
                                       t2: string, m2: string, a2: ActionId)
    ensures ExecuteConfirm(Confirm(Confirm(s, t1, m1, a1), t2, m2, a2)).calls == [RanConfirm(a2)]
  {
  }

  // ---------------------------------------------------------------------------
  // Prompt callbacks can be called again
  // ---------------------------------------------------------------------------

  /** `n` copies of `x`. */
  function Repeat<T>(x: T, n: nat): (r: seq<T>)
    ensures |r| == n
    ensures forall i :: 0 <= i < n ==> r[i] == x
  {
    if n == 0 then [] else [x] + Repeat(x, n - 1)
  }

  /** Since `executePrompt` keeps its callback, `n` calls in a row call that same
      callback `n` times, each time with the same draft value. */
  lemma {:induction false} ExecutePromptRepeats(w: World, n: nat)
    requires w.store.onPromptConfirm.Some?
    ensures Run(w, Repeat(ExecutePromptEvent, n)).calls
            == Repeat(RanPrompt(w.store.onPromptConfirm.value, w.store.promptValue), n)
    decreases n
  {
    if n > 0 {
      var evs := Repeat(ExecutePromptEvent, n);
      assert evs[0] == ExecutePromptEvent;
      assert evs[1..] == Repeat(ExecutePromptEvent, n - 1);
      var w1 := Step(w, ExecutePromptEvent).world;
      assert w1.store.onPromptConfirm == w.store.onPromptConfirm && w1.store.promptValue == w.store.promptValue;
      ExecutePromptRepeats(w1, n - 1);
    }
  }

  /** `prompt` overwrites the title it shares with `confirm`, but leaves the message
      and the confirm action alone. */
  lemma PromptSharesConfirmTitle(s: AlertState, t1: string, m: string, a: ActionId,
                                 t2: string, d: Option<string>, cb: ActionId)
    ensures Prompt(Confirm(s, t1, m, a), t2, d, cb).title == t2
    ensures Prompt(Confirm(s, t1, m, a), t2, d, cb).message == m
    ensures Prompt(Confirm(s, t1, m, a), t2, d, cb).confirmAction == Some(a)
  {
  }

  // ---------------------------------------------------------------------------
  // Hide timers are never cancelled
  // ---------------------------------------------------------------------------

  /** Two toasts in a row schedule two hide callbacks; the first one to fire hides
      the second toast already, and one callback is still scheduled. */
  lemma StaleTimerHidesNewerToast(w: World, m1: string, k1: Option<AlertType>, m2: string, k2: Option<AlertType>)
    ensures var r := Run(w, [ToastEvent(m1, k1), ToastEvent(m2, k2), HideTimer]).world;
      !r.store.show && r.store.message == m2 && r.pendingHides == w.pendingHides + 1
  {
    var evs := [ToastEvent(m1, k1), ToastEvent(m2, k2), HideTimer];
    var w1 := Step(w, evs[0]).world;
    var w2 := Step(w1, evs[1]).world;
    var w3 := Step(w2, evs[2]).world;
    assert evs[1..] == [ToastEvent(m2, k2), HideTimer];
    assert evs[1..][1..] == [HideTimer];
    assert Run(w2, [HideTimer]).world == w3;
    assert Run(w1, evs[1..]).world == w3;
    assert w2.store.message == m2 && w2.pendingHides == w.pendingHides + 2;
  }

  /** A toast stays visible until a hide callback fires: events other than toasts and
      timers never touch `show`. */
  lemma {:induction false} OnlyTimersHideToasts(w: World, events: seq<Event>)
    requires forall i :: 0 <= i < |events| ==> !events[i].HideTimer?
    requires w.store.show
    ensures Run(w, events).world.store.show
    decreases |events|
  {
    if events != [] {
      OnlyTimersHideToasts(Step(w, events[0]).world, events[1..]);
    }
  }
}
