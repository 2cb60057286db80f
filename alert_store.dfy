/**
 * The notification store as the application holds it: one object whose actions
 * assign its fields in place.
 *
 * Two ghost fields stand for what the store's code does not keep itself: `log`,
 * every call the store has made into a stored callback, and `pendingHides`, the
 * hide callbacks that `toast` has handed to the event loop and that have not yet
 * fired. Every action is specified by the matching function of `AlertModel`.
 */
module AlertStore {
  import opened Wrappers
  import opened AlertModel

  class AlertStore {
    var show: bool
    var kind: AlertType
    var title: string
    var message: string
    var confirmAction: Option<ActionId>
    var showConfirm: bool
    var showPrompt: bool
    var promptValue: string
    var onPromptConfirm: Option<ActionId>

    ghost var log: seq<Invocation>
    ghost var pendingHides: nat

    /** The store's fields as one record. */
    function State(): (s: AlertState)
      reads this
    {
      AlertState(show, kind, title, message, confirmAction, showConfirm, showPrompt, promptValue, onPromptConfirm)
    }

    /** The record together with the scheduled hide callbacks. */
    ghost function Snapshot(): (w: World)
      reads this
    {
      World(State(), pendingHides)
    }

    /** The invariant every action keeps (see `AlertModel.Consistent`). */
    ghost predicate Valid()
      reads this
    {
      Consistent(Snapshot())
    }

    constructor ()
      ensures Valid()
      ensures State() == Initial() && pendingHides == 0 && log == []
    {
      show, kind, title, message := false, Success, "", "";
      confirmAction, showConfirm := None, false;
      showPrompt, promptValue, onPromptConfirm := false, "", None;
      log, pendingHides := [], 0;
    }

    /** `toast(message, type)`: shows the toast and schedules one more hide callback. */
    method Toast(message: string, t: Option<AlertType>)
      requires Valid()
      modifies this
      ensures Valid()
      ensures State() == AlertModel.Toast(old(State()), message, t)
      ensures pendingHides == old(pendingHides) + 1 && log == old(log)
    {
      kind := t.GetOr(Success);
      this.message := message;
      show := true;
      pendingHides := pendingHides + 1;
    }

    /** One of the scheduled hide callbacks fires. None is ever cancelled, so it may
        belong to an earlier toast than the one showing. */
    method HideTimerFires()
      requires Valid()
      requires pendingHides > 0
      modifies this
      ensures Valid()
      ensures State() == HideToast(old(State()))
      ensures pendingHides == old(pendingHides) - 1 && log == old(log)
    {
      show := false;
      pendingHides := pendingHides - 1;
    }

    /** `confirm({title, message, onConfirm})`. */
    method Confirm(title: string, message: string, onConfirm: ActionId)
      requires Valid()
      modifies this
      ensures Valid()
      ensures State() == AlertModel.Confirm(old(State()), title, message, onConfirm)
      ensures pendingHides == old(pendingHides) && log == old(log)
    {
      this.title := title;
      this.message := message;
      confirmAction := Some(onConfirm);
      showConfirm := true;
    }

    /** `executeConfirm()`: the stored action, if any, is called and recorded in `log`. */
    method ExecuteConfirm()
      requires Valid()
      modifies this
      ensures Valid()
      ensures State() == AlertModel.ExecuteConfirm(old(State())).next
      ensures log == old(log) + AlertModel.ExecuteConfirm(old(State())).calls
      ensures pendingHides == old(pendingHides)
    {
      if confirmAction.Some? {
        log := log + [RanConfirm(confirmAction.value)];
      }
      showConfirm := false;
      confirmAction := None;
    }

    /** `prompt(title, defaultValue, onConfirm)`. */
    method Prompt(title: string, defaultValue: Option<string>, onConfirm: ActionId)
      requires Valid()
      modifies this
      ensures Valid()
      ensures State() == AlertModel.Prompt(old(State()), title, defaultValue, onConfirm)
      ensures pendingHides == old(pendingHides) && log == old(log)
    {
      this.title := title;
      promptValue := defaultValue.GetOr("");
      onPromptConfirm := Some(onConfirm);
      showPrompt := true;
    }

    /** The prompt's input field, bound to `promptValue`, is edited. */
    method EditPromptValue(value: string)
      requires Valid()
      modifies this
      ensures Valid()
      ensures State() == AlertModel.EditPromptValue(old(State()), value)
      ensures pendingHides == old(pendingHides) && log == old(log)
    {
      promptValue := value;
    }

    /** `executePrompt()`: the stored callback, if any, is called with the current
        draft and recorded in `log`; the callback stays stored. */
    method ExecutePrompt()
      requires Valid()
      modifies this
      ensures Valid()
      ensures State() == AlertModel.ExecutePrompt(old(State())).next
      ensures log == old(log) + AlertModel.ExecutePrompt(old(State())).calls
      ensures pendingHides == old(pendingHides)
    {
      if onPromptConfirm.Some? {
        log := log + [RanPrompt(onPromptConfirm.value, promptValue)];
      }
      showPrompt := false;
    }
  }

  /** A client: after `confirm`, two `executeConfirm` calls call the action once. */
  method ConfirmTwiceClient(store: AlertStore, a: ActionId)
    requires store.Valid()
    modifies store
    ensures store.log == old(store.log) + [RanConfirm(a)]
    ensures !store.showConfirm && store.confirmAction == None
  {
    store.Confirm("Hapus data?", "Data akan dihapus.", a);
    store.ExecuteConfirm();
    store.ExecuteConfirm();
  }

  /** A client: the invariant guarantees that a visible toast has a hide callback
      scheduled, so the environment may always fire one. */
  method HideVisibleToastClient(store: AlertStore)
    requires store.Valid() && store.show
    modifies store
    ensures store.Valid() && !store.show
    ensures store.pendingHides == old(store.pendingHides) - 1
  {
    store.HideTimerFires();
  }

  /** A client: a hide callback from an earlier toast hides a later one. */
  method StaleTimerClient(store: AlertStore)
    requires store.Valid() && !store.show && store.pendingHides == 0
    modifies store
    ensures !store.show && store.message == "second" && store.pendingHides == 1
  {
    store.Toast("first", None);
    store.Toast("second", Some(Error));
    store.HideTimerFires();
  }
}
