/**
 * The user-interaction helpers of omnigibson/utils/ui_utils.py that are plain bookkeeping: the
 * keyboard callback table of `KeyboardEventHandler` and the index choice of
 * `choose_from_options`. Keys and keyboard events of the input backend are an abstract enum.
 */
module UiUtils {
  import opened Wrappers

  /** The keyboard inputs the helpers look at; every other key is `OtherKey`. */
  datatype Key =
    | Up | Down | Left | Right
    | KeyB | KeyC | KeyI | KeyJ | KeyK | KeyL | KeyN | KeyO | KeyP | KeyR | KeyT | KeyU | KeyV
    | Semicolon | LeftBracket | RightBracket | Escape
    | Key1 | Key2 | Key3 | Key4 | Key5 | Key6
    | OtherKey(code: nat)

  /** `carb.input.KeyboardEventType` */
  datatype EventType = KeyPress | KeyRepeat | KeyRelease | Char

  datatype KeyEvent = KeyEvent(kind: EventType, input: Key)

  /** A key press or an auto-repeat, the events that run callbacks. */
  predicate PressOrRepeat(e: KeyEvent) {
    e.kind == KeyPress || e.kind == KeyRepeat
  }

  /**
   * `KeyboardEventHandler`: the class-level callback table and the id of the backend
   * subscription; a callback is an opaque id, a subscription id comes from the backend.
   */
  class KeyboardEventHandler {
    /** `KEYBOARD_CALLBACKS` */
    var callbacks: map<Key, nat>
    /** `_CALLBACK_ID`: None while no subscription exists. */
    var callbackId: Option<nat>

    /** The class attributes before any call: no callback and no subscription. */
    constructor ()
      ensures callbacks == map[] && callbackId == None
    {
      callbacks := map[];
      callbackId := None;
    }

    /** `initialize`: subscribes the meta callback; `subscription` is the id the backend returns. */
    method Initialize(subscription: nat)
      modifies this
      ensures callbackId == Some(subscription) && callbacks == old(callbacks)
    {
      callbackId := Some(subscription);
    }

    /** `reset`: unsubscribes and forgets every callback. */
    method Reset()
      modifies this
      ensures callbacks == map[] && callbackId == None
    {
      callbacks := map[];
      callbackId := None;
    }

    /**
     * `add_keyboard_callback(key, callback)`: subscribes first only when there is no
     * subscription yet, then maps `key` to `callback`, replacing an earlier one.
     */
    method AddKeyboardCallback(key: Key, callback: nat, subscription: nat)
      modifies this
      ensures callbackId == if old(callbackId).None? then Some(subscription) else old(callbackId)
      ensures callbacks == old(callbacks)[key := callback]
    {
      if callbackId.None? {
        Initialize(subscription);
      }
      callbacks := callbacks[key := callback];
    }

    /**
     * `_meta_callback(event)`: runs the callback of the event's key on a press or repeat, and
     * nothing otherwise; `fired` is the callback run. The answer is always true.
     */
    method MetaCallback(event: KeyEvent) returns (fired: Option<nat>, result: bool)
      ensures fired.Some? <==> PressOrRepeat(event) && event.input in callbacks
      ensures fired.Some? ==> fired.value == callbacks[event.input]
      ensures result
    {
      fired := None;
      if event.kind == KeyPress || event.kind == KeyRepeat {
        if event.input in callbacks {
          fired := Some(callbacks[event.input]);
        }
      }
      result := true;
    }
  }

  /**
   * The index `choose_from_options` picks among `n` options when not choosing at random:
   * `min(max(int(s), 1), n) - 1` for a parsed answer, and 0 when parsing fails.
   */
  function ChoiceIndex(n: nat, answer: Option<int>): (k: int)
    ensures 0 < n ==> 0 <= k < n
    ensures answer.None? ==> k == 0
    ensures answer.Some? && 1 <= answer.value <= n ==> k == answer.value - 1
    ensures answer.Some? && answer.value < 1 && 0 < n ==> k == 0
    ensures answer.Some? && n < answer.value ==> k == n - 1
  {
    if answer.None? then 0
    else
      var atLeastOne := if answer.value < 1 then 1 else answer.value;
      (if atLeastOne < n then atLeastOne else n) - 1
  }

  /**
   * `choose_from_options(options, name)` without random selection, `answer` being the parsed
   * reply (None when `int(s)` fails). With no options every path ends in an IndexError: None.
   */
  function ChooseFromOptions<T>(options: seq<T>, answer: Option<int>): (r: Option<T>)
    ensures r.Some? <==> |options| > 0
    ensures r.Some? ==> r.value in options
    ensures r.Some? ==> r.value == options[ChoiceIndex(|options|, answer)]
  {
    if |options| == 0 then None
    else Some(options[ChoiceIndex(|options|, answer)])
  }
}
