/** The control panel's notification queue: toasts are appended with
    defaults filled in, and each toast with a positive duration gets an
    expiry timer that later removes it. A timer firing is an explicit step. */
module Toast {
  import opened Values
  import opened Records
  import Lists

  const DefaultType := "info"
  const DefaultMessage := ""
  const DefaultDuration := 3000

  /** The fields a toast starts from before the caller's own are spread over them. */
  function Defaults(id: JsValue): Record {
    map["id" := id, "type" := Str(DefaultType), "message" := Str(DefaultMessage), "duration" := Num(DefaultDuration)]
  }

  /** `{id, type: 'info', message: '', duration: 3000, ...toast}`: every key the
      caller supplies wins, even one whose value is `undefined`; the defaults
      fill only the keys the caller left out. */
  function NewToast(id: JsValue, toast: Record): (t: Record)
    ensures t.Keys == toast.Keys + {"id", "type", "message", "duration"}
    ensures forall k :: k in toast ==> t[k] == toast[k]
    ensures "id" !in toast ==> t["id"] == id
    ensures "type" !in toast ==> t["type"] == Str(DefaultType)
    ensures "message" !in toast ==> t["message"] == Str(DefaultMessage)
    ensures "duration" !in toast ==> t["duration"] == Num(DefaultDuration)
  {
    Spread(Defaults(id), toast)
  }

  /** Whether a string holds a decimal numeral (digits only). */
  predicate Digits(s: string) {
    s != "" && forall i :: 0 <= i < |s| ==> '0' <= s[i] <= '9'
  }

  /** `duration > 0` for the values a duration can take: a number above zero,
      `true`, or a digit string with a non-zero digit. `undefined`, `null`,
      `false`, objects and other strings compare as not positive. Every
      positive duration is truthy. */
  predicate Positive(duration: JsValue)
    ensures Positive(duration) ==> Truthy(duration)
  {
    match duration
    case Num(n) => n > 0
    case Bool(b) => b
    case Str(s) => Digits(s) && exists i :: 0 <= i < |s| && s[i] != '0'
    case _ => false
  }

  /** The argument a helper passes on: its own type, and the message and
      duration exactly as given (absent ones are present as `undefined`). */
  function HelperArgs(kind: string, message: JsValue, duration: JsValue): (toast: Record)
    ensures toast.Keys == {"type", "message", "duration"}
    ensures toast["type"] == Str(kind) && toast["message"] == message && toast["duration"] == duration
  {
    map["type" := Str(kind), "message" := message, "duration" := duration]
  }

  class ToastStore {
    var toasts: seq<Record>
    /** Ids whose expiry timer is pending, in the order they were scheduled. */
    var timers: seq<JsValue>

    constructor ()
      ensures toasts == [] && timers == []
    {
      toasts, timers := [], [];
    }

    /** `addToast`: append the filled-in toast, schedule its expiry when its
        duration is positive, and return the id it was created with. */
    method AddToast(toast: Record, id: JsValue) returns (r: JsValue)
      modifies this
      ensures r == id
      ensures toasts == old(toasts) + [NewToast(id, toast)]
      ensures Positive(NewToast(id, toast)["duration"]) ==> timers == old(timers) + [id]
      ensures !Positive(NewToast(id, toast)["duration"]) ==> timers == old(timers)
    {
      var newToast := Spread(Defaults(id), toast);
      toasts := toasts + [newToast];
      if Positive(newToast["duration"]) {
        timers := timers + [id];
      }
      r := id;
    }

    /** `removeToast`: drop every toast with the id. */
    method RemoveToast(id: JsValue)
      modifies this
      ensures toasts == Without(old(toasts), id) && timers == old(timers)
    {
      toasts := Without(toasts, id);
    }

    /** A pending expiry timer fires: it does exactly what `removeToast`
        does for its id. */
    method Expire(k: nat)
      requires k < |timers|
      modifies this
      ensures toasts == Without(old(toasts), old(timers)[k])
      ensures timers == Lists.RemoveAt(old(timers), k)
    {
      toasts := Without(toasts, timers[k]);
      timers := Lists.RemoveAt(timers, k);
    }

    method Success(message: JsValue, duration: JsValue, id: JsValue) returns (r: JsValue)
      modifies this
      ensures r == id && toasts == old(toasts) + [NewToast(id, HelperArgs("success", message, duration))]
      ensures timers == if Positive(duration) then old(timers) + [id] else old(timers)
    {
      r := AddToast(HelperArgs("success", message, duration), id);
    }

    method Error(message: JsValue, duration: JsValue, id: JsValue) returns (r: JsValue)
      modifies this
      ensures r == id && toasts == old(toasts) + [NewToast(id, HelperArgs("error", message, duration))]
      ensures timers == if Positive(duration) then old(timers) + [id] else old(timers)
    {
      r := AddToast(HelperArgs("error", message, duration), id);
    }

    method Warning(message: JsValue, duration: JsValue, id: JsValue) returns (r: JsValue)
      modifies this
      ensures r == id && toasts == old(toasts) + [NewToast(id, HelperArgs("warning", message, duration))]
      ensures timers == if Positive(duration) then old(timers) + [id] else old(timers)
    {
      r := AddToast(HelperArgs("warning", message, duration), id);
    }

    method Info(message: JsValue, duration: JsValue, id: JsValue) returns (r: JsValue)
      modifies this
      ensures r == id && toasts == old(toasts) + [NewToast(id, HelperArgs("info", message, duration))]
      ensures timers == if Positive(duration) then old(timers) + [id] else old(timers)
    {
      r := AddToast(HelperArgs("info", message, duration), id);
    }
  }

  /** A helper's toast has the helper's type, the given message and the given
      duration; called without a duration it carries `undefined` in place of
      3000, is not positive, and so is never removed by a timer. */
  lemma HelperToast(kind: string, message: JsValue, duration: JsValue, id: JsValue)
    ensures NewToast(id, HelperArgs(kind, message, duration))["type"] == Str(kind)
    ensures NewToast(id, HelperArgs(kind, message, duration))["message"] == message
    ensures NewToast(id, HelperArgs(kind, message, duration))["duration"] == duration
    ensures NewToast(id, HelperArgs(kind, message, duration))["id"] == id
    ensures duration == Undefined ==> !Positive(NewToast(id, HelperArgs(kind, message, duration))["duration"])
  {
  }

  /** When its timer fires, a toast created without its own `id` key is
      gone, and the other toasts are exactly those a removal of the id
      from the earlier list leaves, in their order. */
  lemma ExpiryRemovesOwnToast(toasts: seq<Record>, toast: Record, id: JsValue)
    requires "id" !in toast && !id.Obj?
    ensures Without(toasts + [NewToast(id, toast)], id) == Without(toasts, id)
  {
    WithoutKeepsOrder(toasts, [NewToast(id, toast)], id);
    assert Without([NewToast(id, toast)], id) == [];
  }

  /** A caller that supplies its own `id` key overrides the id the toast is
      stored under, while `addToast` still returns and schedules the fresh
      one: such a toast is missed by its own timer. */
  lemma CallerIdOverrides(toasts: seq<Record>, toast: Record, id: JsValue)
    requires "id" in toast && !StrictEquals(toast["id"], id)
    ensures NewToast(id, toast)["id"] == toast["id"]
    ensures Without(toasts + [NewToast(id, toast)], id) == Without(toasts, id) + [NewToast(id, toast)]
  {
    var t := NewToast(id, toast);
    WithoutKeepsOrder(toasts, [t], id);
    assert Without([t], id) == [t];
  }

  /** Removing a toast twice is removing it once. */
  lemma RemoveTwice(toasts: seq<Record>, id: JsValue)
    ensures Without(Without(toasts, id), id) == Without(toasts, id)
  {
    WithoutIdempotent(toasts, id);
  }
}
