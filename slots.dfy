/** The slot registry shared by the REST routes and the socket handlers, the
    events the server pushes to viewers, and the outbound channel. */
module Slots {
  import opened Values

  /** Slot ids are object keys, so a number sent by a client arrives as its string. */
  type SlotId = string

  /** What a slot displays. A missing key and an explicit `null` are both None. */
  datatype Slot = Slot(imageId: Option<JsValue>, imageUrl: Option<JsValue>, updatedAt: Option<Timestamp>)

  /** The record a cleared or never-set slot reads as. */
  const EmptySlot := Slot(None, None, None)

  type SlotMap = map<SlotId, Slot>

  /** The record an update stores: falsy image fields become null and the
      clock reading `now` stamps it. */
  function Stamped(imageId: JsValue, imageUrl: JsValue, now: Timestamp): (s: Slot)
    ensures s.imageId == OrNull(imageId) && s.imageUrl == OrNull(imageUrl)
    ensures s.updatedAt == Some(now)
  {
    Slot(OrNull(imageId), OrNull(imageUrl), Some(now))
  }

  /** `m[id] || {imageId: null, imageUrl: null, updatedAt: null}`. */
  function Lookup(m: SlotMap, id: SlotId): (s: Slot)
    ensures id in m ==> s == m[id]
    ensures id !in m ==> s == EmptySlot
  {
    if id in m then m[id] else EmptySlot
  }

  /** The one mutable slot object of the process. */
  class Registry {
    var slots: SlotMap

    constructor ()
      ensures slots == map[]
    {
      slots := map[];
    }

    /** `Object.entries(entries).forEach(([id, data]) => { slots[id] = data })`. */
    method MergeFrom(entries: SlotMap)
      modifies this
      ensures slots == Spread(old(slots), entries)
    {
      var todo := entries.Keys;
      ghost var done: set<SlotId> := {};
      while todo != {}
        invariant todo !! done && todo + done == entries.Keys
        invariant slots.Keys == old(slots).Keys + done
        invariant forall k :: k in done ==> slots[k] == entries[k]
        invariant forall k :: k in old(slots) && k !in done ==> slots[k] == old(slots)[k]
        decreases todo
      {
        var k :| k in todo;
        slots := slots[k := entries[k]];
        todo := todo - {k};
        done := done + {k};
      }
    }
  }

  /** `global.slots`: unset (null) until the socket service installs its registry. */
  class Globals {
    var slots: Registry?

    constructor ()
      ensures slots == null
    {
      slots := null;
    }
  }

  /** The slot map the routes see: `global.slots || {}`. */
  function Current(g: Globals): (m: SlotMap)
    reads g, g.slots
    ensures g.slots != null ==> m == g.slots.slots
    ensures g.slots == null ==> m == map[]
  {
    if g.slots == null then map[] else g.slots.slots
  }

  /** Messages the server sends over the realtime channel. A None `updatedAt`
      in `SlotUpdated` is a payload without that key. */
  datatype Event =
    | ConnectionStatus(clientId: string, timestamp: Timestamp)
    | SlotsState(slots: SlotMap, timestamp: Timestamp)
    | SlotUpdated(slot: SlotId, imageId: Option<JsValue>, imageUrl: Option<JsValue>,
                  updatedAt: Option<Timestamp>, timestamp: Timestamp)
    | SceneLoaded(sceneId: JsValue, sceneName: JsValue, slots: SlotMap)
    | Pong

  /** `io.emit` reaches every connected client, `socket.emit` only one. */
  datatype Emission = Broadcast(event: Event) | ToClient(clientId: string, event: Event)

  /** The realtime transport, as the sequence of everything sent so far. */
  class Io {
    var sent: seq<Emission>

    constructor ()
      ensures sent == []
    {
      sent := [];
    }

    method Emit(e: Event)
      modifies this
      ensures sent == old(sent) + [Broadcast(e)]
    {
      sent := sent + [Broadcast(e)];
    }

    method EmitTo(clientId: string, e: Event)
      modifies this
      ensures sent == old(sent) + [ToClient(clientId, e)]
    {
      sent := sent + [ToClient(clientId, e)];
    }
  }
}
