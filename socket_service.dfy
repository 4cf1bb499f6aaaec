/** The realtime service: its module-level slot object, which it also
    publishes as `global.slots`, and the handlers it installs on every
    connection. */
module SocketService {
  import opened Values
  import opened Slots

  /** The scene `scene:load` applies whatever id it is asked for: slot "1"
      shows a placeholder (image id 1, no stamp) and slot "2" is emptied. */
  const MockSceneName := Str("Test Scene")
  const PlaceholderUrl := "https://via.placeholder.com/1920x1080"
  const MockSceneSlots: SlotMap :=
    map["1" := Slot(Some(Num(1)), Some(Str(PlaceholderUrl)), None), "2" := Slot(None, None, None)]

  class Service {
    /** The module's `slots` object. */
    const registry: Registry

    /** Loading the module creates an empty slot object; wiring it to the
        server makes `global.slots` that very object. */
    constructor (g: Globals)
      modifies g
      ensures fresh(registry) && registry.slots == map[]
      ensures g.slots == registry
    {
      registry := new Registry();
      new;
      g.slots := registry;
    }

    /** A new connection is told its id and then the current slot map, both
        to that client alone; the map is not changed. */
    method OnConnection(io: Io, clientId: string, statusAt: Timestamp, stateAt: Timestamp)
      modifies io
      ensures io.sent == old(io.sent) + [ToClient(clientId, ConnectionStatus(clientId, statusAt)),
                                         ToClient(clientId, SlotsState(registry.slots, stateAt))]
    {
      io.EmitTo(clientId, ConnectionStatus(clientId, statusAt));
      io.EmitTo(clientId, SlotsState(registry.slots, stateAt));
    }

    /** `slot:update`: store the normalised record stamped `storedAt` under
        the slot and broadcast the same image fields. The broadcast takes its
        own clock reading `sentAt` and carries no `updatedAt`. */
    method OnSlotUpdate(io: Io, slot: SlotId, imageUrl: JsValue, imageId: JsValue,
                        storedAt: Timestamp, sentAt: Timestamp)
      modifies registry, io
      ensures registry.slots == old(registry.slots)[slot := Stamped(imageId, imageUrl, storedAt)]
      ensures io.sent == old(io.sent) + [Broadcast(SlotUpdated(slot, OrNull(imageId), OrNull(imageUrl), None, sentAt))]
    {
      registry.slots := registry.slots[slot := Stamped(imageId, imageUrl, storedAt)];
      io.Emit(SlotUpdated(slot, OrNull(imageId), OrNull(imageUrl), None, sentAt));
    }

    /** `scene:load`: merge the mock scene's slots into the map (other slots
        are kept) and broadcast `scene:loaded` with the requested id. */
    method OnSceneLoad(io: Io, sceneId: JsValue)
      modifies registry, io
      ensures registry.slots == Spread(old(registry.slots), MockSceneSlots)
      ensures io.sent == old(io.sent) + [Broadcast(SceneLoaded(sceneId, MockSceneName, MockSceneSlots))]
    {
      registry.MergeFrom(MockSceneSlots);
      io.Emit(SceneLoaded(sceneId, MockSceneName, MockSceneSlots));
    }

    /** `slot:clear`: the slot's three fields become null and `slot:updated`
        is broadcast with null image fields. */
    method OnSlotClear(io: Io, slot: SlotId, sentAt: Timestamp)
      modifies registry, io
      ensures registry.slots == old(registry.slots)[slot := EmptySlot]
      ensures io.sent == old(io.sent) + [Broadcast(SlotUpdated(slot, None, None, None, sentAt))]
    {
      registry.slots := registry.slots[slot := EmptySlot];
      io.Emit(SlotUpdated(slot, None, None, None, sentAt));
    }

    /** `ping`: answer `pong` to the asking client only. */
    method OnPing(io: Io, clientId: string)
      modifies io
      ensures io.sent == old(io.sent) + [ToClient(clientId, Pong)]
    {
      io.EmitTo(clientId, Pong);
    }
  }

  /** The mock scene overwrites exactly slots "1" and "2"; every other slot
      keeps its record, and applying it twice is applying it once. */
  lemma MockLoadEffect(m: SlotMap, id: SlotId)
    ensures Spread(m, MockSceneSlots).Keys == m.Keys + {"1", "2"}
    ensures Lookup(Spread(m, MockSceneSlots), "1").imageUrl == Some(Str(PlaceholderUrl))
    ensures Lookup(Spread(m, MockSceneSlots), "2") == EmptySlot
    ensures id != "1" && id != "2" ==> Lookup(Spread(m, MockSceneSlots), id) == Lookup(m, id)
    ensures Spread(Spread(m, MockSceneSlots), MockSceneSlots) == Spread(m, MockSceneSlots)
  {
    SpreadIdempotent(m, MockSceneSlots);
  }
}
