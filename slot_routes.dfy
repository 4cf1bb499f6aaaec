/** The `/slots` REST routes. They read and write the shared slot object
    through `global.slots` and announce every change on the realtime channel. */
module SlotRoutes {
  import opened Values
  import opened Slots

  /** A route's `data`: the slot id followed by the slot's fields. */
  datatype SlotView = SlotView(slot: SlotId, imageId: Option<JsValue>, imageUrl: Option<JsValue>,
                               updatedAt: Option<Timestamp>)

  function View(id: SlotId, s: Slot): (v: SlotView)
    ensures v.slot == id
    ensures v.imageId == s.imageId && v.imageUrl == s.imageUrl && v.updatedAt == s.updatedAt
  {
    SlotView(id, s.imageId, s.imageUrl, s.updatedAt)
  }

  /** GET /slots: the whole map, or an empty one while `global.slots` is unset. */
  method GetAll(g: Globals) returns (m: SlotMap)
    ensures g.slots == null ==> m == map[]
    ensures g.slots != null ==> m == g.slots.slots
  {
    m := Current(g);
  }

  /** GET /slots/:slotId: the stored record, or all three fields null for a
      slot that was never written. Reading changes nothing. */
  method GetOne(g: Globals, slotId: SlotId) returns (v: SlotView)
    ensures v.slot == slotId
    ensures slotId in Current(g) ==> v == View(slotId, Current(g)[slotId])
    ensures slotId !in Current(g) ==> v.imageId == None && v.imageUrl == None && v.updatedAt == None
  {
    v := View(slotId, Lookup(Current(g), slotId));
  }

  /** PUT /slots/:slotId: store the normalised, stamped record under the id,
      broadcast it as `slot:updated` with `timestamp` equal to the stored
      `updatedAt`, and answer with it. */
  method Update(g: Globals, io: Io, slotId: SlotId, imageId: JsValue, imageUrl: JsValue, now: Timestamp)
    returns (v: SlotView)
    modifies g, g.slots, io
    ensures g.slots != null
    ensures old(g.slots) != null ==> g.slots == old(g.slots)
    ensures old(g.slots) == null ==> fresh(g.slots)
    ensures g.slots.slots == old(Current(g))[slotId := Stamped(imageId, imageUrl, now)]
    ensures io.sent == old(io.sent)
                       + [Broadcast(SlotUpdated(slotId, OrNull(imageId), OrNull(imageUrl), Some(now), now))]
    ensures v == View(slotId, Stamped(imageId, imageUrl, now))
  {
    var data := Stamped(imageId, imageUrl, now);
    if g.slots == null {
      var created := new Registry();
      g.slots := created;
    }
    g.slots.slots := g.slots.slots[slotId := data];
    io.Emit(SlotUpdated(slotId, data.imageId, data.imageUrl, data.updatedAt, data.updatedAt.value));
    v := View(slotId, data);
  }

  /** DELETE /slots/:slotId: store the all-null record under the id (the key
      stays), broadcast `slot:updated` with null image fields stamped with the
      clock reading `now`, and answer with null image fields. */
  method Clear(g: Globals, io: Io, slotId: SlotId, now: Timestamp) returns (v: SlotView)
    modifies g, g.slots, io
    ensures g.slots != null
    ensures old(g.slots) != null ==> g.slots == old(g.slots)
    ensures old(g.slots) == null ==> fresh(g.slots)
    ensures g.slots.slots == old(Current(g))[slotId := EmptySlot]
    ensures io.sent == old(io.sent) + [Broadcast(SlotUpdated(slotId, None, None, None, now))]
    ensures v == SlotView(slotId, None, None, None)
  {
    if g.slots == null {
      var created := new Registry();
      g.slots := created;
    }
    g.slots.slots := g.slots.slots[slotId := EmptySlot];
    io.Emit(SlotUpdated(slotId, None, None, None, now));
    v := SlotView(slotId, None, None, None);
  }

  /** What an update leaves behind: the id reads back as the normalised
      inputs with a non-null stamp, and every other id reads as before. */
  lemma {:induction false} UpdateThenGet(m: SlotMap, slotId: SlotId, imageId: JsValue, imageUrl: JsValue,
                                         now: Timestamp, other: SlotId)
    ensures Lookup(m[slotId := Stamped(imageId, imageUrl, now)], slotId).imageUrl == OrNull(imageUrl)
    ensures Lookup(m[slotId := Stamped(imageId, imageUrl, now)], slotId).imageId == OrNull(imageId)
    ensures Lookup(m[slotId := Stamped(imageId, imageUrl, now)], slotId).updatedAt != None
    ensures other != slotId ==> Lookup(m[slotId := Stamped(imageId, imageUrl, now)], other) == Lookup(m, other)
  {
  }

  /** A cleared slot reads exactly like one that was never set, yet its key
      is now present; clearing it again leaves the same map. */
  lemma ClearedReadsAsUnset(m: SlotMap, slotId: SlotId)
    ensures Lookup(m[slotId := EmptySlot], slotId) == Lookup(map[], slotId)
    ensures slotId in m[slotId := EmptySlot]
    ensures m[slotId := EmptySlot][slotId := EmptySlot] == m[slotId := EmptySlot]
  {
  }
}
