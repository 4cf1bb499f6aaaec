/** How the server joins the pieces: the socket service is set up at start
    and publishes its slot object as `global.slots`, so the REST routes and
    the socket handlers act on one and the same map. */
module Wiring {
  import opened Values
  import opened Slots
  import SlotRoutes
  import SocketService

  /** Server start: the transport, the globals, and the socket service that
      installs its registry as `global.slots`. */
  method Start() returns (g: Globals, io: Io, svc: SocketService.Service)
    ensures fresh(g) && fresh(io) && fresh(svc.registry)
    ensures g.slots == svc.registry && svc.registry.slots == map[] && io.sent == []
  {
    g := new Globals();
    io := new Io();
    svc := new SocketService.Service(g);
  }

  /** A REST update is what a client connecting afterwards receives in its
      snapshot, and a socket clear is what a later REST read returns: one
      map serves both paths. Every change went out as a broadcast. */
  method SharedRegistry(now: Timestamp) returns (snapshot: Emission, afterClear: SlotRoutes.SlotView, sent: seq<Emission>)
    ensures snapshot.ToClient? && snapshot.event.SlotsState?
    ensures "2" in snapshot.event.slots && snapshot.event.slots["2"].imageUrl == Some(Str("http://y/b.png"))
    ensures afterClear == SlotRoutes.SlotView("2", None, None, None)
    ensures |sent| == 4 && sent[0].Broadcast? && sent[3].Broadcast?
  {
    var g, io, svc := Start();
    var _ := SlotRoutes.Update(g, io, "2", Undefined, Str("http://y/b.png"), now);
    svc.OnConnection(io, "B", now, now);
    snapshot := io.sent[2];
    svc.OnSlotClear(io, "2", now);
    afterClear := SlotRoutes.GetOne(g, "2");
    sent := io.sent;
  }
}
