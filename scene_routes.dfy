/** The `/scenes` REST routes over the route module's own in-memory scene
    list, and loading a scene into the shared slot object. */
module SceneRoutes {
  import opened Values
  import opened Slots
  import Lists

  /** A stored scene. `name` and `description` are whatever the client sent. */
  datatype Scene = Scene(id: int, name: JsValue, description: JsValue, slots: SlotMap,
                         createdAt: Timestamp, updatedAt: Timestamp)

  /** The `data` of a successful load. */
  datatype LoadReport = LoadReport(sceneId: int, sceneName: JsValue, slotsUpdated: nat)

  const NotFound := "Scene not found"
  const NameRequired := "Scene name is required"

  /** `s.id === parseInt(req.params.id)`; an unparsable id (NaN, None) matches nothing. */
  function HasId(id: Option<int>): Scene -> bool {
    (s: Scene) => id == Some(s.id)
  }

  /** Where the first scene with the id sits, or -1. */
  function IndexOf(scenes: seq<Scene>, id: Option<int>): (i: int)
    ensures -1 <= i < |scenes|
    ensures i == -1 <==> forall j :: 0 <= j < |scenes| ==> id != Some(scenes[j].id)
    ensures 0 <= i ==> id == Some(scenes[i].id) && forall j :: 0 <= j < i ==> id != Some(scenes[j].id)
  {
    Lists.FindIndex(scenes, HasId(id))
  }

  /** Every stored scene has a truthy name: create refuses a falsy one and
      update keeps the old one in its place. */
  predicate Named(scenes: seq<Scene>) {
    forall i :: 0 <= i < |scenes| ==> Truthy(scenes[i].name)
  }

  /** The scene POST / builds: description `''` and slots `{}` when absent or
      falsy, and the two clock readings as its stamps. */
  function NewScene(id: int, name: JsValue, description: JsValue, slots: Option<SlotMap>,
                    createdAt: Timestamp, updatedAt: Timestamp): (s: Scene)
    ensures s.id == id && s.name == name
    ensures s.description == if Truthy(description) then description else Str("")
    ensures s.slots == if slots.Some? then slots.value else map[]
    ensures s.createdAt == createdAt && s.updatedAt == updatedAt
  {
    Scene(id, name, if Truthy(description) then description else Str(""),
          if slots.Some? then slots.value else map[], createdAt, updatedAt)
  }

  /** PUT /:id applied to one scene: `id` and `createdAt` are kept, a falsy
      name keeps the old one, an undefined description or slots keeps the
      old value, and the stamp becomes `now`. */
  function Patched(s: Scene, name: JsValue, description: JsValue, slots: Option<SlotMap>, now: Timestamp)
    : (r: Scene)
    ensures r.id == s.id && r.createdAt == s.createdAt && r.updatedAt == now
    ensures Truthy(name) ==> r.name == name
    ensures !Truthy(name) ==> r.name == s.name
    ensures Truthy(s.name) ==> Truthy(r.name)
    ensures description == Undefined ==> r.description == s.description
    ensures description != Undefined ==> r.description == description
    ensures slots.None? ==> r.slots == s.slots
    ensures slots.Some? ==> r.slots == slots.value
  {
    s.(name := if Truthy(name) then name else s.name,
       description := if description != Undefined then description else s.description,
       slots := if slots.Some? then slots.value else s.slots,
       updatedAt := now)
  }

  /** The route module's `scenes` array. */
  class SceneList {
    var scenes: seq<Scene>

    ghost predicate Valid()
      reads this
    {
      Named(scenes)
    }

    constructor ()
      ensures Valid() && scenes == []
    {
      scenes := [];
    }

    /** GET /: every scene, in insertion order. */
    method List() returns (r: seq<Scene>)
      ensures r == scenes
    {
      r := scenes;
    }

    /** GET /:id: the first scene with that id, or 404. */
    method Get(id: Option<int>) returns (r: Http<Scene>)
      ensures r.Fail? <==> forall j :: 0 <= j < |scenes| ==> id != Some(scenes[j].id)
      ensures r.Fail? ==> r == Fail(404, NotFound)
      ensures r.Ok? ==> r.status == 200 && r.data == scenes[IndexOf(scenes, id)]
    {
      var i := IndexOf(scenes, id);
      if i == -1 {
        return Fail(404, NotFound);
      }
      r := Ok(200, scenes[i]);
    }

    /** POST /: 400 and no change for a falsy name; otherwise the new scene is
        appended and returned with status 201. */
    method Create(name: JsValue, description: JsValue, slots: Option<SlotMap>,
                  id: int, createdAt: Timestamp, updatedAt: Timestamp) returns (r: Http<Scene>)
      requires Valid()
      modifies this
      ensures Valid()
      ensures !Truthy(name) ==> r == Fail(400, NameRequired) && scenes == old(scenes)
      ensures Truthy(name) ==> r == Ok(201, NewScene(id, name, description, slots, createdAt, updatedAt))
      ensures Truthy(name) ==> scenes == old(scenes) + [r.data]
    {
      if !Truthy(name) {
        return Fail(400, NameRequired);
      }
      var scene := NewScene(id, name, description, slots, createdAt, updatedAt);
      scenes := scenes + [scene];
      r := Ok(201, scene);
    }

    /** PUT /:id: 404 and no change for an unknown id; otherwise the first
        match is patched in place and returned. */
    method Update(id: Option<int>, name: JsValue, description: JsValue, slots: Option<SlotMap>,
                  now: Timestamp) returns (r: Http<Scene>)
      requires Valid()
      modifies this
      ensures Valid()
      ensures IndexOf(old(scenes), id) == -1 ==> r == Fail(404, NotFound) && scenes == old(scenes)
      ensures IndexOf(old(scenes), id) != -1 ==>
                var i := IndexOf(old(scenes), id);
                && scenes == old(scenes)[i := Patched(old(scenes)[i], name, description, slots, now)]
                && r == Ok(200, scenes[i])
    {
      var i := IndexOf(scenes, id);
      if i == -1 {
        return Fail(404, NotFound);
      }
      scenes := scenes[i := Patched(scenes[i], name, description, slots, now)];
      r := Ok(200, scenes[i]);
    }

    /** DELETE /:id: 404 and no change for an unknown id; otherwise the first
        match is spliced out. */
    method Delete(id: Option<int>) returns (r: Http<()>)
      requires Valid()
      modifies this
      ensures Valid()
      ensures IndexOf(old(scenes), id) == -1 ==> r == Fail(404, NotFound) && scenes == old(scenes)
      ensures IndexOf(old(scenes), id) != -1 ==>
                r == Ok(200, ()) && scenes == Lists.RemoveAt(old(scenes), IndexOf(old(scenes), id))
    {
      var i := IndexOf(scenes, id);
      if i == -1 {
        return Fail(404, NotFound);
      }
      scenes := Lists.RemoveAt(scenes, i);
      r := Ok(200, ());
    }

    /** POST /:id/load: 404 and no change anywhere for an unknown id;
        otherwise the scene's slots are merged into `global.slots` (keys the
        scene does not mention keep their records), `scene:loaded` is
        broadcast, and the number of slots applied is reported. The scene
        list is never modified. */
    method Load(id: Option<int>, g: Globals, io: Io) returns (r: Http<LoadReport>)
      modifies g, g.slots, io
      ensures IndexOf(scenes, id) == -1 ==>
                && r == Fail(404, NotFound) && g.slots == old(g.slots)
                && Current(g) == old(Current(g)) && io.sent == old(io.sent)
      ensures IndexOf(scenes, id) != -1 ==>
                var scene := scenes[IndexOf(scenes, id)];
                && g.slots != null
                && (old(g.slots) != null ==> g.slots == old(g.slots))
                && (old(g.slots) == null ==> fresh(g.slots))
                && g.slots.slots == Spread(old(Current(g)), scene.slots)
                && io.sent == old(io.sent) + [Broadcast(SceneLoaded(Num(scene.id), scene.name, scene.slots))]
                && r == Ok(200, LoadReport(scene.id, scene.name, |scene.slots|))
    {
      var i := IndexOf(scenes, id);
      if i == -1 {
        return Fail(404, NotFound);
      }
      var scene := scenes[i];
      if g.slots == null {
        var created := new Registry();
        g.slots := created;
      }
      g.slots.MergeFrom(scene.slots);
      io.Emit(SceneLoaded(Num(scene.id), scene.name, scene.slots));
      r := Ok(200, LoadReport(scene.id, scene.name, |scene.slots|));
    }
  }

  /** A scene created under an id no stored scene has is what a get of that
      id then finds. */
  lemma CreateThenGet(scenes: seq<Scene>, s: Scene)
    requires IndexOf(scenes, Some(s.id)) == -1
    ensures IndexOf(scenes + [s], Some(s.id)) == |scenes|
    ensures (scenes + [s])[IndexOf(scenes + [s], Some(s.id))] == s
  {
    Lists.FindIndexAppend(scenes, s, HasId(Some(s.id)));
  }

  /** When at most one scene carries the id, deleting it leaves no scene with
      that id (a second delete is a 404), and the survivors are exactly the
      scenes whose id differs, in their order. */
  lemma DeleteThenGet(scenes: seq<Scene>, id: Option<int>)
    requires IndexOf(scenes, id) != -1
    requires forall j :: 0 <= j < |scenes| && j != IndexOf(scenes, id) ==> id != Some(scenes[j].id)
    ensures Lists.RemoveAt(scenes, IndexOf(scenes, id)) == Lists.Filter(scenes, Lists.Not(HasId(id)))
    ensures IndexOf(Lists.RemoveAt(scenes, IndexOf(scenes, id)), id) == -1
  {
    Lists.RemoveOnlyMatch(scenes, HasId(id), IndexOf(scenes, id));
    var rest := Lists.RemoveAt(scenes, IndexOf(scenes, id));
    forall j | 0 <= j < |rest|
      ensures id != Some(rest[j].id)
    {
      assert rest[j] in rest;
    }
  }

  /** Loading a scene twice in a row leaves the same slot map as loading it once. */
  lemma LoadTwice(m: SlotMap, scene: Scene)
    ensures Spread(Spread(m, scene.slots), scene.slots) == Spread(m, scene.slots)
  {
    SpreadIdempotent(m, scene.slots);
  }
}
