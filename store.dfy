/** The control panel's application store: each action builds the next state
    from the current one and touches only its own part of it. */
module Store {
  import opened Values
  import opened Records
  import Lists

  datatype State = State(slots: Record, scenes: seq<Record>, currentScene: JsValue,
                         images: seq<Record>, isConnected: JsValue, isLoading: JsValue)

  /** Before any action: no slots, scenes or images, no current scene, not
      connected, not loading. */
  const Initial := State(map[], [], Null, [], Bool(false), Bool(false))

  /** What `clearSlot` stores: all three fields null. */
  const ClearedSlot := Obj(map["imageId" := Null, "imageUrl" := Null, "updatedAt" := Null])

  /** `setSlot(slotId, data)`: the id maps to `data`, every other slot is kept. */
  function SetSlot(st: State, slotId: string, data: JsValue): (r: State)
    ensures r.slots.Keys == st.slots.Keys + {slotId} && r.slots[slotId] == data
    ensures forall k :: k in st.slots && k != slotId ==> r.slots[k] == st.slots[k]
    ensures r == st.(slots := r.slots)
  {
    st.(slots := Spread(st.slots, map[slotId := data]))
  }

  /** `setSlots(slots)`: the whole map is replaced. */
  function SetSlots(st: State, slots: Record): (r: State)
    ensures r.slots == slots && r == st.(slots := slots)
  {
    st.(slots := slots)
  }

  /** `clearSlot(slotId)`: the id maps to the all-null record, every other slot is kept. */
  function ClearSlot(st: State, slotId: string): (r: State)
    ensures r.slots.Keys == st.slots.Keys + {slotId} && r.slots[slotId] == ClearedSlot
    ensures forall k :: k in st.slots && k != slotId ==> r.slots[k] == st.slots[k]
    ensures r == st.(slots := r.slots)
  {
    st.(slots := Spread(st.slots, map[slotId := ClearedSlot]))
  }

  function SetScenes(st: State, scenes: seq<Record>): (r: State)
    ensures r.scenes == scenes && r == st.(scenes := scenes)
  {
    st.(scenes := scenes)
  }

  /** `addScene(scene)`: appended at the end, the earlier scenes untouched. */
  function AddScene(st: State, scene: Record): (r: State)
    ensures |r.scenes| == |st.scenes| + 1 && r.scenes[..|st.scenes|] == st.scenes
    ensures r.scenes[|st.scenes|] == scene
    ensures r == st.(scenes := r.scenes)
  {
    st.(scenes := st.scenes + [scene])
  }

  /** The `map` callback of `updateScene`. */
  function MergeIfId(sceneId: JsValue, data: Record): Record -> Record {
    (s: Record) => if StrictEquals(Get(s, "id"), sceneId) then Spread(s, data) else s
  }

  /** `updateScene(sceneId, data)`: every scene with the id becomes
      `{...scene, ...data}`, the others stay, the length is kept. */
  function UpdateScene(st: State, sceneId: JsValue, data: Record): (r: State)
    ensures |r.scenes| == |st.scenes|
    ensures forall i :: 0 <= i < |st.scenes| && StrictEquals(Get(st.scenes[i], "id"), sceneId) ==>
              r.scenes[i] == Spread(st.scenes[i], data)
    ensures forall i :: 0 <= i < |st.scenes| && !StrictEquals(Get(st.scenes[i], "id"), sceneId) ==>
              r.scenes[i] == st.scenes[i]
    ensures r == st.(scenes := r.scenes)
  {
    st.(scenes := Lists.Map(st.scenes, MergeIfId(sceneId, data)))
  }

  /** `deleteScene(sceneId)`: every scene with the id is dropped, the rest keep their order. */
  function DeleteScene(st: State, sceneId: JsValue): (r: State)
    ensures r.scenes == Without(st.scenes, sceneId) && r == st.(scenes := r.scenes)
  {
    st.(scenes := Without(st.scenes, sceneId))
  }

  function SetCurrentScene(st: State, sceneId: JsValue): (r: State)
    ensures r.currentScene == sceneId && r == st.(currentScene := sceneId)
  {
    st.(currentScene := sceneId)
  }

  function SetImages(st: State, images: seq<Record>): (r: State)
    ensures r.images == images && r == st.(images := images)
  {
    st.(images := images)
  }

  /** `addImage(image)`: appended at the end, the earlier images untouched. */
  function AddImage(st: State, image: Record): (r: State)
    ensures |r.images| == |st.images| + 1 && r.images[..|st.images|] == st.images
    ensures r.images[|st.images|] == image
    ensures r == st.(images := r.images)
  {
    st.(images := st.images + [image])
  }

  /** `deleteImage(imageId)`: every image with the id is dropped, the rest keep their order. */
  function DeleteImage(st: State, imageId: JsValue): (r: State)
    ensures r.images == Without(st.images, imageId) && r == st.(images := r.images)
  {
    st.(images := Without(st.images, imageId))
  }

  function SetConnected(st: State, isConnected: JsValue): (r: State)
    ensures r.isConnected == isConnected && r == st.(isConnected := isConnected)
  {
    st.(isConnected := isConnected)
  }

  function SetLoading(st: State, isLoading: JsValue): (r: State)
    ensures r.isLoading == isLoading && r == st.(isLoading := isLoading)
  {
    st.(isLoading := isLoading)
  }

  /** Clearing a slot twice is clearing it once, and a cleared slot can be
      set again like any other. */
  lemma ClearSlotIdempotent(st: State, slotId: string)
    ensures ClearSlot(ClearSlot(st, slotId), slotId) == ClearSlot(st, slotId)
  {
    var once := ClearSlot(st, slotId);
    assert Spread(once.slots, map[slotId := ClearedSlot]) == once.slots;
  }

  /** Deleting a scene or an image twice is deleting it once. */
  lemma DeleteIdempotent(st: State, id: JsValue)
    ensures DeleteScene(DeleteScene(st, id), id) == DeleteScene(st, id)
    ensures DeleteImage(DeleteImage(st, id), id) == DeleteImage(st, id)
  {
    WithoutIdempotent(st.scenes, id);
    WithoutIdempotent(st.images, id);
  }

  /** After a delete no scene carries the id, and a scene that did not carry
      it is still there as often as before. */
  lemma DeleteSceneRemovesAll(st: State, sceneId: JsValue, s: Record)
    ensures forall i :: 0 <= i < |DeleteScene(st, sceneId).scenes| ==>
              !StrictEquals(Get(DeleteScene(st, sceneId).scenes[i], "id"), sceneId)
    ensures !StrictEquals(Get(s, "id"), sceneId) ==>
              multiset(DeleteScene(st, sceneId).scenes)[s] == multiset(st.scenes)[s]
  {
    var r := DeleteScene(st, sceneId).scenes;
    assert forall i :: 0 <= i < |r| ==> r[i] in r;
    WithoutCounts(st.scenes, sceneId, s);
  }

  /** An update whose data has no `id` key keeps every scene's id, so it never
      changes which scenes a later update or delete of an id reaches. */
  lemma UpdateSceneKeepsIds(st: State, sceneId: JsValue, data: Record)
    requires "id" !in data
    ensures forall i :: 0 <= i < |st.scenes| ==>
              Get(UpdateScene(st, sceneId, data).scenes[i], "id") == Get(st.scenes[i], "id")
  {
  }

  /** From the store's initial state, adding a scene and deleting it by its
      id gives the initial state back. */
  lemma InitialAddDelete(scene: Record)
    requires !Get(scene, "id").Obj?
    ensures DeleteScene(AddScene(Initial, scene), Get(scene, "id")) == Initial
  {
    AddThenDeleteScene(Initial, scene);
    assert Without([], Get(scene, "id")) == [];
  }

  /** A scene that is added and then deleted by its id leaves the scene list
      as it would be had it been deleted from the list alone. */
  lemma AddThenDeleteScene(st: State, scene: Record)
    requires !Get(scene, "id").Obj?
    ensures DeleteScene(AddScene(st, scene), Get(scene, "id")).scenes == Without(st.scenes, Get(scene, "id"))
  {
    var id := Get(scene, "id");
    WithoutKeepsOrder(st.scenes, [scene], id);
    assert Without([scene], id) == [];
  }
}
