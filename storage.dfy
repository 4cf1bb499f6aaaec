/** The file-backed document store: one slots document (an object keyed by
    slot id) and two list documents (scenes, images). Every operation reads a
    whole document, changes it and writes the whole document back. */
module PersistentStorage {
  import opened Values
  import opened Records
  import Lists

  /** What a data file holds: nothing yet, something that cannot be read or
      parsed, or a parsed document. */
  datatype File<T> = Missing | Unreadable | Holds(doc: T)

  /** Reading a document: its parsed content, or the empty default when the
      read or the parse fails. */
  function ReadOr<T>(f: File<T>, default: T): (d: T)
    ensures f.Holds? ==> d == f.doc
    ensures !f.Holds? ==> d == default
  {
    if f.Holds? then f.doc else default
  }

  /** How a storage call's promise settles: with its value, or rejected
      because a write to disk failed. */
  datatype Settled<+T> = Resolved(value: T) | Rejected

  /** `ensureFile`: a missing file gets the default document when that write
      succeeds; a file that exists, readable or not, is left as it is. */
  function Ensured<T>(f: File<T>, default: T, writeOk: bool): (r: File<T>)
    ensures f.Missing? && writeOk ==> r == Holds(default)
    ensures !(f.Missing? && writeOk) ==> r == f
  {
    if f.Missing? && writeOk then Holds(default) else f
  }

  /** Whether `ensureFile` throws: the file is missing and writing its
      default fails. */
  predicate EnsureFails<T>(f: File<T>, writeOk: bool) {
    f.Missing? && !writeOk
  }

  /** A list document after `update(id, updates)`: the first match, when
      there is one, becomes `{...match, ...updates}`. */
  function Updated(items: seq<Record>, id: JsValue, updates: Record): (r: seq<Record>)
    ensures |r| == |items|
    ensures Lists.FindIndex(items, IdIs(id)) == -1 ==> r == items
    ensures Lists.FindIndex(items, IdIs(id)) != -1 ==>
              var i := Lists.FindIndex(items, IdIs(id));
              && r[i] == Spread(items[i], updates)
              && forall j :: 0 <= j < |items| && j != i ==> r[j] == items[j]
  {
    var i := Lists.FindIndex(items, IdIs(id));
    if i == -1 then items else items[i := Spread(items[i], updates)]
  }

  class Storage {
    var slotsFile: File<Record>
    var scenesFile: File<seq<Record>>
    var imagesFile: File<seq<Record>>

    /** The data files as found on disk when the server starts. */
    constructor (slotsOnDisk: File<Record>, scenesOnDisk: File<seq<Record>>, imagesOnDisk: File<seq<Record>>)
      ensures slotsFile == slotsOnDisk && scenesFile == scenesOnDisk && imagesFile == imagesOnDisk
    {
      slotsFile, scenesFile, imagesFile := slotsOnDisk, scenesOnDisk, imagesOnDisk;
    }

    /** `init`: after the data directory is made, each missing file is
        created holding its empty document, in the order slots, scenes,
        images. The first failure (the directory, or a default that cannot
        be written) is caught and the files after it are left as they were. */
    method Init(mkdirOk: bool, slotsWriteOk: bool, scenesWriteOk: bool, imagesWriteOk: bool)
      modifies this
      ensures var scenesReached := mkdirOk && !EnsureFails(old(slotsFile), slotsWriteOk);
              var imagesReached := scenesReached && !EnsureFails(old(scenesFile), scenesWriteOk);
              && slotsFile == (if mkdirOk then Ensured(old(slotsFile), map[], slotsWriteOk) else old(slotsFile))
              && scenesFile == (if scenesReached then Ensured(old(scenesFile), [], scenesWriteOk) else old(scenesFile))
              && imagesFile == (if imagesReached then Ensured(old(imagesFile), [], imagesWriteOk) else old(imagesFile))
      ensures mkdirOk && slotsWriteOk && scenesWriteOk && imagesWriteOk ==>
                !slotsFile.Missing? && !scenesFile.Missing? && !imagesFile.Missing?
    {
      if !mkdirOk || EnsureFails(slotsFile, slotsWriteOk) {
        return;
      }
      slotsFile := Ensured(slotsFile, map[], slotsWriteOk);
      if EnsureFails(scenesFile, scenesWriteOk) {
        return;
      }
      scenesFile := Ensured(scenesFile, [], scenesWriteOk);
      if EnsureFails(imagesFile, imagesWriteOk) {
        return;
      }
      imagesFile := Ensured(imagesFile, [], imagesWriteOk);
    }

    method GetSlots() returns (slots: Record)
      ensures slots == ReadOr(slotsFile, map[])
    {
      slots := if slotsFile.Holds? then slotsFile.doc else map[];
    }

    /** `setSlots`: the file holds exactly the given map once the write
        succeeds; a failed write rejects and leaves the file as it was. */
    method SetSlots(slots: Record, writeOk: bool) returns (r: Settled<()>)
      modifies this
      ensures writeOk ==> r == Resolved(()) && slotsFile == Holds(slots)
      ensures !writeOk ==> r == Rejected && slotsFile == old(slotsFile)
      ensures scenesFile == old(scenesFile) && imagesFile == old(imagesFile)
    {
      if !writeOk {
        return Rejected;
      }
      slotsFile := Holds(slots);
      r := Resolved(());
    }

    /** `setSlot`: the stored object with `data` under `slotId`, written back
        and returned whole, or a rejection when the write fails. */
    method SetSlot(slotId: string, data: JsValue, writeOk: bool) returns (r: Settled<Record>)
      modifies this
      ensures var slots := ReadOr(old(slotsFile), map[])[slotId := data];
              && (writeOk ==> r == Resolved(slots) && slotsFile == Holds(slots))
              && (!writeOk ==> r == Rejected && slotsFile == old(slotsFile))
      ensures scenesFile == old(scenesFile) && imagesFile == old(imagesFile)
    {
      var slots := GetSlots();
      slots := slots[slotId := data];
      var written := SetSlots(slots, writeOk);
      if written.Rejected? {
        return Rejected;
      }
      r := Resolved(slots);
    }

    method GetScenes() returns (scenes: seq<Record>)
      ensures scenes == ReadOr(scenesFile, [])
    {
      scenes := if scenesFile.Holds? then scenesFile.doc else [];
    }

    /** `setScenes`: as `setSlots`, on the scenes file. */
    method SetScenes(scenes: seq<Record>, writeOk: bool) returns (r: Settled<()>)
      modifies this
      ensures writeOk ==> r == Resolved(()) && scenesFile == Holds(scenes)
      ensures !writeOk ==> r == Rejected && scenesFile == old(scenesFile)
      ensures slotsFile == old(slotsFile) && imagesFile == old(imagesFile)
    {
      if !writeOk {
        return Rejected;
      }
      scenesFile := Holds(scenes);
      r := Resolved(());
    }

    /** `addScene`: appended at the end and returned as given, or a
        rejection when the write fails. */
    method AddScene(scene: Record, writeOk: bool) returns (r: Settled<Record>)
      modifies this
      ensures writeOk ==> r == Resolved(scene) && scenesFile == Holds(ReadOr(old(scenesFile), []) + [scene])
      ensures !writeOk ==> r == Rejected && scenesFile == old(scenesFile)
      ensures slotsFile == old(slotsFile) && imagesFile == old(imagesFile)
    {
      var scenes := GetScenes();
      scenes := scenes + [scene];
      var written := SetScenes(scenes, writeOk);
      if written.Rejected? {
        return Rejected;
      }
      r := Resolved(scene);
    }

    /** `updateScene`: null and no write when no scene has the id; otherwise
        the merged scene is written back and returned, or the call rejects
        when the write fails. */
    method UpdateScene(sceneId: JsValue, updates: Record, writeOk: bool) returns (r: Settled<Option<Record>>)
      modifies this
      ensures var before := ReadOr(old(scenesFile), []);
              var i := Lists.FindIndex(before, IdIs(sceneId));
              && (i == -1 ==> r == Resolved(None) && scenesFile == old(scenesFile))
              && (i != -1 && writeOk ==>
                    && r == Resolved(Some(Spread(before[i], updates)))
                    && scenesFile == Holds(Updated(before, sceneId, updates)))
              && (i != -1 && !writeOk ==> r == Rejected && scenesFile == old(scenesFile))
      ensures slotsFile == old(slotsFile) && imagesFile == old(imagesFile)
    {
      var scenes := GetScenes();
      var index := Lists.FindIndex(scenes, IdIs(sceneId));
      if index == -1 {
        return Resolved(None);
      }
      scenes := scenes[index := Spread(scenes[index], updates)];
      var written := SetScenes(scenes, writeOk);
      if written.Rejected? {
        return Rejected;
      }
      r := Resolved(Some(scenes[index]));
    }

    /** `deleteScene`: the filtered list is written back and the answer says
        whether it got shorter; a failed write rejects. */
    method DeleteScene(sceneId: JsValue, writeOk: bool) returns (r: Settled<bool>)
      modifies this
      ensures var before := ReadOr(old(scenesFile), []);
              && (writeOk ==>
                    && scenesFile == Holds(Without(before, sceneId))
                    && r == Resolved(|Without(before, sceneId)| < |before|))
              && (!writeOk ==> r == Rejected && scenesFile == old(scenesFile))
      ensures slotsFile == old(slotsFile) && imagesFile == old(imagesFile)
    {
      var scenes := GetScenes();
      var filtered := Without(scenes, sceneId);
      var written := SetScenes(filtered, writeOk);
      if written.Rejected? {
        return Rejected;
      }
      r := Resolved(|filtered| < |scenes|);
    }

    method GetImages() returns (images: seq<Record>)
      ensures images == ReadOr(imagesFile, [])
    {
      images := if imagesFile.Holds? then imagesFile.doc else [];
    }

    /** `setImages`: as `setSlots`, on the images file. */
    method SetImages(images: seq<Record>, writeOk: bool) returns (r: Settled<()>)
      modifies this
      ensures writeOk ==> r == Resolved(()) && imagesFile == Holds(images)
      ensures !writeOk ==> r == Rejected && imagesFile == old(imagesFile)
      ensures slotsFile == old(slotsFile) && scenesFile == old(scenesFile)
    {
      if !writeOk {
        return Rejected;
      }
      imagesFile := Holds(images);
      r := Resolved(());
    }

    /** `addImage`: as `addScene`, on the image list. */
    method AddImage(image: Record, writeOk: bool) returns (r: Settled<Record>)
      modifies this
      ensures writeOk ==> r == Resolved(image) && imagesFile == Holds(ReadOr(old(imagesFile), []) + [image])
      ensures !writeOk ==> r == Rejected && imagesFile == old(imagesFile)
      ensures slotsFile == old(slotsFile) && scenesFile == old(scenesFile)
    {
      var images := GetImages();
      images := images + [image];
      var written := SetImages(images, writeOk);
      if written.Rejected? {
        return Rejected;
      }
      r := Resolved(image);
    }

    /** `updateImage`: as `updateScene`, on the image list. */
    method UpdateImage(imageId: JsValue, updates: Record, writeOk: bool) returns (r: Settled<Option<Record>>)
      modifies this
      ensures var before := ReadOr(old(imagesFile), []);
              var i := Lists.FindIndex(before, IdIs(imageId));
              && (i == -1 ==> r == Resolved(None) && imagesFile == old(imagesFile))
              && (i != -1 && writeOk ==>
                    && r == Resolved(Some(Spread(before[i], updates)))
                    && imagesFile == Holds(Updated(before, imageId, updates)))
              && (i != -1 && !writeOk ==> r == Rejected && imagesFile == old(imagesFile))
      ensures slotsFile == old(slotsFile) && scenesFile == old(scenesFile)
    {
      var images := GetImages();
      var index := Lists.FindIndex(images, IdIs(imageId));
      if index == -1 {
        return Resolved(None);
      }
      images := images[index := Spread(images[index], updates)];
      var written := SetImages(images, writeOk);
      if written.Rejected? {
        return Rejected;
      }
      r := Resolved(Some(images[index]));
    }

    /** `deleteImage`: as `deleteScene`, on the image list. */
    method DeleteImage(imageId: JsValue, writeOk: bool) returns (r: Settled<bool>)
      modifies this
      ensures var before := ReadOr(old(imagesFile), []);
              && (writeOk ==>
                    && imagesFile == Holds(Without(before, imageId))
                    && r == Resolved(|Without(before, imageId)| < |before|))
              && (!writeOk ==> r == Rejected && imagesFile == old(imagesFile))
      ensures slotsFile == old(slotsFile) && scenesFile == old(scenesFile)
    {
      var images := GetImages();
      var filtered := Without(images, imageId);
      var written := SetImages(filtered, writeOk);
      if written.Rejected? {
        return Rejected;
      }
      r := Resolved(|filtered| < |images|);
    }
  }

  /** An item appended under an id no stored item has is what an update of
      that id then merges into, at the end of the list. */
  lemma AddThenUpdate(items: seq<Record>, item: Record, updates: Record)
    requires !Get(item, "id").Obj?
    requires Lists.FindIndex(items, IdIs(Get(item, "id"))) == -1
    ensures Updated(items + [item], Get(item, "id"), updates) == items + [Spread(item, updates)]
  {
    Lists.FindIndexAppend(items, item, IdIs(Get(item, "id")));
  }
}
