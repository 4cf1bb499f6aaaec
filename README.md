# Slot and scene state of the remote media controller, in Dafny

This project models the state layer of a remote-control tool. An operator
pushes images into numbered *slots* that a streaming tool displays. *Scenes*
are named snapshots of slot configurations. The model covers these parts:

- **Shared slot registry** (`Slots`). The server keeps one mutable object
  mapping slot ids to `{imageId, imageUrl, updatedAt}`. The socket service
  creates it and publishes it as `global.slots`, so the REST routes and the
  socket handlers change the same object. `Registry` is that object and
  `Globals` is `global.slots`. `Wiring` shows the sharing by object
  identity. Every broadcast becomes an `Emission` appended to `Io.sent`.
- **REST slot routes** (`SlotRoutes`). These are get-all, get-one (a slot
  that was never set reads as all-null), update and clear. Update replaces a
  falsy image field with null and stamps the record. Clear nulls the stamp.
  Each change is followed by a `slot:updated` broadcast.
- **Socket handlers** (`SocketService`). On connect the new client gets a
  status message and the current slot map. The handlers are `slot:update`,
  `slot:clear`, `ping` → `pong`, and `scene:load`, which merges a fixed mock
  scene into the map.
- **Scene routes** (`SceneRoutes`). This is CRUD over the route module's own
  scene list. Create rejects a falsy name with 400. An unknown id gives 404.
  Load merges the scene's slots into `global.slots`.
- **Document store** (`PersistentStorage`, `Records`). Each of the slots,
  scenes and images documents is a value in a `File` state (missing,
  unreadable or holding a document). Each operation reads, changes and
  writes back the whole document. Reading falls back to `{}` or `[]`.
- **Image routes** (`ImageRoutes`). These cover upload, add-by-URL, delete,
  the MIME allow-list, the size limit and how the upload URL is built.
- **Control-panel store** (`Store`). These are pure reducers over slots,
  scenes, images and flags.
- **Toast queue** (`Toast`). `addToast` merges defaults, appends the toast
  and schedules expiry. There are also removal, an explicit expiry step and
  the four helpers.

JavaScript values are `Values.JsValue`, with JavaScript truthiness (`||`
defaults) and shallow merge (`{...a, ...b}` is `map` union, right side
winning).

Notes on the code's behaviour:
- A scene load **merges** the scene's slots into the slot map (backend/src/routes/scenes.js:129-132,
  backend/src/services/websocketService.js:61-63). Slots the scene does not
  mention keep their records.
- The `scene:loaded` event carries the scene's id, name and slots, and nothing else.
- The scene and image routes keep their lists in memory. They never call the document store.
- The socket `scene:load` handler loads a fixed mock scene whatever id it is
  given, so it has no lookup and no failure case.
- Deleting an unknown scene over REST answers 404.

## Model

| member | source | states |
|---|---|---|
| Values.OrNull | backend/src/routes/slots.js:38-39 | `v \|\| null` is null exactly for falsy values (`''`, `0`, `false`, null, undefined) and is `v` itself otherwise |
| Values.Spread | backend/src/services/storage.js:85 | `{...a, ...b}` has the keys of both; `b`'s value wins on shared keys; `a`'s are kept elsewhere |
| Values.SpreadIdempotent | backend/src/routes/scenes.js:129-132 | copying the same entries into an object a second time changes nothing |
| Values.Truthy | backend/src/routes/slots.js:38-39 | JavaScript truthiness: `undefined`, `null`, `false`, `0` and `''` are falsy, everything else truthy |
| Values.StrictEquals | backend/src/services/storage.js:82 | `===` on primitives is value equality; objects are never taken to be identical |
| Lists.FindIndex | backend/src/routes/scenes.js:66 | `findIndex` returns -1 iff nothing matches; otherwise it returns a matching index with no match before it |
| Lists.Filter | backend/src/services/storage.js:92 | `filter` keeps only elements that pass, loses no element that passes, and never grows |
| Lists.FilterAppend | backend/src/services/storage.js:92 | filtering distributes over concatenation, so the survivors keep their relative order |
| Lists.FilterCounts | backend/src/services/storage.js:92 | each value occurs in the result as often as in the input if kept, and zero times otherwise |
| Lists.FilterShrinks | backend/src/services/storage.js:94 | the filtered list is shorter iff some element fails the test |
| Lists.FilterKeepsAll | backend/src/services/storage.js:92 | when every element passes, the result is the input |
| Lists.FilterIdempotent | frontend/src/store/index.js:47-49 | filtering twice by one test equals filtering once |
| Lists.FindIndexAppend | backend/src/routes/scenes.js:53 | an element appended after a match-free prefix is found at the old length |
| Lists.RemoveAt | backend/src/routes/scenes.js:106 | `splice(i, 1)` shortens by one; elements before `i` stay put and later ones shift down by one |
| Lists.RemoveAtCounts | backend/src/routes/images.js:141 | a splice removes one occurrence of the element at `i` and keeps every other element |
| Lists.Splice | backend/src/routes/images.js:141 | `splice(i, 1)` at any index: an index inside the list removes that element and shifts the later ones down; an index past the end removes nothing |
| Lists.FilterDropsOne | backend/src/routes/scenes.js:96-106 | filtering out the one failing element between two passing runs joins the runs |
| Lists.RemoveOnlyMatch | backend/src/routes/scenes.js:96-106 | when an element is the only match, splicing it out equals filtering out every match |
| Lists.Map | frontend/src/store/index.js:44 | `map` keeps the length and applies the callback at each position |
| Slots.Stamped | backend/src/routes/slots.js:37-41 | an update stores the normalised image fields and a non-null stamp equal to the clock reading |
| Slots.Lookup | backend/src/routes/slots.js:17-21 | a stored slot reads as its record; an unknown slot reads as all three fields null |
| Slots.Registry.MergeFrom | backend/src/routes/scenes.js:130-132 | the `forEach` over the scene's entries leaves the map equal to `{...old, ...entries}`: every scene key maps to the scene's record, every other key keeps its record |
| Slots.Registry.constructor | backend/src/services/websocketService.js:2 | the service's slot object starts empty |
| Slots.Globals.constructor | backend/src/routes/slots.js:9 | `global.slots` is unset until something installs a slot object |
| Slots.Io.Emit | backend/src/routes/slots.js:47-51 | `io.emit` appends one broadcast of the event to everything sent so far |
| Slots.Io.EmitTo | backend/src/services/websocketService.js:9-12 | `socket.emit` appends one message of the event addressed to that client only |
| Slots.Current | backend/src/routes/slots.js:9 | `global.slots \|\| {}` is the registry's map, or empty while unset |
| SlotRoutes.View | backend/src/routes/slots.js:23-29 | a response's `data` is the slot id followed by the slot's three fields |
| SlotRoutes.GetAll | backend/src/routes/slots.js:5-12 | GET all answers the shared map, or `{}` when none is installed |
| SlotRoutes.GetOne | backend/src/routes/slots.js:15-30 | GET one answers the stored record, or all-null fields for an unknown slot, and changes nothing |
| SlotRoutes.Update | backend/src/routes/slots.js:33-61 | PUT changes only that slot's entry to the normalised, stamped record; broadcasts the same fields with `timestamp` equal to `updatedAt`; answers the record |
| SlotRoutes.Clear | backend/src/routes/slots.js:64-92 | DELETE sets only that slot to all-null (the key stays); the broadcast and the reply carry null image fields |
| SlotRoutes.UpdateThenGet | backend/src/routes/slots.js:37-44 | after an update the slot reads back as the normalised inputs with a non-null stamp; other slots read as before |
| SlotRoutes.ClearedReadsAsUnset | backend/src/routes/slots.js:67-72 | a cleared slot reads like a never-set one, its key is present, and clearing again changes nothing |
| SocketService.Service.constructor | backend/src/services/websocketService.js:106 | `global.slots` becomes the service's own (fresh, empty) slot object |
| SocketService.Service.OnConnection | backend/src/services/websocketService.js:9-19 | a new client alone is sent its status and then the unchanged current map |
| SocketService.Service.OnSlotUpdate | backend/src/services/websocketService.js:22-41 | `slot:update` stores the normalised stamped record under the slot, changes no other key, and broadcasts the same normalised image fields |
| SocketService.Service.OnSceneLoad | backend/src/services/websocketService.js:44-73 | `scene:load` merges the mock scene's slots into the map and broadcasts `scene:loaded` with the requested id |
| SocketService.Service.OnSlotClear | backend/src/services/websocketService.js:76-93 | `slot:clear` sets all three fields null and broadcasts null image fields |
| SocketService.Service.OnPing | backend/src/services/websocketService.js:96-98 | `ping` sends `pong` to the asking client only and leaves the slot map alone |
| SocketService.MockLoadEffect | backend/src/services/websocketService.js:51-63 | the mock scene overwrites slots "1" and "2" only; other slots are kept; applying it twice equals once |
| SceneRoutes.IndexOf | backend/src/routes/scenes.js:18 | finds the first scene whose id equals the parsed id; an unparsable id matches none |
| SceneRoutes.NewScene | backend/src/routes/scenes.js:44-51 | a new scene keeps id and name; description defaults to `''` and slots to `{}`; the two stamps are the two clock readings |
| SceneRoutes.Patched | backend/src/routes/scenes.js:77-83 | an update keeps `id` and `createdAt`; it keeps the old name for a falsy name and the old description/slots when undefined; a truthy name stays truthy |
| SceneRoutes.SceneList.constructor | backend/src/routes/scenes.js:5 | the scene list starts empty |
| SceneRoutes.SceneList.List | backend/src/routes/scenes.js:8-13 | GET all answers the list in insertion order |
| SceneRoutes.SceneList.Get | backend/src/routes/scenes.js:16-31 | GET one is 404 iff no scene has the id; otherwise it answers the first match |
| SceneRoutes.SceneList.Create | backend/src/routes/scenes.js:34-61 | a falsy name gives 400 and no change; otherwise exactly one scene is appended at the end and answered with 201; every stored name stays truthy |
| SceneRoutes.SceneList.Update | backend/src/routes/scenes.js:64-91 | an unknown id gives 404 and no change; otherwise only the first match is patched and the length is kept |
| SceneRoutes.SceneList.Delete | backend/src/routes/scenes.js:94-114 | an unknown id gives 404 and no change; otherwise the first match is spliced out |
| SceneRoutes.SceneList.Load | backend/src/routes/scenes.js:117-153 | an unknown id gives 404 and changes neither the slots nor the broadcasts; otherwise the scene is merged into `global.slots` (a fresh object when it was unset), broadcast, and `slotsUpdated` is its key count; the scene list is never modified |
| SceneRoutes.CreateThenGet | backend/src/routes/scenes.js:53 | a scene created under a fresh id is the one a later get of that id finds |
| SceneRoutes.DeleteThenGet | backend/src/routes/scenes.js:96-106 | with at most one scene per id, a delete equals filtering out that id and a second delete is 404 |
| SceneRoutes.LoadTwice | backend/src/routes/scenes.js:129-132 | loading a scene twice in a row leaves the same slot map as loading once |
| PersistentStorage.ReadOr | backend/src/services/storage.js:39-46 | a read gives the parsed document, or the empty default when the read or parse fails |
| PersistentStorage.Ensured | backend/src/services/storage.js:30-36 | a missing file gets the default document when the write succeeds; an existing file is untouched even if unreadable |
| PersistentStorage.Updated | backend/src/services/storage.js:80-88 | update shallow-merges into the first match only (update fields win); other elements and the length are kept; with no match nothing changes |
| PersistentStorage.Storage.constructor | backend/src/services/storage.js:5-13 | the store starts from the files as found on disk |
| PersistentStorage.Storage.Init | backend/src/services/storage.js:15-36 | after `mkdir`, each missing file is created holding its empty document, in order; the first failure stops the rest; with every step succeeding no file is missing |
| PersistentStorage.Storage.GetSlots | backend/src/services/storage.js:39-46 | answers the slots document, or `{}` on failure |
| PersistentStorage.Storage.SetSlots | backend/src/services/storage.js:48-50 | once the write succeeds the slots file holds exactly the given map; a failed write rejects and leaves it; the other files are unchanged |
| PersistentStorage.Storage.SetSlot | backend/src/services/storage.js:52-57 | stores `data` at the id, keeps the other keys, writes back, and returns the whole map; a failed write rejects with the file unchanged |
| PersistentStorage.Storage.GetScenes | backend/src/services/storage.js:60-67 | answers the scenes document, or `[]` on failure |
| PersistentStorage.Storage.SetScenes | backend/src/services/storage.js:69-71 | once the write succeeds the scenes file holds exactly the given list; a failed write rejects and leaves it |
| PersistentStorage.Storage.AddScene | backend/src/services/storage.js:73-78 | appends the scene at the end and returns it; a failed write rejects with the file unchanged |
| PersistentStorage.Storage.UpdateScene | backend/src/services/storage.js:80-88 | gives null and no write when no scene has the id; otherwise writes and returns the merged first match, or rejects with the file unchanged when the write fails |
| PersistentStorage.Storage.DeleteScene | backend/src/services/storage.js:90-95 | writes back every scene with another id and answers whether the list shrank, or rejects with the file unchanged when the write fails |
| PersistentStorage.Storage.GetImages | backend/src/services/storage.js:98-105 | answers the images document, or `[]` on failure |
| PersistentStorage.Storage.SetImages | backend/src/services/storage.js:107-109 | once the write succeeds the images file holds exactly the given list; a failed write rejects and leaves it |
| PersistentStorage.Storage.AddImage | backend/src/services/storage.js:111-116 | appends the image at the end and returns it; a failed write rejects with the file unchanged |
| PersistentStorage.Storage.UpdateImage | backend/src/services/storage.js:118-126 | gives null and no write when no image has the id; otherwise writes and returns the merged first match, or rejects with the file unchanged when the write fails |
| PersistentStorage.Storage.DeleteImage | backend/src/services/storage.js:128-133 | writes back every image with another id and answers whether the list shrank, or rejects with the file unchanged when the write fails |
| PersistentStorage.AddThenUpdate | backend/src/services/storage.js:73-88 | an item added under an id no stored item has (any non-object value, `undefined` included) is the one a later update of that id merges into |
| Records.Without | backend/src/services/storage.js:92 | the delete filter keeps only elements whose id differs |
| Records.WithoutCounts | backend/src/services/storage.js:92 | every element with another id survives, as often as before |
| Records.WithoutShrinks | backend/src/services/storage.js:94 | a delete answers true iff some element carried the id |
| Records.WithoutIdempotent | frontend/src/store/index.js:47-49 | deleting the same id twice equals deleting it once |
| Records.WithoutKeepsOrder | frontend/src/store/index.js:59-61 | survivors keep their relative order |
| ImageRoutes.FileFilter | backend/src/routes/images.js:24-31 | a file is accepted iff its MIME type is png, jpeg, jpg, gif or webp; otherwise it is rejected with the invalid-type message |
| ImageRoutes.AcceptedAreImages | backend/src/routes/images.js:25-26 | every accepted type starts with `image/`; SVG is rejected |
| ImageRoutes.MaxFileSize | backend/src/routes/images.js:23 | the size limit is the configured value unless that is unset, unparsable or 0, in which case it is 10 MiB |
| ImageRoutes.UploadUrl | backend/src/routes/images.js:57-64 | the upload URL is `PUBLIC_URL` (or protocol://host) + `/uploads/` + filename, and each part can be read back off it at its position |
| ImageRoutes.UploadedImage | backend/src/routes/images.js:66-75 | an uploaded entry records the file's name, original name, MIME type and size, type `uploaded`, and the built URL |
| ImageRoutes.ExternalImage | backend/src/routes/images.js:99-105 | a URL entry has type `url`; its name defaults to "External Image" when falsy |
| ImageRoutes.FileToUnlink | backend/src/routes/images.js:132 | a delete unlinks a file iff the entry is an upload with a non-empty filename |
| ImageRoutes.ImageList.constructor | backend/src/routes/images.js:35 | the library starts empty |
| ImageRoutes.ImageList.List | backend/src/routes/images.js:38-43 | GET all answers the library in insertion order |
| ImageRoutes.ImageList.Upload | backend/src/routes/images.js:46-86 | no file gives 400 and no change; otherwise one uploaded entry is appended and answered with 201 |
| ImageRoutes.ImageList.AddByUrl | backend/src/routes/images.js:89-115 | a falsy URL gives 400 and no change; otherwise one URL entry is appended and answered with 201; every entry keeps a truthy URL |
| ImageRoutes.ImageList.DeleteStart | backend/src/routes/images.js:119-132 | before the `await`: 404 iff no image has the id; otherwise the index of the first match and the file to unlink; nothing changes |
| ImageRoutes.ImageList.DeleteFinish | backend/src/routes/images.js:141 | after the `await`, as written: `splice` at the index found before the await, whatever the list has become |
| ImageRoutes.ImageList.DeleteFinishById | backend/src/routes/images.js:141 | after the `await`, corrected: the entry is looked up by id again and only the first entry with that id is removed |
| ImageRoutes.ImageList.Delete | backend/src/routes/images.js:118-147 | run to completion: an unknown id gives 404 and no change; otherwise the first match is spliced out whatever the unlink outcome |
| ImageRoutes.Removed | backend/src/routes/images.js:120-141 | a delete by id removes one entry when some entry has the id, and none otherwise |
| ImageRoutes.RefindKeepsOthers | backend/src/routes/images.js:120-141 | whatever happened to the list during the `await`, a delete that looks its entry up again keeps every entry with another id, as often as before |
| ImageRoutes.StaleIndexRace | backend/src/routes/images.js:120-141 | two deletes of the uploaded image 1 from [1, 2]: both have a file to unlink, so both suspend at the `await`; the interleaving leaves the library empty, so image 2 is removed though no request named it |
| ImageRoutes.RefindRace | backend/src/routes/images.js:120-141 | the same two uploaded images and the same interleaving with the corrected finish leave exactly image 2 |
| Store.SetSlot | frontend/src/store/index.js:21-26 | the id maps to the data; every other slot and all other state are unchanged |
| Store.SetSlots | frontend/src/store/index.js:28 | the slot map is replaced whole; nothing else changes |
| Store.ClearSlot | frontend/src/store/index.js:30-35 | the id maps to the all-null record; every other slot and all other state are unchanged |
| Store.SetScenes | frontend/src/store/index.js:37 | the scene list is replaced; nothing else changes |
| Store.AddScene | frontend/src/store/index.js:39-41 | one scene is appended; the old list is the unchanged prefix; slots and images are untouched |
| Store.UpdateScene | frontend/src/store/index.js:43-45 | every scene with the id becomes its shallow merge with the data; the others and the length are kept |
| Store.DeleteScene | frontend/src/store/index.js:47-49 | the scene list loses exactly the scenes with the id; nothing else changes |
| Store.SetCurrentScene | frontend/src/store/index.js:51 | only the current scene changes |
| Store.SetImages | frontend/src/store/index.js:53 | the image list is replaced; nothing else changes |
| Store.AddImage | frontend/src/store/index.js:55-57 | one image is appended; the old list is the unchanged prefix; slots and scenes are untouched |
| Store.DeleteImage | frontend/src/store/index.js:59-61 | the image list loses exactly the images with the id; nothing else changes |
| Store.SetConnected | frontend/src/store/index.js:63 | only the connection flag changes |
| Store.SetLoading | frontend/src/store/index.js:65 | only the loading flag changes |
| Store.ClearSlotIdempotent | frontend/src/store/index.js:30-35 | clearing a slot twice equals clearing once |
| Store.DeleteIdempotent | frontend/src/store/index.js:47-61 | deleting a scene or image id twice equals deleting once |
| Store.DeleteSceneRemovesAll | frontend/src/store/index.js:47-49 | after a delete no scene has the id; every other scene is kept as often as before |
| Store.UpdateSceneKeepsIds | frontend/src/store/index.js:43-45 | an update whose data has no `id` key leaves every scene's id as it was |
| Store.AddThenDeleteScene | frontend/src/store/index.js:39-49 | adding a scene and deleting its id equals deleting that id from the old list |
| Store.InitialAddDelete | frontend/src/store/index.js:5-49 | from the initial state (no slots, scenes or images, not connected, not loading), adding a scene and deleting its id gives the initial state back |
| Toast.Positive | frontend/src/store/toast.js:25 | `duration > 0` for numbers, booleans and digit strings; every positive duration is truthy |
| Toast.NewToast | frontend/src/store/toast.js:12-18 | defaults are type `info`, message `''`, duration 3000; any key the caller supplies wins, even with value `undefined` |
| Toast.HelperArgs | frontend/src/store/toast.js:43-57 | a helper passes exactly type, message and duration, with absent arguments present as `undefined` |
| Toast.ToastStore.constructor | frontend/src/store/toast.js:8 | the queue starts empty with no timer pending |
| Toast.ToastStore.AddToast | frontend/src/store/toast.js:10-34 | appends exactly one filled-in toast at the end, schedules expiry iff its duration is positive, and returns its id |
| Toast.ToastStore.RemoveToast | frontend/src/store/toast.js:36-40 | every toast with the id is dropped; the others keep their order |
| Toast.ToastStore.Expire | frontend/src/store/toast.js:26-30 | a firing timer has exactly the effect of `removeToast` on its id |
| Toast.ToastStore.Success | frontend/src/store/toast.js:43-45 | adds a toast of type `success` with the given message and duration |
| Toast.ToastStore.Error | frontend/src/store/toast.js:47-49 | adds a toast of type `error` with the given message and duration |
| Toast.ToastStore.Warning | frontend/src/store/toast.js:51-53 | adds a toast of type `warning` with the given message and duration |
| Toast.ToastStore.Info | frontend/src/store/toast.js:55-57 | adds a toast of type `info` with the given message and duration |
| Toast.HelperToast | frontend/src/store/toast.js:43-57 | a helper's toast has the helper's type and message; with no duration it carries `undefined`, so it is never auto-removed |
| Toast.ExpiryRemovesOwnToast | frontend/src/store/toast.js:25-31 | when a toast's timer fires it is gone, and the rest are what removing the id from the earlier list leaves |
| Toast.CallerIdOverrides | frontend/src/store/toast.js:11-17 | a caller-supplied `id` key that differs from the generated id overrides it, so the generated id's timer misses that toast |
| Toast.RemoveTwice | frontend/src/store/toast.js:36-40 | removing an id twice equals removing it once |
| Wiring.Start | backend/src/server.js:32 | at start-up `global.slots` is the socket service's fresh, empty registry |
| Wiring.SharedRegistry | backend/src/services/websocketService.js:106 | a REST update shows up in a later client's snapshot; a socket clear shows up in a later REST read; both went out as broadcasts |

## Left out

- File I/O and JSON are left out. This covers `fs` reads and writes, `mkdir`, `unlink`, `JSON.stringify`/`JSON.parse` and file formatting. A file is a `File` value, and an unlink is reported as the filename to remove.
- Storage calls are asynchronous, and two of them can interleave at their I/O points and lose an update. The model runs each storage operation to completion. `init` runs unawaited from the constructor; in the model it is a separate `Init` step.
- The image DELETE handler is the one route with an `await` between reading and changing its list. It is modelled as two steps, `DeleteStart` and `DeleteFinish`, so interleavings at that point can be stated (see Findings). The split applies only when `DeleteStart` returns a file to unlink. For an entry with no file (a URL image), the handler never reaches the `await`, and a DELETE is `ImageList.Delete` run to completion. The other route handlers have no `await` and run to completion.
- A write that fails part-way and leaves a truncated file is not modelled. A failed write rejects and leaves the file as it was.
- Transport is left out: Express routing, socket.io delivery, `console.log` and the error-handling middleware. A multer error or a thrown handler error (a 500 reply) is not modelled.
- The `disconnect` handler only logs, so it is not modelled.
- The clock and randomness are parameters. These are `new Date()`, `Date.now()` ids and `Math.random()` toast ids. ISO-8601 formatting is not modelled, and the model does not prove `Date.now()` ids unique.
- SceneRoutes.NewScene: `createdAt` and `updatedAt` are two separate clock readings, as in the source. They are equal only when both fall in the same millisecond, so the model does not state that they are equal.
- SocketService.Service.OnSlotUpdate: the broadcast `timestamp` is its own clock reading and is not tied to the stored `updatedAt`. The source reads the clock twice.
- `parseInt` of a path id is not modelled. A route receives its result as `Option<int>`, where None stands for NaN and matches no entry.
- Values.StrictEquals: `===` between two objects is taken as false, because object identity is not modelled. Ids in this system are primitives.
- Numbers are integers. Floating-point values such as fractional toast ids and NaN are not modelled.
- Toast.Positive: a string duration counts as positive only when it is a digit string with a non-zero digit. Other strings JavaScript converts to positive numbers (`" 5"`, `"1.5"`, `"1e3"`) count as not positive. Arrays are not modelled.
- Stored documents have the right shape. The slots file holds an object and the scenes and images files hold arrays. In the source a parsed document of another shape makes the operation throw, and its promise rejects. Examples are `null` in slots.json, where `slots[slotId] = data` throws, and `{}` in scenes.json, where `push` throws. `setSlots(null)` can write such a document.
- Payload shapes are narrowed. Scene `slots` is either absent or a map of slot records. Three cases are not modelled: an explicit `null` `slots` in an update, a falsy non-object `slots`, and extra keys inside slot records. In a stored slot record, an absent key and a `null` key are both None. The same holds for replies and events: the slot DELETE reply and the clear broadcasts have no `updatedAt` key, and the model gives them `updatedAt` None.
- Slot ids reach the model as strings. JavaScript's coercion of a non-string socket `slot` to a key is not modelled.
- SlotRoutes.GetOne: slot ids that name `Object.prototype` properties are not modelled. The slot object is a plain `{}`, so reading `toString` or `constructor` finds an inherited function, which is truthy, and the reply has no null fields.
- SlotRoutes.Update, SlotRoutes.Clear, SocketService.Service.OnSlotUpdate, SocketService.Service.OnSlotClear, Slots.Registry.MergeFrom, PersistentStorage.Storage.SetSlot: assigning to the key `__proto__` replaces the object's prototype and stores no key. The model stores it as an ordinary key.
- The upload middleware's storage and random filename generation are not modelled. Its filter and size limit are modelled as `FileFilter` and `MaxFileSize`. The upload handler receives the file the middleware passed on, or none.
- A zustand `set` merges the returned part into the state. Here each reducer returns the whole next `State`. Subscriptions and rendering are not modelled.
- `setTimeout` delays are not modelled. Any pending expiry timer may fire next, and firing is the explicit `Expire` step.
- Capture (scene from current slots) and full-replacement load are not part of this code. The server has no capture handler, and load merges.

## Findings

| source | as written | input that shows it | evidently intended | confidence | as-written member | corrected member |
|---|---|---|---|---|---|---|
| backend/src/routes/images.js:120-141 | the index from `findIndex` is kept across `await fs.unlink` and then used for `splice(imageIndex, 1)` | library [image 1 (uploaded), image 2]; two DELETE /images/1 requests, the second arriving while the first awaits its unlink: both find index 0, and the two splices remove image 1 and then image 2 | remove only the image the request named, looking it up again after the await | high for the interleaving shown; not executed | ImageRoutes.ImageList.DeleteFinish, ImageRoutes.StaleIndexRace | ImageRoutes.ImageList.DeleteFinishById, ImageRoutes.RefindKeepsOthers, ImageRoutes.RefindRace |
