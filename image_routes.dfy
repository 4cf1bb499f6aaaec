/** The `/images` REST routes over the route module's own in-memory image
    list: upload (after the upload middleware has stored the file), add by
    URL and delete, together with the upload filter and limits. */
module ImageRoutes {
  import opened Values
  import Lists

  datatype ImageKind = Uploaded | External

  /** A library entry. URL entries have no filename, MIME type or size. */
  datatype Image = Image(id: int, filename: Option<string>, originalName: JsValue, url: JsValue,
                         kind: ImageKind, mimeType: Option<string>, size: Option<nat>,
                         createdAt: Timestamp)

  /** The file the upload middleware stored, under the name it chose. */
  datatype UploadedFile = UploadedFile(filename: string, originalName: string, mimetype: string, size: nat)

  datatype FilterDecision = Accept | Reject(message: string)

  const AllowedTypes := ["image/png", "image/jpeg", "image/jpg", "image/gif", "image/webp"]
  const InvalidType := "Invalid file type. Only PNG, JPG, GIF, and WebP are allowed."
  const DefaultMaxFileSize := 10 * 1024 * 1024
  const NoFile := "No file uploaded"
  const UrlRequired := "URL is required"
  const DefaultName := "External Image"
  const NotFound := "Image not found"

  /** The upload filter: a file is taken iff its MIME type is on the allow-list. */
  function FileFilter(mimetype: string): (d: FilterDecision)
    ensures d == Accept <==>
              mimetype == "image/png" || mimetype == "image/jpeg" || mimetype == "image/jpg"
              || mimetype == "image/gif" || mimetype == "image/webp"
    ensures d != Accept ==> d == Reject(InvalidType)
  {
    if mimetype in AllowedTypes then Accept else Reject(InvalidType)
  }

  /** `parseInt(process.env.MAX_FILE_SIZE) || 10 MiB`: an unset or unparsable
      setting (None) and a setting of 0 both give the default. */
  function MaxFileSize(setting: Option<int>): (limit: int)
    ensures limit != 0
    ensures setting.Some? && setting.value != 0 ==> limit == setting.value
    ensures setting.None? || setting.value == 0 ==> limit == DefaultMaxFileSize
  {
    if setting.Some? && setting.value != 0 then setting.value else DefaultMaxFileSize
  }

  /** Whether `PUBLIC_URL` is set to a non-empty string. */
  predicate HasPublicUrl(publicUrl: Option<string>) {
    publicUrl.Some? && publicUrl.value != ""
  }

  /** The origin uploaded files are served from: `PUBLIC_URL` when set, else
      the request's own protocol and host. */
  function Origin(publicUrl: Option<string>, protocol: string, host: string): string {
    if HasPublicUrl(publicUrl) then publicUrl.value else protocol + "://" + host
  }

  /** Where an uploaded file is served: the origin, then `/uploads/`, then the
      stored filename, each of which can be read back off the URL. */
  function UploadUrl(publicUrl: Option<string>, protocol: string, host: string, filename: string): (url: string)
    ensures var origin := Origin(publicUrl, protocol, host);
            && |url| == |origin| + 9 + |filename|
            && url[..|origin|] == origin
            && url[|origin|..|origin| + 9] == "/uploads/"
            && url[|origin| + 9..] == filename
  {
    var origin := Origin(publicUrl, protocol, host);
    var url := origin + "/uploads/" + filename;
    assert url[|origin|..|origin| + 9] == "/uploads/";
    url
  }

  /** The record POST /upload stores for a file. */
  function UploadedImage(file: UploadedFile, url: string, id: int, now: Timestamp): (img: Image)
    ensures img.kind == Uploaded && img.url == Str(url) && img.filename == Some(file.filename)
    ensures img.originalName == Str(file.originalName) && img.mimeType == Some(file.mimetype)
    ensures img.size == Some(file.size) && img.id == id && img.createdAt == now
  {
    Image(id, Some(file.filename), Str(file.originalName), Str(url), Uploaded,
          Some(file.mimetype), Some(file.size), now)
  }

  /** The record POST /url stores: the name defaults to "External Image". */
  function ExternalImage(url: JsValue, name: JsValue, id: int, now: Timestamp): (img: Image)
    ensures img.kind == External && img.url == url && img.filename == None
    ensures img.originalName == if Truthy(name) then name else Str(DefaultName)
    ensures img.mimeType == None && img.size == None && img.id == id && img.createdAt == now
  {
    Image(id, None, if Truthy(name) then name else Str(DefaultName), url, External, None, None, now)
  }

  /** `img.id === parseInt(req.params.id)`. */
  function HasId(id: Option<int>): Image -> bool {
    (img: Image) => id == Some(img.id)
  }

  /** Whether deleting the image also unlinks a stored file, and which one. */
  function FileToUnlink(img: Image): (f: Option<string>)
    ensures f.Some? <==> img.kind == Uploaded && img.filename.Some? && img.filename.value != ""
    ensures f.Some? ==> f == img.filename
  {
    if img.kind == Uploaded && img.filename.Some? && img.filename.value != "" then img.filename else None
  }

  /** Every image in the library has a usable (truthy) URL. */
  predicate Linked(images: seq<Image>) {
    forall i :: 0 <= i < |images| ==> Truthy(images[i].url)
  }

  /** The route module's `images` array. */
  class ImageList {
    var images: seq<Image>

    ghost predicate Valid()
      reads this
    {
      Linked(images)
    }

    constructor ()
      ensures Valid() && images == []
    {
      images := [];
    }

    /** GET /: the whole library, in insertion order. */
    method List() returns (r: seq<Image>)
      ensures r == images
    {
      r := images;
    }

    /** POST /upload: 400 and no change when no file arrived; otherwise the
        file's record, with its URL, is appended and returned with 201. */
    method Upload(file: Option<UploadedFile>, publicUrl: Option<string>, protocol: string, host: string,
                  id: int, now: Timestamp) returns (r: Http<Image>)
      requires Valid()
      modifies this
      ensures Valid()
      ensures file.None? ==> r == Fail(400, NoFile) && images == old(images)
      ensures file.Some? ==>
                && r == Ok(201, UploadedImage(file.value, UploadUrl(publicUrl, protocol, host, file.value.filename), id, now))
                && images == old(images) + [r.data]
    {
      if file.None? {
        return Fail(400, NoFile);
      }
      var url := UploadUrl(publicUrl, protocol, host, file.value.filename);
      var img := UploadedImage(file.value, url, id, now);
      images := images + [img];
      r := Ok(201, img);
    }

    /** POST /url: 400 and no change for a falsy URL; otherwise an external
        entry is appended and returned with 201. */
    method AddByUrl(url: JsValue, name: JsValue, id: int, now: Timestamp) returns (r: Http<Image>)
      requires Valid()
      modifies this
      ensures Valid()
      ensures !Truthy(url) ==> r == Fail(400, UrlRequired) && images == old(images)
      ensures Truthy(url) ==> r == Ok(201, ExternalImage(url, name, id, now)) && images == old(images) + [r.data]
    {
      if !Truthy(url) {
        return Fail(400, UrlRequired);
      }
      var img := ExternalImage(url, name, id, now);
      images := images + [img];
      r := Ok(201, img);
    }

    /** DELETE /:id up to its `await fs.unlink`: 404 for an unknown id;
        otherwise the index of the first match and the stored file to
        unlink, if any. Nothing changes yet. */
    method DeleteStart(id: Option<int>) returns (r: Http<nat>, unlinked: Option<string>)
      ensures Lists.FindIndex(images, HasId(id)) == -1 ==> r == Fail(404, NotFound) && unlinked == None
      ensures Lists.FindIndex(images, HasId(id)) != -1 ==>
                var i := Lists.FindIndex(images, HasId(id));
                && r == Ok(200, i)
                && unlinked == FileToUnlink(images[i])
    {
      var i := Lists.FindIndex(images, HasId(id));
      if i == -1 {
        return Fail(404, NotFound), None;
      }
      r, unlinked := Ok(200, i), FileToUnlink(images[i]);
    }

    /** DELETE /:id after its `await`, as written: `images.splice(imageIndex, 1)`
        with the index found before the await, whatever the list is now. */
    method DeleteFinish(imageIndex: nat)
      requires Valid()
      modifies this
      ensures Valid()
      ensures images == Lists.Splice(old(images), imageIndex)
    {
      images := Lists.Splice(images, imageIndex);
    }

    /** DELETE /:id after its `await`, corrected: the entry is looked up by
        its id again, so only an entry with that id can go. */
    method DeleteFinishById(id: Option<int>)
      requires Valid()
      modifies this
      ensures Valid()
      ensures images == Removed(old(images), id)
    {
      var i := Lists.FindIndex(images, HasId(id));
      if i != -1 {
        images := Lists.RemoveAt(images, i);
      }
    }

    /** DELETE /:id run to completion: 404 and no change for an unknown id;
        otherwise the stored file is unlinked when the entry has one, and the
        entry is spliced out whether or not the unlink succeeded
        (`unlinkSucceeds` is ignored). */
    method Delete(id: Option<int>, unlinkSucceeds: bool) returns (r: Http<()>, unlinked: Option<string>)
      requires Valid()
      modifies this
      ensures Valid()
      ensures Lists.FindIndex(old(images), HasId(id)) == -1 ==>
                r == Fail(404, NotFound) && unlinked == None && images == old(images)
      ensures Lists.FindIndex(old(images), HasId(id)) != -1 ==>
                var i := Lists.FindIndex(old(images), HasId(id));
                && r == Ok(200, ())
                && unlinked == FileToUnlink(old(images)[i])
                && images == Lists.RemoveAt(old(images), i)
    {
      var found;
      found, unlinked := DeleteStart(id);
      if found.Fail? {
        return Fail(404, NotFound), unlinked;
      }
      DeleteFinishById(id);
      r := Ok(200, ());
    }
  }

  /** The library after a delete by id that looks the entry up when it
      splices: the first entry with the id goes, if there is one. */
  function Removed(images: seq<Image>, id: Option<int>): (r: seq<Image>)
    ensures Lists.FindIndex(images, HasId(id)) == -1 ==> r == images
    ensures Lists.FindIndex(images, HasId(id)) != -1 ==> |r| == |images| - 1
  {
    var i := Lists.FindIndex(images, HasId(id));
    if i == -1 then images else Lists.RemoveAt(images, i)
  }

  /** However the library changed while the unlink was awaited, a delete
      that looks its entry up again keeps every entry with another id, as
      often as it was there. */
  lemma RefindKeepsOthers(images: seq<Image>, id: Option<int>, x: Image)
    requires id != Some(x.id)
    ensures multiset(Removed(images, id))[x] == multiset(images)[x]
  {
    var i := Lists.FindIndex(images, HasId(id));
    if i != -1 {
      Lists.RemoveAtCounts(images, i);
      assert x != images[i];
    }
  }

  /** Two deletes of the uploaded image 1 from the library [1, 2], the
      second arriving while the first awaits its unlink: both requests have
      a file to unlink, so both suspend, both found index 0, and the two
      stale splices leave the library empty. Image 2, which no request
      named, is gone. */
  method StaleIndexRace() returns (firstUnlinks: Option<string>, secondUnlinks: Option<string>, left: seq<Image>)
    ensures firstUnlinks == Some("1.png") && secondUnlinks == Some("1.png")
    ensures left == []
  {
    var library := new ImageList();
    var _ := library.Upload(Some(UploadedFile("1.png", "one.png", "image/png", 1)), Some("http://h"), "http", "h", 1, 0);
    var _ := library.Upload(Some(UploadedFile("2.png", "two.png", "image/png", 1)), Some("http://h"), "http", "h", 2, 0);
    var first, second;
    first, firstUnlinks := library.DeleteStart(Some(1));
    second, secondUnlinks := library.DeleteStart(Some(1));
    library.DeleteFinish(first.data);
    library.DeleteFinish(second.data);
    left := library.images;
  }

  /** The same two requests with the corrected finish: image 1 goes once,
      the second finish finds nothing to remove, and image 2 stays. */
  method RefindRace() returns (firstUnlinks: Option<string>, secondUnlinks: Option<string>, left: seq<Image>)
    ensures firstUnlinks == Some("1.png") && secondUnlinks == Some("1.png")
    ensures |left| == 1 && left[0].id == 2
  {
    var library := new ImageList();
    var _ := library.Upload(Some(UploadedFile("1.png", "one.png", "image/png", 1)), Some("http://h"), "http", "h", 1, 0);
    var _ := library.Upload(Some(UploadedFile("2.png", "two.png", "image/png", 1)), Some("http://h"), "http", "h", 2, 0);
    var first, second;
    first, firstUnlinks := library.DeleteStart(Some(1));
    second, secondUnlinks := library.DeleteStart(Some(1));
    library.DeleteFinishById(Some(1));
    library.DeleteFinishById(Some(1));
    left := library.images;
  }

  /** The filter accepts only image types: everything it lets through starts
      with "image/", and SVG is not among them. */
  lemma AcceptedAreImages(mimetype: string)
    ensures FileFilter(mimetype) == Accept ==> |mimetype| > 6 && mimetype[..6] == "image/"
    ensures FileFilter("image/svg+xml") != Accept
  {
  }
}
