/**
 * The defect list of a construction category: each defect with its photo
 * before repair and, once repaired, its photo after repair; a defect
 * without the latter offers an upload that marks it completed.
 */
module DefectCompletion {
  import opened Common
  import opened TabsSlice

  /** A stored photo: its id and file extension. */
  datatype PicDocument = PicDocument(picId: string, extension: string)

  /** A defect as listed by `get-defect-from-category`. */
  datatype Defect = Defect(defectId: string, description: string,
                           beforeDocument: Option<PicDocument>, afterDocument: Option<PicDocument>)

  /** A listed defect with the URLs of its two photos (`null` when there is none). */
  datatype DefectView = DefectView(defect: Defect, beforePic: Option<string>, afterPic: Option<string>)

  /** `<api>/<kind>/<id>.<extension>`: where the server serves a stored photo. */
  function PictureUrl(api: string, kind: string, doc: PicDocument): (url: string)
    ensures StartsWith(url, api + "/" + kind + "/")
  {
    api + "/" + kind + "/" + doc.picId + "." + doc.extension
  }

  /** The URL of a photo ends in its stored file name. */
  lemma PictureUrlNamesFile(api: string, kind: string, doc: PicDocument)
    requires '/' !in doc.picId && '/' !in doc.extension
    ensures LastSegment(PictureUrl(api, kind, doc)) == doc.picId + "." + doc.extension
  {
    assert PictureUrl(api, kind, doc) == (api + "/" + kind) + "/" + (doc.picId + "." + doc.extension);
    LastSegmentAfterSlash(api + "/" + kind, doc.picId + "." + doc.extension);
  }

  /** The photo URL of an optional document. */
  function PictureOf(api: string, kind: string, doc: Option<PicDocument>): (url: Option<string>)
    ensures url.Some? <==> doc.Some?
    ensures doc.Some? ==> url == Some(PictureUrl(api, kind, doc.value))
  {
    if doc.Some? then Some(PictureUrl(api, kind, doc.value)) else None
  }

  /** The list `fetchDefects` stores: every defect, in order, with its two photo URLs. */
  function WithPictures(api: string, defects: seq<Defect>): (views: seq<DefectView>)
    ensures |views| == |defects|
    ensures forall i :: 0 <= i < |defects| ==>
      && views[i].defect == defects[i]
      && views[i].beforePic == PictureOf(api, "defect-before-repair", defects[i].beforeDocument)
      && views[i].afterPic == PictureOf(api, "defect-after-repair", defects[i].afterDocument)
  {
    if defects == [] then []
    else
      [DefectView(defects[0],
                  PictureOf(api, "defect-before-repair", defects[0].beforeDocument),
                  PictureOf(api, "defect-after-repair", defects[0].afterDocument))]
      + WithPictures(api, defects[1..])
  }

  /** The status icon: completed (green square) iff a photo after repair is stored. */
  predicate IsCompleted(d: Defect)
  {
    d.afterDocument.Some?
  }

  /** The after-repair cell shows the upload button iff the row has no after-repair URL. */
  predicate ShowsUploadButton(v: DefectView)
  {
    v.afterPic.None?
  }

  /** In the stored list, exactly the rows not yet completed offer the upload. */
  lemma UploadOfferedIffNotCompleted(api: string, defects: seq<Defect>, i: int)
    requires 0 <= i < |defects|
    ensures ShowsUploadButton(WithPictures(api, defects)[i]) <==> !IsCompleted(defects[i])
  {
  }

  /** A response of `get-defect-from-category`: its status and its `defects` field, if any. */
  datatype DefectsResponse = DefectsResponse(status: int, defects: Option<seq<Defect>>)

  /** The warm-up request before the upload, as written: a string without interpolation. */
  const WarmUpUrlAsWritten := "${API_URL}/"

  /** The warm-up request as evidently intended (and as the order-photo dialog writes it). */
  function WarmUpUrl(api: string): (url: string)
    ensures StartsWith(url, api) && |url| == |api| + 1 && url[|api|] == '/'
  {
    api + "/"
  }

  /** As written, the warm-up request never reaches the server the upload goes to, whatever the API base. */
  lemma WarmUpMissesServer(api: string)
    requires api != [] && api[0] != '$'
    ensures !StartsWith(WarmUpUrlAsWritten, api)
    ensures WarmUpUrlAsWritten != WarmUpUrl(api)
  {
    assert WarmUpUrlAsWritten[0] == '$';
    assert WarmUpUrl(api)[0] == api[0];
  }

  /** The `update-defect-completion-status` request, and the warm-up request sent before it. */
  datatype CompletionUpload = CompletionUpload(warmUpUrl: string, path: string, query: seq<(string, string)>, part: FilePart)

  /**
   * The requests `confirmUpload` sends, as written: the warm-up to the literal
   * path, then the first photo as `pic_af_repair` for `defectId`.
   */
  function CompletionUploadOf(api: string, defectId: string, userId: Option<string>, uri: string): (u: CompletionUpload)
    ensures u.warmUpUrl == WarmUpUrlAsWritten
    ensures u.path == api + "/update-defect-completion-status/" + defectId
    ensures u.query == [("user_id", StringOf(userId))]
    ensures u.part.field == "pic_af_repair" && u.part.uri == uri && u.part.mimeType == "image/jpeg"
    ensures u.part.name == LastSegment(uri) && '/' !in u.part.name
  {
    CompletionUpload(WarmUpUrlAsWritten, api + "/update-defect-completion-status/" + defectId,
                     [("user_id", StringOf(userId))],
                     ImagePart("pic_af_repair", "image/jpeg", uri))
  }

  /**
   * The same requests with the warm-up evidently intended: it goes to the API
   * base, the server the upload goes to; the upload itself is unchanged.
   */
  function CorrectedCompletionUploadOf(api: string, defectId: string, userId: Option<string>, uri: string): (u: CompletionUpload)
    ensures StartsWith(u.warmUpUrl, api) && u.warmUpUrl[|api|..] == "/"
    ensures StartsWith(u.path, api) && u.path[..|api|] == u.warmUpUrl[..|api|]
    ensures var w := CompletionUploadOf(api, defectId, userId, uri);
      u.path == w.path && u.query == w.query && u.part == w.part
  {
    CompletionUploadOf(api, defectId, userId, uri).(warmUpUrl := WarmUpUrl(api))
  }

  /** The state of the defect list. */
  class DefectsScreen {
    var products: seq<DefectView>
    var loading: bool
    var uploadVisible: bool
    var imageUris: seq<string>
    var defectId: string
    var userId: Option<string>

    /** The upload dialog keeps at most one photo. */
    ghost predicate Valid()
      reads this
    {
      |imageUris| <= 1
    }

    constructor ()
      ensures Valid()
      ensures products == [] && loading && !uploadVisible && imageUris == [] && defectId == "" && userId == Some("")
    {
      products, loading, uploadVisible, imageUris, defectId, userId := [], true, false, [], "", Some("");
    }

    /** A change of active tab empties the list (and fetches it again, by `FetchDefects`). */
    method OnCategoryChange()
      modifies this`products
      ensures products == []
    {
      products := [];
    }

    /**
     * `fetchDefects`: the stored user id is kept; with one, a 200 response
     * replaces the list by its defects (none when the field is missing) with
     * their photo URLs; any other response or a failure keeps the list.
     * Loading ends in every case.
     */
    method FetchDefects(api: string, storedUserId: Option<string>, activeTab: Tab, response: Fetch<DefectsResponse>)
      returns (requested: Option<Option<string>>)
      modifies this`userId, this`products, this`loading
      ensures userId == storedUserId && !loading
      ensures requested == if Truthy(storedUserId) then Some(activeTab.key) else None
      ensures products ==
        if requested.Some? && response.Received? && response.data.status == 200 then
          WithPictures(api, if response.data.defects.Some? then response.data.defects.value else [])
        else old(products)
    {
      loading := true;
      userId := storedUserId;
      requested := None;
      if Truthy(storedUserId) {
        requested := Some(activeTab.key);
        if response.Received? && response.data.status == 200 {
          var defects := if response.data.defects.Some? then response.data.defects.value else [];
          products := WithPictures(api, defects);
        }
      }
      loading := false;
    }

    /** `openUploadModal`: remembers which defect the upload is for and opens the dialog. */
    method OpenUploadModal(id: string)
      modifies this`defectId, this`uploadVisible
      ensures defectId == id && uploadVisible
    {
      defectId, uploadVisible := id, true;
    }

    /** `handleImageUpload`, camera or library: the photo list is replaced by the single pick. */
    method PickImage(r: PickResult)
      modifies this`imageUris
      ensures Valid() && imageUris == SinglePick(r)
    {
      imageUris := [];
      imageUris := SinglePick(r);
    }

    /**
     * `confirmUpload`: nothing is sent without a photo; otherwise the first
     * photo is sent for the remembered defect, and a 200 response closes the
     * dialog and drops the photo (the list is then fetched again). Any other
     * outcome changes nothing.
     */
    method ConfirmUpload(api: string, status200: bool) returns (sent: Option<CompletionUpload>)
      requires Valid()
      modifies this`uploadVisible, this`imageUris
      ensures Valid()
      ensures sent == if old(imageUris) == [] then None
                      else Some(CompletionUploadOf(api, defectId, userId, old(imageUris)[0]))
      ensures if sent.Some? && status200 then !uploadVisible && imageUris == []
              else uploadVisible == old(uploadVisible) && imageUris == old(imageUris)
    {
      if imageUris == [] {
        return None;
      }
      sent := Some(CompletionUploadOf(api, defectId, userId, imageUris[0]));
      if status200 {
        uploadVisible, imageUris := false, [];
      }
    }

    /** `cancelUpload`: closes the dialog and drops the photo. */
    method CancelUpload()
      modifies this`uploadVisible, this`imageUris
      ensures Valid() && !uploadVisible && imageUris == []
    {
      uploadVisible, imageUris := false, [];
    }
  }
}
