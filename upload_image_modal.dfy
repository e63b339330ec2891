/**
 * The dialog that uploads photos of an order or of its delivery for one
 * confirmation record: photos are collected from the camera or the library
 * and sent together to `update-order-status` or `update-delivery-status`.
 */
module UploadImageModal {
  import opened Common

  /** Where the photos of one status go: form field, user-id query parameter, and path. */
  datatype UploadTarget = UploadTarget(field: string, userQuery: string, link: string)

  /** The target chosen by `selectedStatus`: "order" for the order, anything else for the delivery. */
  function TargetOf(selectedStatus: string): (t: UploadTarget)
    ensures selectedStatus == "order" ==>
      t == UploadTarget("ordered_pics", "ordered_user_id", "update-order-status")
    ensures selectedStatus != "order" ==>
      t == UploadTarget("delivered_pics", "delivered_user_id", "update-delivery-status")
  {
    if selectedStatus == "order" then UploadTarget("ordered_pics", "ordered_user_id", "update-order-status")
    else UploadTarget("delivered_pics", "delivered_user_id", "update-delivery-status")
  }

  /** `<api>/<link>/<cr_id>?<query>=<user_id>`. */
  function UploadUrl(api: string, selectedStatus: string, crId: string, userId: string): (url: string)
    ensures var t := TargetOf(selectedStatus);
      StartsWith(url, api + "/" + t.link + "/" + crId + "?")
      && |userId| <= |url| && url[|url| - |userId|..] == userId
      && |api + "/" + t.link + "/" + crId + "?"| <= |url| - |userId|
      && url[|api + "/" + t.link + "/" + crId + "?"|..|url| - |userId|] == t.userQuery + "="
  {
    var t := TargetOf(selectedStatus);
    api + "/" + t.link + "/" + crId + "?" + t.userQuery + "=" + userId
  }

  /** The order and the delivery photos never go to the same path. */
  lemma OrderAndDeliveryPathsDiffer(api: string, crId: string, userId: string, other: string)
    requires other != "order"
    ensures UploadUrl(api, "order", crId, userId) != UploadUrl(api, other, crId, userId)
  {
    var u := UploadUrl(api, "order", crId, userId);
    var v := UploadUrl(api, other, crId, userId);
    assert u[|api| + 8] == 'o' && v[|api| + 8] == 'd';
  }

  /** The requests `confirmUpload` sends: the warm-up GET, then the URL and one PNG part per photo. */
  datatype PhotoUpload = PhotoUpload(warmUpUrl: string, url: string, parts: seq<FilePart>)

  /** One part per photo, in order, all under `field` and named after their file. */
  method BuildParts(uris: seq<string>, field: string) returns (parts: seq<FilePart>)
    ensures |parts| == |uris|
    ensures forall i :: 0 <= i < |uris| ==>
      && parts[i].field == field && parts[i].uri == uris[i] && parts[i].mimeType == "image/png"
      && parts[i].name == LastSegment(uris[i])
  {
    parts := [];
    for k := 0 to |uris|
      invariant |parts| == k
      invariant forall i :: 0 <= i < k ==> parts[i] == FilePart(field, uris[i], "image/png", LastSegment(uris[i]))
    {
      var part := FilePart(field, uris[k], "image/png", LastSegment(uris[k]));
      parts := parts + [part];
    }
  }

  /** The state of the dialog: the photos collected so far. */
  class UploadModal {
    var imageUris: seq<string>

    constructor ()
      ensures imageUris == []
    {
      imageUris := [];
    }

    /** A camera photo is added after the ones already collected; a cancelled camera adds nothing. */
    method PickFromCamera(r: PickResult)
      modifies this
      ensures imageUris == if r.Picked? then old(imageUris) + [r.first] else old(imageUris)
    {
      if r.Picked? {
        imageUris := imageUris + [r.first];
      }
    }

    /** Every photo picked from the library is added, in order, after the ones already collected. */
    method PickFromLibrary(r: PickResult)
      modifies this
      ensures imageUris == if r.Picked? then old(imageUris) + r.Uris() else old(imageUris)
    {
      if r.Picked? {
        var assets := r.Uris();
        for k := 0 to |assets|
          invariant imageUris == old(imageUris) + assets[..k]
        {
          assert assets[..k + 1] == assets[..k] + [assets[k]];
          imageUris := imageUris + [assets[k]];
        }
        assert assets[..|assets|] == assets;
      }
    }

    /**
     * `confirmUpload`: nothing is sent without a photo; otherwise every photo
     * is sent, and a 200 response notifies the parent, drops the photos and
     * asks the parent to close the dialog. Any other outcome changes nothing.
     */
    method ConfirmUpload(api: string, selectedStatus: string, crId: string, userId: string, status200: bool)
      returns (sent: Option<PhotoUpload>, closeRequested: bool)
      modifies this
      ensures old(imageUris) == [] ==> sent.None?
      ensures old(imageUris) != [] ==>
        && sent.Some? && sent.value.url == UploadUrl(api, selectedStatus, crId, userId)
        && StartsWith(sent.value.warmUpUrl, api) && sent.value.warmUpUrl[|api|..] == "/"
        && |sent.value.parts| == |old(imageUris)|
        && forall i :: 0 <= i < |old(imageUris)| ==>
             sent.value.parts[i] == ImagePart(TargetOf(selectedStatus).field, "image/png", old(imageUris)[i])
      ensures closeRequested <==> sent.Some? && status200
      ensures imageUris == if closeRequested then [] else old(imageUris)
    {
      if imageUris == [] {
        return None, false;
      }
      var parts := BuildParts(imageUris, TargetOf(selectedStatus).field);
      sent := Some(PhotoUpload(api + "/", UploadUrl(api, selectedStatus, crId, userId), parts));
      closeRequested := status200;
      if status200 {
        imageUris := [];
      }
    }

    /** Closing the dialog, by the back gesture or by Cancel, drops the photos. */
    method Dismiss()
      modifies this
      ensures imageUris == []
    {
      imageUris := [];
    }
  }
}
