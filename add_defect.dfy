/**
 * The dialog that reports a defect: an area chosen from the project's
 * areas, a description and one photo taken before repair, sent to
 * `add-defect`.
 */
module AddDefect {
  import opened Common

  /** An entry of the area dropdown: `label` shown, `value` stored. */
  datatype DropdownOption = DropdownOption(caption: string, value: string)

  /** The dropdown entries: one per area, in order, labelled with its description. */
  function DropdownOptions(areas: seq<Area>): (opts: seq<DropdownOption>)
    ensures |opts| == |areas|
    ensures forall i :: 0 <= i < |areas| ==>
      opts[i].caption == areas[i].description && opts[i].value == areas[i].areaId
  {
    if areas == [] then [] else [DropdownOption(areas[0].description, areas[0].areaId)] + DropdownOptions(areas[1..])
  }

  /** The `add-defect` request: its query parameters, in order, and the one image part. */
  datatype DefectReport = DefectReport(query: seq<(string, string)>, part: FilePart)

  datatype Submission = NoAreaSelected | NoDescription | NoImageSelected | Send(report: DefectReport)

  /**
   * The checks of `confirmUpload`, in their order (area, description, image),
   * and the request built when all pass: the first image as `pic_bef_repair`,
   * and the description, user, category and area as query parameters.
   */
  function DefectSubmission(areaId: Option<string>, description: string, imageUris: seq<string>,
                            userId: string, ccId: string): (s: Submission)
    ensures s == NoAreaSelected <==> !Truthy(areaId)
    ensures s == NoDescription <==> Truthy(areaId) && description == ""
    ensures s == NoImageSelected <==> Truthy(areaId) && description != "" && imageUris == []
    ensures s.Send? ==>
      && s.report.part == ImagePart("pic_bef_repair", "image/jpeg", imageUris[0])
      && s.report.query == [("defect_description", description), ("user_id", userId),
                            ("cc_id", ccId), ("area_id", areaId.value)]
  {
    if !Truthy(areaId) then NoAreaSelected
    else if description == "" then NoDescription
    else if imageUris == [] then NoImageSelected
    else Send(DefectReport(
      [("defect_description", description), ("user_id", userId), ("cc_id", ccId), ("area_id", areaId.value)],
      ImagePart("pic_bef_repair", "image/jpeg", imageUris[0])))
  }

  /** A complete form is sent with the photo under its own file name. */
  lemma CompleteFormSendsPhoto(areaId: string, description: string, dir: string, file: string,
                               userId: string, ccId: string)
    requires areaId != "" && description != "" && '/' !in file
    ensures var s := DefectSubmission(Some(areaId), description, [dir + "/" + file], userId, ccId);
      s.Send? && s.report.part.uri == dir + "/" + file && s.report.part.name == file
  {
    ImagePartNamedAfterFile("pic_bef_repair", "image/jpeg", dir, file);
  }

  /** The state of the add-defect dialog. */
  class AddDefectDialog {
    var visible: bool
    var areas: seq<Area>
    var areaId: Option<string>
    var imageUris: seq<string>
    var description: string

    /** The dialog keeps at most one photo. */
    ghost predicate Valid()
      reads this
    {
      |imageUris| <= 1
    }

    constructor ()
      ensures Valid()
      ensures !visible && areas == [] && areaId == None && imageUris == [] && description == ""
    {
      visible, areas, areaId, imageUris, description := false, [], None, [], "";
    }

    /** The add button opens the dialog (whose opening fetches the areas, by `FetchAreas`). */
    method Open()
      modifies this`visible
      ensures visible
    {
      visible := true;
    }

    /** `fetchAreas`: an `area_descriptions` list replaces the areas; anything else keeps them. */
    method FetchAreas(response: Fetch<Option<seq<Area>>>)
      modifies this`areas
      ensures areas == if response.Received? && response.data.Some? then response.data.value else old(areas)
    {
      if response.Received? && response.data.Some? {
        areas := response.data.value;
      }
    }

    method SelectArea(value: string)
      modifies this`areaId
      ensures areaId == Some(value)
    {
      areaId := Some(value);
    }

    method EditDescription(text: string)
      modifies this`description
      ensures description == text
    {
      description := text;
    }

    /** `handleImageUpload`, camera or library: the photo list is replaced by the single pick. */
    method PickImage(r: PickResult)
      modifies this`imageUris
      ensures Valid() && imageUris == SinglePick(r)
    {
      imageUris := [];
      imageUris := SinglePick(r);
    }

    /**
     * `confirmUpload`: sends the report when the checks pass; a 200 response
     * closes the dialog, drops the photo and invokes `onUploadSuccess` if one
     * was given; description and area are kept. Any other outcome changes nothing.
     */
    method ConfirmUpload(userId: string, ccId: string, status200: bool, hasCallback: bool)
      returns (sent: Option<DefectReport>, callbackInvoked: bool)
      requires Valid()
      modifies this`visible, this`imageUris
      ensures Valid()
      ensures var s := DefectSubmission(areaId, description, old(imageUris), userId, ccId);
        sent == if s.Send? then Some(s.report) else None
      ensures callbackInvoked <==> sent.Some? && status200 && hasCallback
      ensures if sent.Some? && status200 then !visible && imageUris == []
              else visible == old(visible) && imageUris == old(imageUris)
    {
      callbackInvoked := false;
      var s := DefectSubmission(areaId, description, imageUris, userId, ccId);
      if !s.Send? {
        return None, false;
      }
      sent := Some(s.report);
      if status200 {
        visible, imageUris := false, [];
        callbackInvoked := hasCallback;
      }
    }

    /** `cancelUpload`: closes the dialog and forgets the photo, the description and the area. */
    method CancelUpload()
      modifies this`visible, this`imageUris, this`description, this`areaId
      ensures Valid()
      ensures !visible && imageUris == [] && description == "" && areaId == None
    {
      visible, imageUris, description, areaId := false, [], "", None;
    }
  }
}
