/**
 * The floor-plan screen of a project: the main floor plans, or those of one
 * area chosen from the project's areas, shown as a grid that ends in an
 * "Add Floor Plan" tile.
 */
module Blueprint {
  import opened Common

  /** A floor plan to show: where to load it, its name and content type. */
  datatype PlanFile = PlanFile(uri: string, name: string, contentType: string)

  /** A main floor plan as listed by `project-details`. */
  datatype FloorPlanDocument = FloorPlanDocument(floorPlanId: string, extension: string, name: string, contentType: string)

  /** A floor plan of an area as listed by `get-floor-plan-id-from-area`. */
  datatype AreaPicture = AreaPicture(imageUrl: string, floorPlanName: string, contentType: string)

  /** `fetchFloorPlans`: each main floor plan at `<api>/main-floor-plan/<id>.<extension>`, in order. */
  function MainFloorPlanFiles(api: string, docs: seq<FloorPlanDocument>): (files: seq<PlanFile>)
    ensures |files| == |docs|
    ensures forall i :: 0 <= i < |docs| ==>
      files[i] == PlanFile(api + "/main-floor-plan/" + docs[i].floorPlanId + "." + docs[i].extension,
                           docs[i].name, docs[i].contentType)
  {
    if docs == [] then []
    else [PlanFile(api + "/main-floor-plan/" + docs[0].floorPlanId + "." + docs[0].extension,
                   docs[0].name, docs[0].contentType)]
         + MainFloorPlanFiles(api, docs[1..])
  }

  /**
   * `fetchCurrentAreaFiles`: each picture of the area at
   * `<api>/area-floor-plan<image_url>` (the server's `image_url` brings its
   * own leading separator), in order.
   */
  function AreaFiles(api: string, pics: seq<AreaPicture>): (files: seq<PlanFile>)
    ensures |files| == |pics|
    ensures forall i :: 0 <= i < |pics| ==>
      files[i] == PlanFile(api + "/area-floor-plan" + pics[i].imageUrl, pics[i].floorPlanName, pics[i].contentType)
  {
    if pics == [] then []
    else [PlanFile(api + "/area-floor-plan" + pics[0].imageUrl, pics[0].floorPlanName, pics[0].contentType)]
         + AreaFiles(api, pics[1..])
  }

  /** A main floor plan's URL ends in its stored file name. */
  lemma MainFloorPlanNamesFile(api: string, docs: seq<FloorPlanDocument>, i: int)
    requires 0 <= i < |docs| && '/' !in docs[i].floorPlanId && '/' !in docs[i].extension
    ensures LastSegment(MainFloorPlanFiles(api, docs)[i].uri) == docs[i].floorPlanId + "." + docs[i].extension
  {
    var name := docs[i].floorPlanId + "." + docs[i].extension;
    assert MainFloorPlanFiles(api, docs)[i].uri == (api + "/main-floor-plan") + "/" + name;
    LastSegmentAfterSlash(api + "/main-floor-plan", name);
  }

  /** A tile of the grid: a floor plan, or the "Add Floor Plan" tile. */
  datatype GridItem = FileTile(file: PlanFile) | AddTile

  /** The grid: nothing while "Area" is selected but no area yet; otherwise the files then the add tile. */
  function GridData(selectedArea: string, files: seq<PlanFile>): (items: seq<GridItem>)
    ensures selectedArea == "Area" ==> items == []
    ensures selectedArea != "Area" ==>
      && |items| == |files| + 1 && items[|files|] == AddTile
      && forall i :: 0 <= i < |files| ==> items[i] == FileTile(files[i])
  {
    if selectedArea == "Area" then [] else FileTiles(files) + [AddTile]
  }

  function FileTiles(files: seq<PlanFile>): (items: seq<GridItem>)
    ensures |items| == |files|
    ensures forall i :: 0 <= i < |files| ==> items[i] == FileTile(files[i])
  {
    if files == [] then [] else [FileTile(files[0])] + FileTiles(files[1..])
  }

  /** Whenever the grid shows anything, the add tile is its only non-file tile and comes last. */
  lemma AddTileOnlyLast(selectedArea: string, files: seq<PlanFile>, i: int)
    requires 0 <= i < |GridData(selectedArea, files)|
    ensures GridData(selectedArea, files)[i] == AddTile <==> i == |files|
  {
  }

  /** Which dialog the add tile opens. */
  datatype AddDialog = AddMainFloorPlan | AddAreaFloorPlan

  /** The add tile opens the main dialog iff "Main" is selected, and the area dialog otherwise. */
  function AddDialogFor(selectedArea: string): (d: AddDialog)
    ensures d == AddMainFloorPlan <==> selectedArea == "Main"
  {
    if selectedArea != "Main" then AddAreaFloorPlan else AddMainFloorPlan
  }

  /**
   * The selection is an area's description, so an area described "Area"
   * shows no grid, and one described "Main" adds main floor plans.
   */
  lemma AreaNamesShadowButtons(files: seq<PlanFile>)
    ensures GridData("Area", files) == []
    ensures AddDialogFor("Main") == AddMainFloorPlan
  {
  }

  /** The state of the floor-plan screen. */
  class BlueprintScreen {
    var areas: Option<seq<Area>>
    var files: seq<PlanFile>
    var selectedAreaId: Option<string>
    var selectedArea: string
    var showAreaList: bool
    var addAreaVisible: bool
    var addAreaFloorPlanVisible: bool
    var addMainFloorPlanVisible: bool
    var pdfVisible: bool
    var selectedPdfUri: Option<string>

    constructor ()
      ensures areas == Some([]) && files == [] && selectedAreaId == None && selectedArea == "Main"
      ensures !showAreaList && !addAreaVisible && !addAreaFloorPlanVisible && !addMainFloorPlanVisible
      ensures !pdfVisible && selectedPdfUri == None
    {
      areas, files, selectedAreaId, selectedArea := Some([]), [], None, "Main";
      showAreaList, addAreaVisible, addAreaFloorPlanVisible, addMainFloorPlanVisible := false, false, false, false;
      pdfVisible, selectedPdfUri := false, None;
    }

    /** `fetchAreas`: the `area_descriptions` field is stored as it comes, missing included; a failure keeps the areas. */
    method FetchAreas(response: Fetch<Option<seq<Area>>>)
      modifies this`areas
      ensures areas == if response.Received? then response.data else old(areas)
    {
      if response.Received? {
        areas := response.data;
      }
    }

    /**
     * `fetchFloorPlans`: a `floor_plan_documents` list replaces the files by
     * the main floor plans; a missing list (the `map` throws) or a failure keeps them.
     */
    method FetchFloorPlans(api: string, response: Fetch<Option<seq<FloorPlanDocument>>>)
      modifies this`files
      ensures files == if response.Received? && response.data.Some? then MainFloorPlanFiles(api, response.data.value)
                       else old(files)
    {
      if response.Received? && response.data.Some? {
        files := MainFloorPlanFiles(api, response.data.value);
      }
    }

    /**
     * `fetchCurrentAreaFiles`: a `pic_details` list replaces the files by the
     * area's floor plans (none for an empty list); a missing list or a failure
     * empties them.
     */
    method FetchCurrentAreaFiles(api: string, response: Fetch<Option<seq<AreaPicture>>>)
      modifies this`files
      ensures files == if response.Received? && response.data.Some? then AreaFiles(api, response.data.value) else []
    {
      if response.Received? && response.data.Some? && response.data.value != [] {
        files := AreaFiles(api, response.data.value);
      } else {
        files := [];
      }
    }

    /** The "Main" button: empties the files, selects "Main" and hides the area list (then fetches the main plans). */
    method PressMain()
      modifies this`files, this`selectedArea, this`showAreaList
      ensures files == [] && selectedArea == "Main" && !showAreaList
    {
      files, selectedArea, showAreaList := [], "Main", false;
    }

    /** The "Area" button: empties the files, toggles the area list and selects "Area". */
    method PressArea()
      modifies this`files, this`selectedArea, this`showAreaList
      ensures files == [] && selectedArea == "Area" && showAreaList == !old(showAreaList)
    {
      files, selectedArea, showAreaList := [], "Area", !showAreaList;
    }

    /** Choosing an area selects it by its description and id (then fetches its plans). */
    method ChooseArea(area: Area)
      modifies this`selectedArea, this`selectedAreaId
      ensures selectedArea == area.description && selectedAreaId == Some(area.areaId)
    {
      selectedArea, selectedAreaId := area.description, Some(area.areaId);
    }

    /** The add tile opens the dialog `AddDialogFor` names and no other. */
    method PressAddTile()
      modifies this`addAreaFloorPlanVisible, this`addMainFloorPlanVisible
      ensures AddDialogFor(selectedArea) == AddMainFloorPlan ==>
        addMainFloorPlanVisible && addAreaFloorPlanVisible == old(addAreaFloorPlanVisible)
      ensures AddDialogFor(selectedArea) == AddAreaFloorPlan ==>
        addAreaFloorPlanVisible && addMainFloorPlanVisible == old(addMainFloorPlanVisible)
    {
      if AddDialogFor(selectedArea) == AddAreaFloorPlan {
        addAreaFloorPlanVisible := true;
      } else {
        addMainFloorPlanVisible := true;
      }
    }

    /** The "+" button under the area list opens the add-area dialog. */
    method PressAddArea()
      modifies this`addAreaVisible
      ensures addAreaVisible
    {
      addAreaVisible := true;
    }

    /** `handlePdfClick`: shows the pressed floor plan in the viewer. */
    method PdfClick(uri: string)
      modifies this`selectedPdfUri, this`pdfVisible
      ensures selectedPdfUri == Some(uri) && pdfVisible
    {
      selectedPdfUri, pdfVisible := Some(uri), true;
    }

    method ClosePdf()
      modifies this`pdfVisible
      ensures !pdfVisible
    {
      pdfVisible := false;
    }
  }
}
