# Construction-project client: a verified model

This project models the decision logic of a construction-project client app (React Native, JavaScript) in Dafny, with proofs of its properties. The app lets a user:

- browse their projects and add one;
- follow progress along the project interval;
- order candidate materials;
- record defects and mark them repaired with a photo;
- upload photos of orders and deliveries;
- view floor plans, construction categories and contacts.

The app restores a signed-in user from device storage at start-up. It keeps the active tab, user, project and language in four Redux slices.

The model follows the source, one module per source file:

- Pure computations (bar geometry, request bodies, URL building, list mappers, the search filter, grouping) are Dafny functions. Their contracts say what the result means.
- Each screen's React state is a class. Every handler is a method with a `modifies` frame and a postcondition giving the whole new state.
- Each Redux slice is a class with one method per reducer.
- Network responses, storage reads, picker results, token decoding and the clock are parameters of the methods:
  - `Common.Fetch` is a failed request or a payload;
  - `Common.PickResult` is a cancelled pick or the picked URIs;
  - `Session.DecodedToken` is the decoding outcome;
  - `now` is a millisecond timestamp.
- A JavaScript `Date` is `Common.Date`: a time value, or `Invalid` for NaN. `<` between Dates is `Common.Before`, which is false when either side is NaN.
- A request a handler triggers without awaiting it (a refetch after a successful add) is its own method call. That method is the fetch handler of the same class.
- Where a form or upload is sent, the method returns the request it sends (`sent`, `None` when nothing is sent). A `succeeded`/`status200` parameter gives the outcome.

## Model

| member | source | states |
|---|---|---|
| Common.LastSegment | app/AddDefect.js:131 | `split("/").pop()`: the result has no '/', is a suffix of the input, and is preceded by '/' whenever it is shorter than the input |
| Common.LastSegmentAfterSlash | app/components/UploadImageModal.js:85 | for any `dir/file` with no '/' in `file`, the last segment is exactly `file` |
| Common.ImagePartNamedAfterFile | app/screens/Material/Defect.js:147-151 | an image form part for `dir/file` is named `file` |
| Common.SinglePick | app/AddDefect.js:82-106 | after a single-image pick the list holds at most one URI: empty iff the pick was cancelled, else the first asset |
| Common.PickedEnd | app/index.js:297-306 | the end-date picker: a choice before the start date keeps the previous end date, any other choice is taken |
| Common.PickedEndKeepsOrder | app/Milestone.js:240-252 | the end-date picker never moves an end date that was not before the start to before it |
| Common.ToLower | app/index.js:104 | `toLowerCase` keeps the length and lowers each ASCII capital |
| Common.IncludesIffOccurs | app/index.js:104 | `includes` holds exactly when the needle occurs at some position |
| Common.Filter | app/index.js:103-105 | `filter` yields a subsequence holding exactly the accepted elements; distinct input gives distinct output |
| Common.FilterCounts | app/CandidateMaterials.js:97-99 | `filter` keeps each accepted element as many times as it occurs and drops every other |
| Common.SubsequenceReflexive | app/index.js:108 | a list is a subsequence of itself (the unfiltered search result) |
| Common.SubsequenceOfCons | app/index.js:103-105 | prepending to a list keeps its subsequences subsequences |
| Common.SubsequenceDropFirst | app/index.js:103-105 | dropping the head of a subsequence leaves a subsequence |
| Common.SubsequenceElements | app/screens/Material/Contact.js:59 | every element of a subsequence is an element of the list |
| Common.StringOf | app/screens/Material/Defect.js:154 | `String(x)` of a stored value is the string itself, or "null" when nothing is stored |
| Session.Lookup | app/_layout.js:35-36 | reading storage gives the stored value iff the key is stored |
| Progress.ProjectBarWidth | app/progress.js:192-193 | the width always lies in [0, 100], equals the progress when that is in range, and is 0 below and 100 above |
| Progress.ShownProjectBar | app/progress.js:121 | the rendered width is NaN exactly while no summary is stored (the `{}` state of line 21 has no `progress`, and line 193 gives `Math.max(0, undefined)`); a stored summary gives a width in [0, 100], its own percentage when that is in range |
| Progress.StatusColour | app/progress.js:236-249 | completed → `#82b86a`, risky → orange, upcoming → `#d1ced3`, any other status → gold, each as an iff |
| Progress.CategoryBarOf | app/progress.js:201-249 | nothing is rendered iff a category date is invalid or the project duration is ≤ 0; an invalid project date passes the guard and gives NaN geometry; otherwise the offset is the raw offset floored at 0 and the width the raw width capped at 100 |
| Progress.FullSpanCategory | app/progress.js:226-233 | a category spanning exactly the project gets offset 0 and width 100 |
| Progress.OffsetNotCapped | app/progress.js:226-229 | the offset is not capped: a category after the project's end gets offset 200 |
| Progress.WidthNotFloored | app/progress.js:230-233 | the width is not floored: a category ending before it starts gets width −30 |
| Progress.ThirdOfJanuary | app/progress.js:226-233 | a 10-day category 10 days into a 30-day project gets offset and width 100/3 |
| Progress.LexLeqTotal | app/progress.js:67-69 | the `cc_id` order is total |
| Progress.LexLeqTransitive | app/progress.js:67-69 | the `cc_id` order is transitive |
| Progress.Swap | app/progress.js:67-69 | exchanges two neighbouring entries, and so permutes the array |
| Progress.InsertAt | app/progress.js:67-69 | inserting one entry into a sorted prefix leaves a longer sorted prefix, a permutation, and the rest untouched |
| Progress.SortByCcId | app/progress.js:67-69 | the category array ends sorted by `cc_id` and is a permutation of what it held |
| Progress.ProgressView.constructor | app/progress.js:20-23 | no summary, no categories, loading |
| Progress.ProgressView.ReceiveProjectProgress | app/progress.js:37-57 | with a stored user id and a body, the summary is stored with a missing, non-numeric or zero percentage as 0; otherwise it is unchanged |
| Progress.ProgressView.ReceiveCategoryProgress | app/progress.js:59-77 | a present list is stored sorted by `cc_id` and as a permutation of the server's list; otherwise nothing changes |
| CandidateMaterials.Toggled | app/CandidateMaterials.js:57-67 | a product with a truthy quantity is removed; an absent one, or one stored as "", is stored with 1; no other entry changes; a selection with no zero stays so |
| CandidateMaterials.QuantityEdited | app/CandidateMaterials.js:69-77 | input with a non-digit changes nothing; "" is stored as ""; other digit input is stored as max(1, value), its value when that is at least 1 and exactly 1 when it is 0, selecting the product; no other entry changes; no quantity becomes 0 |
| CandidateMaterials.ZerosValue | app/CandidateMaterials.js:74 | `parseInt` of a string of zeros of any length is 0 |
| CandidateMaterials.ZerosStoreOne | app/CandidateMaterials.js:71-74 | typing any non-empty run of zeros ("0", "00", "000", …) stores 1 |
| CandidateMaterials.LeadingZerosDropped | app/CandidateMaterials.js:74 | "007" stores 7 |
| CandidateMaterials.PositiveIds | app/CandidateMaterials.js:97-99 | the selected ids are exactly the entries with a quantity above 0, without repeats, in key order |
| CandidateMaterials.CanOrderIffSomePositive | app/CandidateMaterials.js:79-94 | the order dialog can open iff some quantity is above 0 |
| CandidateMaterials.ProductLines | app/CandidateMaterials.js:100-104 | one line per selected id, in order, with its quantity and the current category key |
| CandidateMaterials.OrderRequestOf | app/CandidateMaterials.js:100-116 | the request's lines are the selected products with their quantities and the category key; Option 2 sets `variable_order`, Option 1 `order_type` |
| CandidateMaterials.OneLinePerPositiveProduct | app/CandidateMaterials.js:97-106 | the request has exactly one line per product with quantity above 0, each line's quantity is above 0, and no product appears twice |
| CandidateMaterials.OrderKindsExclusive | app/CandidateMaterials.js:109-114 | `order_type` and `variable_order` are each other's negation |
| CandidateMaterials.ProductList.constructor | app/CandidateMaterials.js:20-24 | nothing selected, dialog closed, "Option 1" chosen |
| CandidateMaterials.ProductList.ToggleCheckbox | app/CandidateMaterials.js:57-67 | the selection becomes `Toggled` of the old one and keeps no zero quantity |
| CandidateMaterials.ProductList.HandleQuantityChange | app/CandidateMaterials.js:69-77 | the selection becomes `QuantityEdited` of the old one and keeps no zero quantity |
| CandidateMaterials.ProductList.SelectOption | app/CandidateMaterials.js:168-183 | the chosen dialog option is stored |
| CandidateMaterials.ProductList.ShowModal | app/CandidateMaterials.js:79-94 | alerts iff no quantity is above 0, and opens the dialog otherwise |
| CandidateMaterials.ProductList.HandleConfirm | app/CandidateMaterials.js:96-132 | sends nothing iff no quantity is above 0; otherwise sends `OrderRequestOf` and closes the dialog whatever the POST's outcome |
| ProjectList.SearchResults | app/index.js:100-110 | an empty query shows every project; otherwise exactly the projects whose lower-cased title contains the lower-cased query; always a subsequence of the list |
| ProjectList.SearchKeepsMatchingCounts | app/index.js:103-105 | a non-empty query keeps each matching project as often as it is listed, and no other |
| ProjectList.SearchFindsTitleInfix | app/index.js:104 | a query occurring anywhere in the title, ignoring ASCII case, matches |
| ProjectList.Validate | app/index.js:112-135 | refused for a missing field iff one of the nine required fields is empty; refused for dates iff all are filled and the end is before the start; equal dates pass |
| ProjectList.NewProjectOf | app/index.js:137-156 | the address has exactly district, area, street and floor/unit from the four address fields; the other fields come from the form and the stored ids |
| ProjectList.ProjectListScreen.constructor | app/index.js:32-55 | empty query and lists, no stored ids, empty form, both dates now, every dialog and picker closed |
| ProjectList.ProjectListScreen.FetchUserIdAndProjects | app/index.js:61-88 | the stored ids are kept; with a user id, a `projects` array fills both lists and anything else empties both; a failure keeps them; loading and refreshing end; the filtered list stays a subsequence |
| ProjectList.ProjectListScreen.HandleSearch | app/index.js:100-110 | stores the query and the filtered list `SearchResults` gives |
| ProjectList.ProjectListScreen.ResetModalFields | app/index.js:177-186 | clears name, quotee, company and address string, resets both dates to now, keeps district, area, floor/unit and street |
| ProjectList.ProjectListScreen.AddProject | app/index.js:112-171 | sends iff `Validate` accepts; a 200 response closes the dialog and resets the form; anything else changes nothing |
| ProjectList.ProjectListScreen.HandleProjectClick | app/index.js:90-93 | the pressed project becomes the store's active project |
| ProjectList.ProjectListScreen.OnStartPicked | app/index.js:262-268 | the start picker takes any date and closes |
| ProjectList.ProjectListScreen.OnEndPicked | app/index.js:297-306 | the end picker applies `PickedEnd` and closes |
| Milestone.ValidateTask | app/Milestone.js:83-95 | refused iff the description is empty, or the end is before the start; equal dates pass |
| Milestone.InvalidDatesAccepted | app/Milestone.js:83-95 | two invalid dates pass the date check, since NaN compares false |
| Milestone.MilestoneTab.constructor | app/Milestone.js:20-27 | empty description and task list, both dates now, dialog and pickers closed |
| Milestone.MilestoneTab.OnActiveTabChange | app/Milestone.js:30-36 | a change of active tab closes both pickers |
| Milestone.MilestoneTab.FetchTasks | app/Milestone.js:38-59 | requests the active tab's tasks iff a user id is stored; a `tasks` field replaces the list, a missing one or a failure keeps it; loading ends |
| Milestone.MilestoneTab.ResetFields | app/Milestone.js:97-102 | empties the description, resets both dates to now and closes the dialog |
| Milestone.MilestoneTab.HandleAddTask | app/Milestone.js:61-95 | sends iff `ValidateTask` accepts and a user id is stored; a request that does not fail resets the form; a failed one leaves it untouched |
| Milestone.MilestoneTab.OnStartPicked | app/Milestone.js:207-213 | the start picker accepts any date, even one after the end date, and closes |
| Milestone.MilestoneTab.OnEndPicked | app/Milestone.js:240-252 | the end picker applies `PickedEnd` and closes |
| AddDefect.DropdownOptions | app/AddDefect.js:208-211 | one entry per area, in order, labelled with its description and valued with its id |
| AddDefect.DefectSubmission | app/AddDefect.js:113-139 | checks area, then description, then image, stopping at the first missing one; the report carries the first image as `pic_bef_repair` and the four query parameters in order |
| AddDefect.CompleteFormSendsPhoto | app/AddDefect.js:127-132 | a complete form sends the photo under its own file name |
| AddDefect.AddDefectDialog.constructor | app/AddDefect.js:25-32 | closed, no areas, no area chosen, no photo, empty description |
| AddDefect.AddDefectDialog.Open | app/AddDefect.js:186 | the add button opens the dialog |
| AddDefect.AddDefectDialog.SelectArea | app/AddDefect.js:216 | the chosen dropdown value becomes the area id |
| AddDefect.AddDefectDialog.EditDescription | app/AddDefect.js:222 | the typed text becomes the description |
| AddDefect.AddDefectDialog.FetchAreas | app/AddDefect.js:42-60 | an `area_descriptions` array replaces the areas; anything else keeps them |
| AddDefect.AddDefectDialog.PickImage | app/AddDefect.js:75-111 | the image list becomes the single pick, at most one URI |
| AddDefect.AddDefectDialog.ConfirmUpload | app/AddDefect.js:113-173 | sends what `DefectSubmission` builds; a 200 response closes the dialog, clears the images and invokes the callback iff one was given, keeping description and area; anything else changes nothing |
| AddDefect.AddDefectDialog.CancelUpload | app/AddDefect.js:175-180 | closes the dialog and clears images, description and area |
| DefectCompletion.PictureUrl | app/screens/Material/Defect.js:65-71 | a photo URL starts with `<api>/<kind>/` |
| DefectCompletion.PictureUrlNamesFile | app/screens/Material/Defect.js:66 | a photo URL ends in `<id>.<extension>` |
| DefectCompletion.PictureOf | app/screens/Material/Defect.js:62-71 | a URL exists iff the document does |
| DefectCompletion.WithPictures | app/screens/Material/Defect.js:60-75 | every defect, in order, unchanged, with its before- and after-repair URLs or null |
| DefectCompletion.UploadOfferedIffNotCompleted | app/screens/Material/Defect.js:241-267 | a row offers the upload iff its defect has no after-repair document, that is iff it is not shown as completed |
| DefectCompletion.CompletionUploadOf | app/screens/Material/Defect.js:146-168 | as written: a warm-up request to the literal path `${API_URL}/`, then the first photo as `pic_af_repair`, named after the last segment of its path, to `<api>/update-defect-completion-status/<defect_id>` with `user_id` as the query |
| DefectCompletion.CorrectedCompletionUploadOf | app/screens/Material/Defect.js:158-168 | as corrected: the warm-up goes to `<api>/`, the same server as the upload; path, query and photo part are those of `CompletionUploadOf` |
| DefectCompletion.WarmUpUrl | app/components/UploadImageModal.js:103 | the warm-up request goes to the API base followed by '/' |
| DefectCompletion.WarmUpMissesServer | app/screens/Material/Defect.js:159 | as written, for every non-empty API base not starting with '$', the warm-up URL does not start with the API base and differs from the intended one |
| DefectCompletion.DefectsScreen.constructor | app/screens/Material/Defect.js:25-31 | no defects, loading, dialog closed, no photo, no defect chosen, user id "" |
| DefectCompletion.DefectsScreen.OnCategoryChange | app/screens/Material/Defect.js:92-95 | a change of active tab empties the list before the refetch |
| DefectCompletion.DefectsScreen.FetchDefects | app/screens/Material/Defect.js:47-90 | keeps the stored user id; with one, a 200 response stores `WithPictures` of its defects (none when the field is missing); otherwise the list is kept; loading ends |
| DefectCompletion.DefectsScreen.OpenUploadModal | app/screens/Material/Defect.js:97-100 | remembers the defect and opens the dialog |
| DefectCompletion.DefectsScreen.PickImage | app/screens/Material/Defect.js:102-138 | the image list becomes the single pick, at most one URI |
| DefectCompletion.DefectsScreen.ConfirmUpload | app/screens/Material/Defect.js:140-199 | sends nothing without a photo; otherwise sends the as-written `CompletionUploadOf` the first photo; a 200 response closes the dialog and clears the images; anything else changes nothing |
| DefectCompletion.DefectsScreen.CancelUpload | app/screens/Material/Defect.js:201-204 | closes the dialog and clears the images |
| UploadImageModal.TargetOf | app/components/UploadImageModal.js:87-98 | "order" selects `ordered_pics`, `ordered_user_id`, `update-order-status`; any other status the delivered equivalents |
| UploadImageModal.UploadUrl | app/components/UploadImageModal.js:93-99 | the URL starts with `<api>/<link>/<cr_id>?`, continues with the status's query key (`ordered_user_id` or `delivered_user_id`) and `=`, and ends with the user id |
| UploadImageModal.OrderAndDeliveryPathsDiffer | app/components/UploadImageModal.js:95-99 | order photos and delivery photos of the same record never go to the same URL |
| UploadImageModal.BuildParts | app/components/UploadImageModal.js:83-90 | one part per photo, in order, under the one field, each named by its last path segment |
| UploadImageModal.UploadModal.constructor | app/components/UploadImageModal.js:28 | no photo collected |
| UploadImageModal.UploadModal.PickFromCamera | app/components/UploadImageModal.js:48-56 | a camera photo is appended; a cancelled camera adds nothing |
| UploadImageModal.UploadModal.PickFromLibrary | app/components/UploadImageModal.js:60-71 | every library photo is appended, in selection order, after the ones already collected |
| UploadImageModal.UploadModal.ConfirmUpload | app/components/UploadImageModal.js:77-127 | sends nothing for an empty list; otherwise a warm-up GET to `<api>/`, then every photo, in order, to `UploadUrl`; a 200 response clears the list and asks to close; any failure keeps the list |
| UploadImageModal.UploadModal.Dismiss | app/components/UploadImageModal.js:134-137 | closing or cancelling clears the list |
| Blueprint.MainFloorPlanFiles | app/screens/Blueprint/Blueprint.js:54-61 | each main floor plan, in order, at `<api>/main-floor-plan/<id>.<ext>` with its name and content type |
| Blueprint.AreaFiles | app/screens/Blueprint/Blueprint.js:80-84 | each area picture, in order, at `<api>/area-floor-plan<image_url>` with its name and content type |
| Blueprint.MainFloorPlanNamesFile | app/screens/Blueprint/Blueprint.js:57 | a main floor plan's URL ends in `<id>.<ext>` |
| Blueprint.FileTiles | app/screens/Blueprint/Blueprint.js:181 | one file tile per file, in order |
| Blueprint.GridData | app/screens/Blueprint/Blueprint.js:179-183 | empty while "Area" is selected; otherwise the files followed by exactly one add tile |
| Blueprint.AddTileOnlyLast | app/screens/Blueprint/Blueprint.js:179-183 | the grid's entry at position i is the add tile exactly when i is the number of files |
| Blueprint.AddDialogFor | app/screens/Blueprint/Blueprint.js:190-194 | the add tile opens the main-plan dialog iff "Main" is selected |
| Blueprint.AreaNamesShadowButtons | app/screens/Blueprint/Blueprint.js:153-193 | while "Area" is selected the grid is empty, and only "Main" opens the main-plan dialog |
| Blueprint.BlueprintScreen.constructor | app/screens/Blueprint/Blueprint.js:20-31 | no areas, no files, "Main" selected, every list, dialog and viewer closed |
| Blueprint.BlueprintScreen.FetchAreas | app/screens/Blueprint/Blueprint.js:35-44 | the `area_descriptions` field is stored as received, missing included; a failure keeps the areas |
| Blueprint.BlueprintScreen.FetchFloorPlans | app/screens/Blueprint/Blueprint.js:46-69 | a `floor_plan_documents` list replaces the files; a missing list or a failure keeps them |
| Blueprint.BlueprintScreen.FetchCurrentAreaFiles | app/screens/Blueprint/Blueprint.js:71-93 | a `pic_details` list replaces the files (empty for an empty list); a missing list or any error empties them |
| Blueprint.BlueprintScreen.PressMain | app/screens/Blueprint/Blueprint.js:119-125 | clears the files, selects "Main" and hides the area list |
| Blueprint.BlueprintScreen.PressArea | app/screens/Blueprint/Blueprint.js:136-140 | clears the files, toggles the area list and selects "Area" |
| Blueprint.BlueprintScreen.ChooseArea | app/screens/Blueprint/Blueprint.js:155-158 | selects the area's description and id |
| Blueprint.BlueprintScreen.PressAddTile | app/screens/Blueprint/Blueprint.js:190-194 | opens the dialog `AddDialogFor` names and leaves the other as it was |
| Blueprint.BlueprintScreen.PressAddArea | app/screens/Blueprint/Blueprint.js:170 | the + button opens the add-area dialog |
| Blueprint.BlueprintScreen.PdfClick | app/screens/Blueprint/Blueprint.js:100-103 | shows the pressed floor plan in the viewer |
| Blueprint.BlueprintScreen.ClosePdf | app/screens/Blueprint/Blueprint.js:221 | the close button hides the viewer |
| ProjectCategory.CategoryTabs | app/screens/Project/projectCategory.js:54-59 | same length and order, key = `cc_id`, label = `cc_name` |
| ProjectCategory.FormatCategories | app/screens/Project/projectCategory.js:50-63 | a non-array payload gives no categories; an array gives `CategoryTabs` of it |
| ProjectCategory.DistinctIdsDistinctKeys | app/screens/Project/projectCategory.js:54-59 | distinct category ids give distinct tab keys |
| ProjectCategory.CategoryScreen.constructor | app/screens/Project/projectCategory.js:28-31 | no categories, dialog closed, empty name |
| ProjectCategory.CategoryScreen.FetchProjectCategory | app/screens/Project/projectCategory.js:40-70 | requests the active project's categories iff a user id is stored and a project is active; the response replaces the list by its formatting; a failure keeps it; loading ends |
| ProjectCategory.CategoryScreen.HandleItemPress | app/screens/Project/projectCategory.js:72-76 | the pressed category becomes the active tab and the whole list the available tabs; the sub-tab is untouched |
| ProjectCategory.CategoryScreen.HandleAddPress | app/screens/Project/projectCategory.js:78-80 | opens the add dialog |
| ProjectCategory.CategoryScreen.EditName | app/screens/Project/projectCategory.js:170 | the typed text becomes the category name |
| ProjectCategory.CategoryScreen.HandleConfirm | app/screens/Project/projectCategory.js:82-99 | does nothing for an empty name; sends iff a user id is stored and a project is active; success clears the name and closes the dialog; failure leaves both |
| ProjectCategory.CategoryScreen.HandleCancel | app/screens/Project/projectCategory.js:101-104 | clears the name and closes the dialog |
| Contact.RolesOf | app/screens/Material/Contact.js:59 | the roles of the shown sections, in order |
| Contact.Groups | app/screens/Material/Contact.js:59-99 | sections follow the order of roles given; a section appears exactly for each role with a non-empty list, holding that list in response order |
| Contact.UnlistedRolesHidden | app/screens/Material/Contact.js:41-46 | only the four listed roles are ever shown |
| Contact.RenderAsWritten | app/screens/Material/Contact.js:32 | as written, a response without `grouped_contacts` makes the screen crash |
| Contact.MissingFieldCrashes | app/screens/Material/Contact.js:60 | the crash happens for the missing field |
| Contact.Render | app/screens/Material/Contact.js:59-99 | never crashes; a missing field shows no section; otherwise it agrees with the source |
| Contact.NoContactsNoSections | app/screens/Material/Contact.js:61 | with no contacts nothing is shown |
| Contact.TelLink | app/screens/Material/Contact.js:76 | "tel:" followed by exactly the mobile number |
| Contact.MailtoLink | app/screens/Material/Contact.js:87 | "mailto:" followed by exactly the e-mail address |
| Contact.ContactScreen.constructor | app/screens/Material/Contact.js:20-21 | no contacts, loading |
| Contact.ContactScreen.Shown | app/screens/Material/Contact.js:56-102 | as written: the loaded screen crashes iff the stored field is missing; otherwise it renders the sections `Render` gives, only of the four listed roles |
| Contact.ContactScreen.ShownCorrected | app/screens/Material/Contact.js:56-102 | as corrected: always sections, of the four listed roles only; none for a missing field; the same as `Shown` when the field is present |
| Contact.ContactScreen.FetchContact | app/screens/Material/Contact.js:27-39 | the response's field replaces the contacts; a failure keeps them; loading ends either way |
| Session.UnexpiredIffBeforeExpiry | app/_layout.js:32-34 | a token is live exactly while now, in milliseconds, is before `exp`·1000 |
| Session.Routes | app/_layout.js:103-116 | signed in: the seven app screens; signed out: only `signin`; `+not-found` always last |
| Session.StacksShareOnlyNotFound | app/_layout.js:103-116 | the two stacks share only the not-found screen |
| Session.Session.constructor | app/_layout.js:83 | the app starts signed out |
| Session.Session.LoadUserData | app/_layout.js:26-71 | the whole decision tree: no token; undecodable token; expired token (clears storage); cached user (no request); `users/me` success (store and storage updated) or failure; `networkCall` exactly on the last path |
| TabsSlice.TabsStore.constructor | features/tabs/tabsSlice.js:5-9 | active tab {"" , ""}, no available tabs, no sub-tab |
| TabsSlice.TabsStore.SetActiveTab | features/tabs/tabsSlice.js:11-14 | replaces only the active tab, whatever it was |
| TabsSlice.TabsStore.SetAvailableTabs | features/tabs/tabsSlice.js:15-17 | replaces only the available tabs |
| TabsSlice.TabsStore.SetActiveSubTab | features/tabs/tabsSlice.js:18-21 | replaces only the sub-tab |
| TabsSlice.TabsStore.BackButtonReset | app/components/materialBackButton.js:19-21 | the three reset actions give the initial state except that the key and label are null, not "" |
| UserSlice.UserStore.constructor | features/user/userSlice.js:5-9 | all three fields "" |
| UserSlice.UserStore.SetUser | features/user/userSlice.js:11-15 | all three fields from the payload, a missing `companyId` included |
| UserSlice.UserStore.ClearUser | features/user/userSlice.js:16-20 | all three fields "", whatever they were |
| ProjectSlice.ProjectStore.constructor | features/project/projectSlice.js:3-5 | no project |
| ProjectSlice.ProjectStore.SetProject | features/project/projectSlice.js:11-14 | the payload replaces any previous project |
| ProjectSlice.ProjectStore.ClearProject | features/project/projectSlice.js:15-17 | no project, whatever there was |
| LanguageSlice.LanguageStore.constructor | features/language/languageSlice.js:6 | the language is "en" |
| LanguageSlice.LanguageStore.SetLanguage | features/language/languageSlice.js:9-12 | any payload is stored unchanged, and only the language changes |

Every reducer's postcondition fixes the new value of its field whatever the old state was. So each reducer is idempotent and the last write wins. `SetUser`/`SetProject` followed by `ClearUser`/`ClearProject` gives the initial state.

## Left out

- I/O: HTTP requests, AsyncStorage, the image and document pickers, `Linking.openURL`, `jwtDecode` and permission prompts are not modelled. Their results are method parameters, and their failures are `Fetch.Failed`. Alerts and console output are not modelled.
- The API base URL is a parameter. It comes from `@env` or from `process.env`, and some files use a literal host. Whether `EXPO_API_URL` (without the `EXPO_PUBLIC_` prefix) is defined at run time is not modelled.
- Rendering, styles, word tables and language switching are not modelled. Only the decisions that select what is shown are: bars, grid data, sections, upload affordance and routes.
- Concurrency is not modelled: two fetches in flight, a response arriving after unmount, last-write-wins among fetches. Each fetch is one atomic method call.
- Item ids are taken as strings, with `String(x)` of a number left out. Query strings are modelled as ordered key-value pairs, without URL encoding.
- `dayjs` date formatting in request bodies is not modelled: the model keeps the `Date`. `new Date(params.date)` parsing is not modelled: the picker's Date is a parameter.
- Upload timeouts (the 20-second limit) and the `error.response` / `error.request` alert branches are left out. Every failure is one outcome.
- Progress.LexLeq: `localeCompare` is modelled as code-unit lexicographic order. Locale collation is not modelled.
- Common.ToLower: `toLowerCase` lowers ASCII letters only. Unicode case mapping is not modelled.
- CandidateMaterials.DigitsValue: `parseInt` is exact on unbounded integers. Loss of precision beyond 2^53 is not modelled.
- CandidateMaterials.PositiveIds: the enumeration order of `Object.keys` is an input that lists each key once.
- Progress.SortByCcId: an insertion sort stands in for the engine's in-place `sort`. Its contract does not state stability for equal `cc_id`s, which the engine's `Array.prototype.sort` guarantees since ES2019.
- Progress.ProgressView: the loading flag wrapped around the two progress fetches is not modelled beyond its initial value.
- The candidate-material list fetch and its picture-URL mapping are not modelled. The same holds for the floor-plan and area upload dialogs, which are separate components.
- Picker results: the source tests `result.cancelled`. On picker versions that report `canceled` instead, a cancelled pick throws when reading `assets[0]`. The single-image pickers then end with the list already emptied, and the multi-image dialog with the list unchanged. Both match the model's `Cancelled` outcome.
- Milestone.ValidateTask: the `!startDate || !endDate` guards are always false, because Dates are objects. They are therefore not modelled.
- Milestone.MilestoneTab.OnActiveTabChange: the active tab from the store is always an object, so the effect's `if (activeTab)` test always passes.
- The start-date pickers put no constraint on the end date. So `!Before(endDate, startDate)` is not an invariant of either form, and only the submit checks enforce it.

## Findings

| source | as written | input that shows it | evidently intended | confidence | as-written member | corrected member |
|---|---|---|---|---|---|---|
| app/screens/Material/Defect.js:159 | the warm-up request URL is a plain string `"${API_URL}/"`, so no interpolation happens | any API base not starting with '$', e.g. `http://34.57.68.176:8000`: the request goes to the relative path `${API_URL}/` | a template literal `${API_URL}/`, as in app/components/UploadImageModal.js:103 | medium, not executed | DefectCompletion.WarmUpMissesServer | DefectCompletion.CorrectedCompletionUploadOf |
| app/screens/Material/Contact.js:32 | a response without `grouped_contacts` stores `undefined`, and line 60 then indexes it during render | a 200 response whose body lacks `grouped_contacts` | treat a missing field like an empty object and show no section | medium, not executed | Contact.RenderAsWritten | Contact.ContactScreen.ShownCorrected |
