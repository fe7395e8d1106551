# UneTrack asset management in Dafny

UneTrack is a web application for a digital-signage estate: screens, media players and accessories ("assets in use"), each of an asset type ("master asset") in a category, placed in a location > section > sub-section > zone hierarchy, and kept by maintenance schedules. The behaviour that lives in its React components and its shared asset context is modelled here. The Dafny code has one module per component, and each module proves what that component promises:

- Maintenance due dates are computed from the last maintenance and the schedule's interval, with JavaScript `Date` month overflow; month steps use the corrected month arithmetic, which agrees with the program for every interval of zero or more months (see Findings). A seven-way status cascade classifies them, and saving a schedule onto an asset uses the same arithmetic (`MaintenanceSchedules`, `Calendar`).
- The asset list can be searched, filtered, sorted and paged. Its handlers cover edit, create, duplicate, bulk delete and bulk status update, plus an import that turns CSV rows into assets (`AssetsInUse`).
- Some deletes are guarded and some names must be unique:
  - categories (`AssetCategories`, `CategoryModal`);
  - asset types (`AssetLibrary`);
  - the shared store's local-state updates (`AssetContext`).
- The asset detail view: its warranty and next-maintenance day counts (`AssetDetailModal`).
- The dashboard and report counters: partitions into warranty, maintenance, connectivity and age buckets, distributions, and the power and utilisation rankings (`Dashboard`, `ReportsDashboard`).
- The form schemas become predicates, and each form has its submit mapping (`AssetModal`, `UnifiedAssetModal`, `ScheduleEditModal`, `CategoryModal`, `ServiceSchemeCreate`).
- The location cascade: option lists are filtered by parent id, and descendant choices are reset (`AssetModal`, `AssetFilters`).
- Several small editors:
  - users and roles (`UserManagement`);
  - maintenance procedures (`Settings`);
  - the export/import job list and its record counts (`DataManagement`);
  - the category browser (`CategoriesPage`).

Shared modules hold the records (`Types`, after `lib/types.ts`), the JavaScript string and number built-ins the components rely on (`Strings`: case mapping, `split`/`join`, `trim`, `Number`, `Number.parseInt`, the `Math.max(...ids, 0) + 1` id rule with NaN), list helpers (`Seqs`), an insertion sort (`Sorting`) and civil-calendar arithmetic (`Calendar`).

Representation choices:

- An instant is an integer count of milliseconds, read in UTC. A day is a whole number of days since 1970-01-01. Weeks start on Sunday.
- A date kept as text on a record is an `Option<int>`. `None` stands for a missing or empty text.
- Amounts are whole numbers; coordinates are in hundredths of a degree.
- Component state that the source updates in place becomes a `class`: the page's fields are Dafny fields, and each handler is a method with a `modifies` clause. Computations that only derive a value are functions, and lemmas state their properties.
- The backend, the clock and `Date.now` ids come in as parameters. A backend answer is `Stored(row)` or `Failed(message)`.
- Adding or updating an asset sends only the 23 columns `addAsset` and `updateAsset` name, plus the status (`AssetColumns`; an insert also carries the user's id). Every other field of the record, the maintenance fields among them, is not sent.

## Model

| member | source | states |
|---|---|---|
| AssetContext.ScheduleIds | lib/asset-context.tsx:257 | the id list has one entry per schedule, in order, each that schedule's id |
| AssetContext.ReplaceById | lib/asset-context.tsx:251 | `map(x => x.id === y.id ? y : x)`: same length; entries with y's id become y; every other entry is unchanged in place |
| AssetContext.ReplaceByIdFinds | lib/asset-context.tsx:251 | when the id was present, a lookup by that id after the replacement finds the new record |
| AssetContext.ReplaceByIdKeepsOthers | lib/asset-context.tsx:251 | the records with other ids form the same sub-list before and after a replacement |
| AssetContext.DeleteById | lib/asset-context.tsx:266-268 | a record is kept exactly when it was present and its id differs; kept plus removed is the old length |
| AssetContext.InsertPayload | lib/asset-context.tsx:126-154 | the inserted row is the asset's 23 sent columns with the status, or "active" when it is empty, and the user's id; writing the columns back onto the asset changes only its status |
| AssetContext.ColumnsRoundTrip | lib/asset-context.tsx:177-201 | the columns sent are a projection of the asset: writing an asset's own columns back changes nothing, and written columns read back unchanged |
| AssetContext.UnsentFieldsIgnored | lib/asset-context.tsx:177-201 | fields outside the 23 sent columns and the status (the id, the location hierarchy, the maintenance fields) never reach the backend: two assets send the same columns exactly when they differ only in such fields |
| AssetContext.CategoryPayload | lib/asset-context.tsx:229-233 | the inserted category row: its name, its description and the user's id |
| AssetContext.CategoryIdNotSent | lib/asset-context.tsx:229-233 | two categories send the same row exactly when their names and descriptions agree: the client-side id never reaches the backend |
| AssetContext.AddedSchedule | lib/asset-context.tsx:254-260 | the old list is kept as a prefix and the schedule is appended once, with id `max(Number(ids), 0) + 1` |
| AssetContext.AddedScheduleFresh | lib/asset-context.tsx:254-260 | when every existing id is numeric, the appended schedule's id differs from every existing id |
| AssetContext.AssetProvider.constructor | lib/asset-context.tsx:42-53 | every list starts empty, nobody is signed in, and loading is on |
| AssetContext.AssetProvider.SetAssets | lib/asset-context.tsx:48 | the assets become the given list; nothing else changes |
| AssetContext.AssetProvider.SetCategories | lib/asset-context.tsx:46 | the categories become the given list; nothing else changes |
| AssetContext.AssetProvider.SetMasterAssets | lib/asset-context.tsx:47 | the master assets become the given list; nothing else changes |
| AssetContext.AssetProvider.SessionChanged | lib/asset-context.tsx:72-81 | the user is recorded; a session without a user empties categories and assets and stops loading; a session with a user keeps them |
| AssetContext.AssetProvider.LoadData | lib/asset-context.tsx:86-116 | each list that loaded replaces the old one, a failed load keeps the old one, and loading ends off in every case |
| AssetContext.AssetProvider.AddAsset | lib/asset-context.tsx:118-168 | without a user, throws "User must be authenticated to add assets" and changes nothing; otherwise InsertPayload with the user's id is sent, a backend failure is rethrown and changes nothing, and a stored row goes in front of the list |
| AssetContext.AssetProvider.UpdateAsset | lib/asset-context.tsx:170-218 | the same three outcomes; the asset's columns are sent for its id, and a stored row replaces every asset with that id |
| AssetContext.AssetProvider.AddCategory | lib/asset-context.tsx:220-248 | the same three outcomes; CategoryPayload with the user's id is sent, and a stored row is appended to the categories |
| AssetContext.AssetProvider.UpdateMasterAsset | lib/asset-context.tsx:250-252 | the master assets become their replacement by id; nothing else changes |
| AssetContext.AssetProvider.AddMaintenanceSchedule | lib/asset-context.tsx:254-260 | the schedules become AddedSchedule of the old list; nothing else changes |
| AssetContext.AssetProvider.UpdateMaintenanceSchedule | lib/asset-context.tsx:262-264 | the schedules become their replacement by id; nothing else changes |
| AssetContext.AssetProvider.DeleteMaintenanceSchedule | lib/asset-context.tsx:266-268 | the schedules become DeleteById of the old list; nothing else changes |
| AssetCategories.FilteredCategories | components/asset-categories/asset-categories.tsx:37-45 | an empty query lists every category; otherwise a category is listed exactly when its name, or its description when it has one, contains the query ignoring case |
| AssetCategories.UsageCount | components/asset-categories/asset-categories.tsx:141-144 | the number of assets using the category, at most the asset count |
| AssetCategories.UsageCountInUse | components/asset-categories/asset-categories.tsx:101-105 | the usage count is positive exactly when some asset uses the category, the test confirmDelete applies (also lines 141-144) |
| AssetCategories.SelectedInUse | components/asset-categories/asset-categories.tsx:80-84 | the in-use list is empty exactly when no selected id is used by an asset |
| AssetCategories.DuplicatedCategory | components/asset-categories/asset-categories.tsx:62-69 | the copy has the next numeric id, the name followed by " (Copy)" and the description (empty when missing) followed by " (Copy)" |
| AssetCategories.NewCategoryIdFresh | components/asset-categories/asset-categories.tsx:63 | with numeric ids, the id given to a created or duplicated category belongs to no existing category (also line 131) |
| AssetCategories.SavedCategories | components/asset-categories/asset-categories.tsx:123-132 | editing puts the saved category in place of every entry with its id and keeps the others, the length unchanged; creating keeps every entry and appends the saved name and description under the next numeric id |
| AssetCategories.CreateKeepsNamesUnique | components/asset-categories/asset-categories.tsx:130-132 | a category created through the dialog keeps category names unique |
| AssetCategories.EditKeepsNamesUnique | components/asset-categories/asset-categories.tsx:124-125 | an edit through the dialog keeps names unique when ids are unique |
| AssetCategories.AssetCategoriesPage.constructor | components/asset-categories/asset-categories.tsx:31-35 | the dialogs start closed, with nothing under edit, an empty search and no selection |
| AssetCategories.AssetCategoriesPage.DuplicateCategory | components/asset-categories/asset-categories.tsx:62-75 | the copy is appended; only the list changes |
| AssetCategories.AssetCategoriesPage.BulkDelete | components/asset-categories/asset-categories.tsx:77-99 | an empty selection changes nothing; if any selected category is in use, nothing is deleted and the selection stays; otherwise exactly the selected categories go and the selection is cleared; no category is ever added; only the list and the selection change |
| AssetCategories.AssetCategoriesPage.ConfirmDelete | components/asset-categories/asset-categories.tsx:101-121 | nothing under deletion changes nothing; a category in use stays; an unused one is removed by id; in both cases the dialog closes; only the list and the delete dialog change |
| AssetCategories.AssetCategoriesPage.SaveCategory | components/asset-categories/asset-categories.tsx:123-139 | the list becomes SavedCategories, as an edit exactly when a category is under edit; the dialog closes; the selection and the category under edit are outside its frame and stay |
| AssetCategories.AssetCategoriesPage.SelectAll | components/asset-categories/asset-categories.tsx:146-152 | ticking selects exactly the ids of the categories listed for the current search, in order; unticking clears the selection; only the selection changes |
| AssetCategories.AssetCategoriesPage.SelectCategory | components/asset-categories/asset-categories.tsx:154-160 | ticking appends the id; unticking filters out every occurrence of the id, keeping the other entries in order with their repeats (Seqs.FilterMultiplicity); only the selection changes |
| CategoryModal.SubmittedId | components/asset-categories/category-modal.tsx:68 | the edited category's id, or "0": never empty, and the id under edit when it has one |
| CategoryModal.Submit | components/asset-categories/category-modal.tsx:23-26 | rejected by the schema exactly when the name is not 1..100 characters or the description is longer than 500; a name error exactly when the form is valid and a category with another id has exactly that name; otherwise the record saved is (kept id or "0", name, description) (also lines 52-75) |
| CategoryModal.KeepOwnName | components/asset-categories/category-modal.tsx:55 | an edited category whose name only it carries is saved |
| CategoryModal.SavedNameIsFree | components/asset-categories/category-modal.tsx:55-64 | when a save happens, every category that has the name is the one under edit |
| AssetLibrary.SavedMasters | components/asset-library/asset-library.tsx:65-76 | editing puts the saved type in place of every entry with its id and keeps the rest in place; creating keeps the list as a prefix and appends the saved type, its fields but the id as given, under the next numeric id |
| AssetLibrary.NewMasterIdFresh | components/asset-library/asset-library.tsx:75 | with numeric ids, a created type's id belongs to no existing type |
| AssetLibrary.CategoryName | components/asset-library/asset-library.tsx:86-89 | "Unknown" when no category has the id; otherwise the name of the first category with the id |
| AssetLibrary.IconFor | components/asset-library/asset-library.tsx:91-103 | the display icon exactly when the lower-cased name contains display, screen, led or lcd; the player icon exactly when it does not but contains player or media; the accessory icon exactly when neither holds and it contains accessory; the default icon otherwise |
| AssetLibrary.AssetLibraryPage.constructor | components/asset-library/asset-library.tsx:23-25 | nothing under edit and both dialogs closed |
| AssetLibrary.AssetLibraryPage.ConfirmDelete | components/asset-library/asset-library.tsx:42-63 | nothing under deletion changes nothing; a type some asset refers to stays; an unused one is removed by id; the dialog closes in both cases; only the list and the delete dialog change |
| AssetLibrary.AssetLibraryPage.SaveAsset | components/asset-library/asset-library.tsx:65-83 | the list becomes SavedMasters, as an edit exactly when a type was under edit; the dialog closes; only the list and the edit dialog change |
| AssetLibrary.IconIgnoresCase | components/asset-library/asset-library.tsx:92 | the icon ignores case: an upper-cased name gets the same icon |
| CategoriesPage.FilteredMasterAssets | app/asset-categories/page.tsx:20-22 | no chosen category lists every master asset; otherwise a master asset is listed exactly when its categoryId is the chosen category |
| CategoriesPage.MasterDetails | app/asset-categories/page.tsx:25 | nothing without a chosen id; with one, a master asset is found exactly when some master asset has that id, and it is the first such |
| CategoriesPage.HasServiceScheme | app/asset-categories/page.tsx:28-30 | false without a chosen master asset; otherwise true exactly when a schedule's id is the maintenanceScheduleId of the chosen master asset |
| CategoriesPage.NoScheduleIdNoScheme | app/asset-categories/page.tsx:29 | a master asset that names no schedule has no service scheme, whatever the schedules are |
| CategoriesPage.CategoriesPageState.constructor | app/asset-categories/page.tsx:16-17 | nothing is chosen at first |
| CategoriesPage.CategoriesPageState.ViewCategory | app/asset-categories/page.tsx:32-35 | choosing a category also clears the chosen master asset |
| CategoriesPage.CategoriesPageState.ViewMasterAsset | app/asset-categories/page.tsx:37-39 | choosing a master asset keeps the chosen category |
| CategoriesPage.CategoriesPageState.CreateServiceScheme | app/asset-categories/page.tsx:41-45 | navigates exactly when a master asset is chosen, to the form route with masterAssetId set to its id |
| ServiceSchemeCreate.ResolveMaster | app/service-schemes/create/page.tsx:28-33 | with a masterAssetId parameter, the first master asset with that id, or none when there is none; otherwise, for an assetId parameter, the first master asset named by the first asset with that id, and none when no asset has that id or its master asset is missing; nothing when neither parameter is given |
| ServiceSchemeCreate.MasterParameterWins | app/service-schemes/create/page.tsx:28-30 | with a masterAssetId parameter, the assetId parameter makes no difference |
| ServiceSchemeCreate.PrefilledName | app/service-schemes/create/page.tsx:35-40 | "<type name> Maintenance" when a master asset is found; otherwise the empty starting text |
| ServiceSchemeCreate.NewScheme | app/service-schemes/create/page.tsx:53-59 | the id reads back as the clock value; name and service type are copied; the interval is `parseInt` of the text (0 for no number); the unit is the one chosen |
| ServiceSchemeCreate.NavigationTarget | app/service-schemes/create/page.tsx:69-75 | with assetId, "/assets/" followed by it; else with masterAssetId, "/asset-categories"; else "/" |
| ServiceSchemeCreate.DefaultSchemeIsOneMonth | app/service-schemes/create/page.tsx:24-57 | the default interval text "1" and unit "month" build a one-month schedule |
| ServiceSchemeCreate.TypedIntervalKept | app/service-schemes/create/page.tsx:56 | an interval typed as a number's decimal text becomes that number |
| ServiceSchemeCreate.ClockIdDiscarded | app/service-schemes/create/page.tsx:54-61 | the store renumbers what it adds, so the stored list does not depend on the clock-based id (with lib/asset-context.tsx:255-258) |
| ServiceSchemeCreate.CreateServiceSchemePage.constructor | app/service-schemes/create/page.tsx:21-40 | the page opens with the prefilled name, an empty service type, interval "1" and unit "month" |
| ServiceSchemeCreate.CreateServiceSchemePage.Save | app/service-schemes/create/page.tsx:42-76 | with name, service type or interval empty, nothing is added and the page stays; otherwise the schedule is added to the store and the navigation target is returned; the store's other lists are unchanged |
| ScheduleEditModal.UnitOf | components/maintenance/maintenance-schedule-edit-modal.tsx:25 | the unit's text is the text read; the unit is one of the five declared ones exactly when the text is one of the five names the schema accepts |
| ScheduleEditModal.UnitOfText | components/maintenance/maintenance-schedule-edit-modal.tsx:25-51 | reading a declared unit's name gives that unit back |
| ScheduleEditModal.UnitOfTextIfDeclared | components/maintenance/maintenance-schedule-edit-modal.tsx:51 | the same round trip, stated for any unit that is declared |
| ScheduleEditModal.ScheduleFormFor | components/maintenance/maintenance-schedule-edit-modal.tsx:45-61 | with no schedule, the reset form is empty names, interval 1 and "month"; with a schedule, its name, service type and interval, and a unit text that reads back as its unit |
| ScheduleEditModal.InitialScheduleForm | components/maintenance/maintenance-schedule-edit-modal.tsx:36-41 | with no schedule, the same values as the reset; the interval is never 0 and the unit never empty, because of the fallbacks to 1 and "month" |
| ScheduleEditModal.ScheduleId | components/maintenance/maintenance-schedule-edit-modal.tsx:65 | the id of the schedule under edit when it has one; otherwise a text that reads back as the clock value |
| ScheduleEditModal.SubmitSchedule | components/maintenance/maintenance-schedule-edit-modal.tsx:21-26 | nothing is saved exactly when the schema fails; a saved schedule has the kept or clock id, the form's name, service type and interval (at least 1), and a declared unit whose text is the form's (also lines 63-68) |
| ScheduleEditModal.EditUnchanged | components/maintenance/maintenance-schedule-edit-modal.tsx:45-68 | opening a valid schedule and saving it unchanged gives back the same schedule |
| ScheduleEditModal.NewFormNeedsNames | components/maintenance/maintenance-schedule-edit-modal.tsx:22-59 | the empty new form is refused, and it is accepted once a name and a service type are filled in |
| AssetDetailModal.CeilDiv | components/assets-in-use/asset-detail-modal.tsx:20 | `Math.ceil(x / d)`: the least whole number r with x <= r * d |
| AssetDetailModal.DaysLeft | components/assets-in-use/asset-detail-modal.tsx:20 | the whole days from now to the warranty end, rounded up |
| AssetDetailModal.WarrantyStatus | components/assets-in-use/asset-detail-modal.tsx:17-29 | "Unknown" (gray) exactly when there is no end date; "Expired" (red) exactly when now is after the end; otherwise "N days left", orange exactly when N <= 30 and green exactly when N > 30 |
| AssetDetailModal.RunningWarrantyDays | components/assets-in-use/asset-detail-modal.tsx:19-20 | while the warranty runs, days left is at least 0, and 0 only when now is the end instant |
| AssetDetailModal.OrangeWithinThirtyDays | components/assets-in-use/asset-detail-modal.tsx:24-25 | a running warranty's badge is orange exactly when at most 30 days of milliseconds remain |
| AssetDetailModal.StatusReadsDays | components/assets-in-use/asset-detail-modal.tsx:25-26 | the status text read back with `parseInt` is the number of days left |
| UnifiedAssetModal.NewUnifiedForm | components/assets-in-use/unified-asset-modal.tsx:92-116 | a new asset's form has a 12-month warranty, 24 operating hours, landscape orientation and today's dates; it is empty and so fails the schema |
| UnifiedAssetModal.UnifiedFormOf | components/assets-in-use/unified-asset-modal.tsx:66-91 | an edited asset's form carries its fields, falling back to 0 for the coordinates and to empty text for the custom values |
| UnifiedAssetModal.CustomScreenSizeText | components/assets-in-use/unified-asset-modal.tsx:141 | `` `${customScreenSize} inch` ``: reads back with `parseInt` as the number given, and is "undefined inch" without one |
| UnifiedAssetModal.SavedScreenSize | components/assets-in-use/unified-asset-modal.tsx:141 | the chosen size unless it is "Custom"; for "Custom", the custom size text, which reads back as the number of inches |
| UnifiedAssetModal.SavedResolution | components/assets-in-use/unified-asset-modal.tsx:143 | the chosen resolution unless it is "Custom"; for "Custom", the custom text, or "" when it is missing or empty |
| UnifiedAssetModal.UnifiedSubmittedAsset | components/assets-in-use/unified-asset-modal.tsx:130-157 | the id is kept, or "0" for a new asset; the listed fields are copied; screen size and resolution are the saved choices; power >= 0, warranty >= 1 month and hours in 1..24 hold; dates are saved as their day |
| UnifiedAssetModal.UnifiedSubmit | components/assets-in-use/unified-asset-modal.tsx:28-52 | nothing is saved exactly when the schema fails; otherwise the submitted asset (also line 130) |
| UnifiedAssetModal.UnifiedEditRoundTrip | components/assets-in-use/unified-asset-modal.tsx:66-91 | opening a described asset and saving it unchanged is accepted and keeps its id and details (also lines 130-157) |
| UnifiedAssetModal.CustomSizeReadsBack | components/assets-in-use/unified-asset-modal.tsx:141 | a saved custom size reads back with `parseInt` as the number of inches entered |
| AssetModal.NumOr | components/assets-in-use/asset-modal.tsx:99-104 | a number's fallback: n when it is present and non-zero, otherwise d |
| AssetModal.FormOf | components/assets-in-use/asset-modal.tsx:85-108 | an edited asset's form carries its placement, serial number and dates; the time spent falls back to 0, the orientation to "Landscape", the brightness to 75 and the coordinates to 0 (also lines 134-158) |
| AssetModal.NewForm | components/assets-in-use/asset-modal.tsx:109-131 | a new asset's form has today's dates, brightness 75, landscape orientation and no time spent; it is empty and so fails the schema |
| AssetModal.KeptId | components/assets-in-use/asset-modal.tsx:213 | the edited asset's id, or "0": never empty, and the edited asset's id when it has one |
| AssetModal.CoordinatesOf | components/assets-in-use/asset-modal.tsx:236-242 | coordinates are set exactly when latitude and longitude are both present and non-zero, and then they carry both values |
| AssetModal.SubmittedAsset | components/assets-in-use/asset-modal.tsx:211-244 | the id is kept, or "0"; the placement and serial number are the form's; dates are saved as their day; the time spent is at least 0; the coordinates follow CoordinatesOf; the maintenance fields come from the edited asset, or are null for a new one |
| AssetModal.Submit | components/assets-in-use/asset-modal.tsx:32-66 | nothing is saved exactly when the schema fails: a placement field or the serial number empty, a date missing, a negative time spent, an unknown orientation or a brightness outside 0..100 (also line 211) |
| AssetModal.EditRoundTrip | components/assets-in-use/asset-modal.tsx:134-158 | opening a placed asset and saving it with its pickers chosen again is accepted and gives back its id, placement, serial number, maintenance dates and non-zero coordinates; the dates come back as the start of their day (also lines 211-244) |
| AssetModal.ResaveKeepsDates | components/assets-in-use/asset-modal.tsx:144 | saving a second time leaves a saved date as it is (also line 221) |
| AssetModal.ChainedNests | components/assets-in-use/asset-modal.tsx:199-209 | when the pickers agree, the chosen zone lies in the chosen sub-section, which lies in the chosen section, which lies in the chosen location |
| AssetModal.AfterPickerEffects | components/assets-in-use/asset-modal.tsx:173-197 | a set location clears section, sub-section and zone; a set section clears sub-section and zone; a set sub-section clears the zone; nothing else changes |
| AssetModal.OpenedEditRefused | components/assets-in-use/asset-modal.tsx:173-180 | an asset opened with a location, section or sub-section, once the picker effects have run, is refused until its pickers are chosen again |
| AssetModal.AssetModalForm.constructor | components/assets-in-use/asset-modal.tsx:79-132 | the form starts from the default values and the pickers offer nothing; for a new asset the pickers agree |
| AssetModal.AssetModalForm.Reset | components/assets-in-use/asset-modal.tsx:134-165 | the form takes the asset's values, after the picker effects that run on the change clear section, sub-section and zone below a set parent; each picker offers the children of the asset's parent entry (also lines 168-209) |
| AssetModal.AssetModalForm.ChooseLocation | components/assets-in-use/asset-modal.tsx:168-201 | the same location changes nothing; a different non-empty one offers its sections and clears section, sub-section and zone; the pickers keep agreeing |
| AssetModal.AssetModalForm.ChooseSection | components/assets-in-use/asset-modal.tsx:169-205 | the same section changes nothing; a different non-empty one offers its sub-sections and clears sub-section and zone; the pickers keep agreeing |
| AssetModal.AssetModalForm.ChooseSubSection | components/assets-in-use/asset-modal.tsx:170-209 | the same sub-section changes nothing; a different non-empty one offers its zones and clears the zone; the pickers keep agreeing |
| AssetModal.AssetModalForm.ChooseZone | components/assets-in-use/asset-modal.tsx:37 | choosing an offered zone clears nothing, and the pickers keep agreeing |
| AssetFilters.SectionsOf | components/assets-in-use/asset-filters.tsx:72 | a section is kept exactly when it is listed and its locationId is the given one; never longer than the list |
| AssetFilters.SubSectionsOf | components/assets-in-use/asset-filters.tsx:81 | a sub-section is kept exactly when it is listed and its sectionId is the given one |
| AssetFilters.ZonesOf | components/assets-in-use/asset-filters.tsx:90 | a zone is kept exactly when it is listed and its subSectionId is the given one |
| AssetFilters.OfferedSections | components/assets-in-use/asset-filters.tsx:70-76 | nothing is offered without a location; otherwise exactly the location's sections |
| AssetFilters.OfferedSubSections | components/assets-in-use/asset-filters.tsx:79-85 | nothing is offered without a section; otherwise exactly the section's sub-sections |
| AssetFilters.OfferedZones | components/assets-in-use/asset-filters.tsx:88-94 | nothing is offered without a sub-section; otherwise exactly the sub-section's zones |
| AssetFilters.AllLocationsOffersNoSections | components/assets-in-use/asset-filters.tsx:71-72 | the "All Locations" choice stores the truthy text "all", which offers no section unless a section names a location "all" (also line 134) |
| AssetFilters.SliderStart | components/assets-in-use/asset-filters.tsx:63-66 | the slider starts at the minimum time spent or 0, and at the maximum or 1000 |
| AssetFilters.TimeSpentBounds | components/assets-in-use/asset-filters.tsx:97-103 | a low end of 0 or less means no minimum, otherwise that minimum; a high end of 1000 or more means no maximum, otherwise that maximum |
| AssetFilters.SliderRoundTrip | components/assets-in-use/asset-filters.tsx:63-103 | the slider position on the 0..1000 scale is recovered from the bounds it writes, unless the high end is 0 |
| AssetFilters.BoundsRoundTrip | components/assets-in-use/asset-filters.tsx:63-103 | bounds the slider could write are written back unchanged by a slider that starts from them |
| AssetFilters.DueFilterChanged | components/assets-in-use/asset-filters.tsx:111-121 | the choice is recorded; any choice but "custom" clears both custom dates; "custom" keeps them; no other filter changes |
| AssetFilters.AssetFiltersPanel.constructor | components/assets-in-use/asset-filters.tsx:60-67 | nothing is offered at first; the slider starts from the filters' bounds; the custom range shows exactly for "custom" |
| AssetFilters.AssetFiltersPanel.ChooseLocation | components/assets-in-use/asset-filters.tsx:129 | only the location filter changes; the chosen section, sub-section and zone, the offered lists, the slider and the custom range stay |
| AssetFilters.AssetFiltersPanel.ChooseSection | components/assets-in-use/asset-filters.tsx:148 | only the section filter changes |
| AssetFilters.AssetFiltersPanel.ChooseSubSection | components/assets-in-use/asset-filters.tsx:169 | only the sub-section filter changes |
| AssetFilters.AssetFiltersPanel.RefreshSections | components/assets-in-use/asset-filters.tsx:70-76 | the offered sections become OfferedSections for the chosen location; nothing else changes |
| AssetFilters.AssetFiltersPanel.RefreshSubSections | components/assets-in-use/asset-filters.tsx:79-85 | the offered sub-sections become OfferedSubSections for the chosen section; nothing else changes |
| AssetFilters.AssetFiltersPanel.RefreshZones | components/assets-in-use/asset-filters.tsx:88-94 | the offered zones become OfferedZones for the chosen sub-section; nothing else changes |
| AssetFilters.AssetFiltersPanel.MoveSlider | components/assets-in-use/asset-filters.tsx:97-103 | the slider takes the position, and the filters take its bounds; nothing else changes (also line 516) |
| AssetFilters.AssetFiltersPanel.ChangeMaintenanceDueFilter | components/assets-in-use/asset-filters.tsx:111-121 | the filters become DueFilterChanged of the old filters; nothing else changes |
| AssetFilters.AssetFiltersPanel.RefreshCustomDateRange | components/assets-in-use/asset-filters.tsx:106-108 | the custom range shows exactly when the choice is "custom"; nothing else changes |
| Settings.EmptySopForm | components/settings/settings.tsx:47-54 | the form starts, and is reset, with empty fields, one empty step and "Weekly" frequency (also lines 85-92) |
| Settings.NonBlankSteps | components/settings/settings.tsx:81 | a step is kept exactly when it holds a character other than white space; never more steps than before |
| Settings.NonBlankStepsIdempotent | components/settings/settings.tsx:81 | filtering kept steps again changes nothing |
| Settings.HasNonBlankStep | components/settings/settings.tsx:75 | the guard's step count is positive exactly when some step is non-blank |
| Settings.RemoveAt | components/settings/settings.tsx:69-72 | the step at the index goes and the others keep their order; an index out of range removes nothing |
| Settings.RemoveAddedStep | components/settings/settings.tsx:56-72 | removing the step just added gives back the steps from before |
| Settings.UpdateKeepsOthers | components/settings/settings.tsx:63-81 | after a step changes, the kept steps are the kept steps before it, then the new one if non-blank, then the kept steps after it |
| Settings.SopCategoryName | components/settings/settings.tsx:76 | never empty, and "Unknown" when no category has the id |
| Settings.SopCategoryNameFirst | components/settings/settings.tsx:76 | the first category with the id gives the name, or "Unknown" when that name is empty |
| Settings.SavedSop | components/settings/settings.tsx:77-83 | the saved procedure has the form's fields, its non-blank steps, the category name, the given id and the given day |
| Settings.SavedStepsNonBlank | components/settings/settings.tsx:75-81 | a procedure saved past the guard has at least one step, and every step is non-blank |
| Settings.SopsWithout | components/settings/settings.tsx:97-99 | a procedure is kept exactly when it was listed and its id differs; an id no procedure has changes nothing |
| Settings.MaintenanceSopEditor.constructor | components/settings/settings.tsx:43-54 | no procedures, the editor closed, and the empty form |
| Settings.MaintenanceSopEditor.AddStep | components/settings/settings.tsx:56-61 | one empty step is appended and nothing else changes |
| Settings.MaintenanceSopEditor.UpdateStep | components/settings/settings.tsx:63-67 | the step at the index takes the value; the length and every other step stay |
| Settings.MaintenanceSopEditor.RemoveStep | components/settings/settings.tsx:69-72 | the steps become RemoveAt of the old steps; nothing else changes |
| Settings.MaintenanceSopEditor.SaveSop | components/settings/settings.tsx:74-95 | past the guard, the procedure is appended, the form resets and the editor closes; otherwise nothing changes |
| Settings.MaintenanceSopEditor.DeleteSop | components/settings/settings.tsx:97-99 | the procedures become SopsWithout the id; the form stays |
| DataManagement.NewJob | components/data-management/data-management.tsx:38-45 | a new job has the given id, kind, format and start time, is processing, at progress 0, with no file name, count or error (also lines 104-111) |
| DataManagement.SetProgress | components/data-management/data-management.tsx:53 | only the jobs with the id take the progress; every other job, and the length, stay (also line 122) |
| DataManagement.Complete | components/data-management/data-management.tsx:85-96 | only the jobs with the id complete, with the record count and, for an export, the file name; every other job stays (also lines 151-161) |
| DataManagement.Fail | components/data-management/data-management.tsx:162-174 | only the jobs with the id fail, with "Failed to process file"; every other job stays |
| DataManagement.SetProgressLast | components/data-management/data-management.tsx:51-54 | of two progress updates in a row only the last is seen |
| DataManagement.StartedFirst | components/data-management/data-management.tsx:47-53 | with a new id, a progress update changes only the job just put first |
| DataManagement.Shown | components/data-management/data-management.tsx:67-72 | `${x}`: the text, or "undefined" when it is missing |
| DataManagement.CsvTextLines | components/data-management/data-management.tsx:63-72 | split at newlines, the CSV text is its header followed by its lines, or by one empty line when there are none |
| DataManagement.AssetsCsvLines | components/data-management/data-management.tsx:61-69 | an asset export has the header line, then one line per asset, in list order |
| DataManagement.AssetLine | components/data-management/data-management.tsx:67 | an asset's line starts with its id and a comma and ends with ",undefined", the missing value |
| DataManagement.CategoryLine | components/data-management/data-management.tsx:72 | a category's line starts with its id and a comma and ends with the quoted "undefined" of the missing color |
| DataManagement.AssetLineStartsWithId | components/data-management/data-management.tsx:67 | the first comma-separated cell of an asset's line is its id, when the id holds no comma |
| DataManagement.ExportContent | components/data-management/data-management.tsx:60-76 | CSV of the assets for `csv` and `assets`; CSV of the categories for `csv` and any other kind; the JSON text for `json`; empty for any other format |
| DataManagement.RecordCount | components/data-management/data-management.tsx:56-92 | the number of assets for `assets`, otherwise the number of categories |
| DataManagement.ExportedJobsShape | components/data-management/data-management.tsx:37-54 | with a new id, the older jobs are unchanged after one new first job that has completed at progress 100 with the file name and the record count (also lines 85-96) |
| DataManagement.FormatOf | components/data-management/data-management.tsx:107 | the text after the file name's last dot, or "unknown": never empty and without a dot; a name without a dot is its own format |
| DataManagement.FormatOfExtension | components/data-management/data-management.tsx:107 | a file named base.ext with a non-empty extension has format ext |
| DataManagement.IndexOf | components/data-management/data-management.tsx:135-136 | `indexOf` of a present header: the first position that holds it |
| DataManagement.CellAt | components/data-management/data-management.tsx:138 | the cell at that index, or the empty (falsy) text past the end of the row |
| DataManagement.CsvRecords | components/data-management/data-management.tsx:129-143 | never more than the data lines, and 0 when the headers lack Name or Category |
| DataManagement.RecordStep | components/data-management/data-management.tsx:131-142 | one more data line adds one to the count exactly when its Name and Category cells are both filled |
| DataManagement.CountCsvRecords | components/data-management/data-management.tsx:129-143 | the loop's count is CsvRecords of the non-blank lines |
| DataManagement.ImportCount | components/data-management/data-management.tsx:117-174 | a `.csv` file fails exactly when it has no non-blank line; a `.json` file fails exactly when it does not parse, counts an array's elements and counts 0 for any other value; any other file counts 0 |
| DataManagement.BlankLinesIgnored | components/data-management/data-management.tsx:128 | blank lines added anywhere leave the kept lines, and so a CSV import's count, as they were |
| DataManagement.ImportedJobsShape | components/data-management/data-management.tsx:103-123 | with a new id, the older jobs are unchanged after one new first job at progress 100 that has completed with the count, or failed with the message (also lines 151-174) |
| DataManagement.DataManagementPanel.constructor | components/data-management/data-management.tsx:30-34 | csv format, assets kind, no file, no jobs, not processing |
| DataManagement.DataManagementPanel.RunProgress | components/data-management/data-management.tsx:51-54 | the progress loop of 0, step, ... up to 100 leaves the jobs as one update to 100 would (also lines 120-123) |
| DataManagement.DataManagementPanel.Export | components/data-management/data-management.tsx:36-98 | the content is ExportContent; the jobs become ExportedJobs for the clock's id, the file name and the record count; processing ends off |
| DataManagement.DataManagementPanel.Import | components/data-management/data-management.tsx:100-178 | without a file nothing changes; otherwise the jobs become ImportedJobs with ImportCount's outcome and processing ends off; the file is cleared in both cases |
| DataManagement.DataManagementPanel.ProcessImport | components/data-management/data-management.tsx:103-174 | the jobs become ImportedJobs for the given id and ImportCount's outcome |
| DataManagement.CountImported | components/data-management/data-management.tsx:125-149 | the counting code's result is ImportCount |
| UserManagement.FilteredUsers | components/users/user-management.tsx:113-124 | a user is listed exactly when the search text occurs, ignoring case, in the name, email or department, and the role and status selectors are "all" or match |
| UserManagement.UnfilteredUsers | components/users/user-management.tsx:113-124 | with an empty search and both selectors on "all" the list is all users, in order |
| UserManagement.RolePermissions | components/users/user-management.tsx:167-183 | the permissions of the first role with the id, or none when no role has it |
| UserManagement.EditedUser | components/users/user-management.tsx:165-168 | the form's name, email, role and department over the user, the role's permissions; id, status and creation time kept |
| UserManagement.CreatedUser | components/users/user-management.tsx:177-184 | the next numeric id, the form's fields, status pending, the given creation time and the role's permissions |
| UserManagement.UsersAfterEdit | components/users/user-management.tsx:164-170 | same length; the users with the id are edited, the others untouched |
| UserManagement.CreatedUserFresh | components/users/user-management.tsx:177 | when every id is numeric, the created user's id is none of the existing ids |
| UserManagement.WithUserStatus | components/users/user-management.tsx:208-216 | same length; exactly the selected users take the status |
| UserManagement.AfterBulk | components/users/user-management.tsx:206-230 | activate and deactivate set the selected users' status; delete keeps exactly the unselected users; any other action changes nothing |
| UserManagement.BulkStatusOnlySelected | components/users/user-management.tsx:208-216 | activating or deactivating changes only the status, and only of selected users |
| UserManagement.UnderscoreSpaces | components/users/user-management.tsx:273 | no longer than the text, holds no white space, and leaves a text without white space as it was |
| UserManagement.RoleId | components/users/user-management.tsx:273 | a new role's id is no longer than its name and holds neither white space nor an upper-case letter |
| UserManagement.UnderscoreSpacesRun | components/users/user-management.tsx:273 | a word followed by a run of white space becomes the word and one "_", the rest treated alike |
| UserManagement.RolesAfterEdit | components/users/user-management.tsx:266 | same length; the roles with the id take the form's name, description and permissions and keep their user count; the others are untouched |
| UserManagement.UserManagementPage.constructor | components/users/user-management.tsx:86-111 | empty lists, selectors on "all", no selection, dialogs closed, empty forms |
| UserManagement.UserManagementPage.AddUser | components/users/user-management.tsx:126-137 | no user under edit, the empty form, dialog open; nothing else changes |
| UserManagement.UserManagementPage.EditUser | components/users/user-management.tsx:139-150 | the user under edit, the form from its fields with the phone or "" and no password, dialog open; nothing else changes |
| UserManagement.UserManagementPage.SaveUser | components/users/user-management.tsx:152-193 | without a name or an email nothing changes; otherwise the users with the edited id are edited, or a created user is appended, and the dialog closes; only the users and the user dialog change |
| UserManagement.UserManagementPage.DeleteUser | components/users/user-management.tsx:195-201 | the users are filtered by a different id: the others stay in order with their repeats (Seqs.FilterMultiplicity); only the users change |
| UserManagement.UserManagementPage.ApplyBulkAction | components/users/user-management.tsx:203-232 | nothing without a selection; otherwise the users become AfterBulk and the selection clears; only the users and the selection change |
| UserManagement.UserManagementPage.AddRole | components/users/user-management.tsx:234-242 | no role under edit, the empty form, dialog open; nothing else changes |
| UserManagement.UserManagementPage.EditRole | components/users/user-management.tsx:244-252 | the role under edit, the form from its fields, dialog open; nothing else changes |
| UserManagement.UserManagementPage.SaveRole | components/users/user-management.tsx:254-287 | without a name or a description nothing changes; otherwise the roles with the id are edited, or a role with the derived id and no users is appended, and the dialog closes; only the roles and the role dialog change |
| UserManagement.UserManagementPage.SelectAll | components/users/user-management.tsx:327-333 | ticked: the ids of the users listed for the current search and selectors, in order; unticked: none; only the selection changes |
| UserManagement.UserManagementPage.SelectUser | components/users/user-management.tsx:335-341 | ticking appends the id; unticking filters out every occurrence of the id, keeping the other entries in order with their repeats (Seqs.FilterMultiplicity); only the selection changes |
| Dashboard.UserInitials | components/dashboard/dashboard.tsx:96-104 | "U" without an e-mail; one upper-cased letter when the local part has no dot; with a dot, the two pieces' first letters upper-cased, and no value (the upper-casing of NaN throws) exactly when both pieces are empty |
| Dashboard.FirstOrUndefined | components/dashboard/dashboard.tsx:101-103 | a non-empty text's first character |
| Dashboard.InitialsLength | components/dashboard/dashboard.tsx:99-103 | an address gives one letter without a dot in its local part, two when the first two dotted pieces are non-empty |
| Dashboard.OverdueCount | components/dashboard/dashboard.tsx:109-112 | the number of assets whose next maintenance lies before now (Count, the number of such positions by Seqs.CountPositions); 0 exactly when there is none |
| Dashboard.MaintainedCount | components/dashboard/dashboard.tsx:108 | the number of assets with a last maintenance date; 0 exactly when none has one, all of them when every one has |
| Dashboard.TotalTime | components/dashboard/dashboard.tsx:114 | the sum of the time spent, 0 when no asset records any |
| Dashboard.AverageTime | components/dashboard/dashboard.tsx:115 | 0 without assets and when no asset records a time spent |
| Dashboard.OverdueGrows | components/dashboard/dashboard.tsx:109-112 | a later now counts no fewer overdue assets |
| Dashboard.RoundDiv | components/dashboard/dashboard.tsx:115-150 | `Math.round(a / n)`: the nearest integer, halves rounded up |
| Dashboard.AverageBetween | components/dashboard/dashboard.tsx:114-115 | the average maintenance time lies between the least and the greatest time |
| Dashboard.AverageOfEqual | components/dashboard/dashboard.tsx:114-115 | equal times average to that time |
| Dashboard.Percent | components/dashboard/dashboard.tsx:123-150 | `Math.round(value / total * 100)` for a positive total, stated as the integer r with r - 1/2 <= 100 value / total < r + 1/2; between 0 and 100 for a share of the total, and 0 without assets |
| Dashboard.CategorySlice | components/dashboard/dashboard.tsx:118-125 | a category's slice carries its name, the number of its assets and a percentage between 0 and 100 |
| Dashboard.CategoryDistribution | components/dashboard/dashboard.tsx:117-126 | exactly the slices of the categories with at least one asset, no more than there are categories |
| Dashboard.IndexOfName | components/dashboard/dashboard.tsx:133 | a position whose slice has the name, or none exactly when no slice has it |
| Dashboard.Fixed2 | components/dashboard/dashboard.tsx:132 | `toFixed(2)` of a value in hundredths: a sign exactly for a negative value, then digits, a point and two digits |
| Dashboard.PlaceKey | components/dashboard/dashboard.tsx:131-132 | the location text when there is one, otherwise the latitude to two decimals, a comma and a space, then the longitude |
| Dashboard.Bump | components/dashboard/dashboard.tsx:133-142 | a new name is appended with count 1; a known name keeps the names in place; either way the counts grow by exactly 1 |
| Dashboard.Tally | components/dashboard/dashboard.tsx:128-147 | no more slices than assets, and none when no asset is placed |
| Dashboard.TallyPlaces | components/dashboard/dashboard.tsx:128-147 | the reduce loop builds the tally of the assets read by the declared coordinate names |
| Dashboard.TallyShape | components/dashboard/dashboard.tsx:128-147 | the reduce yields slices with distinct names and positive counts that add up to the number of placed assets |
| Dashboard.LocationDistributionAsWritten | components/dashboard/dashboard.tsx:130 | read as lat and lng, no asset is ever counted and the chart stays empty |
| Dashboard.LatLngMissesPlacedAsset | components/dashboard/dashboard.tsx:130 | an asset at (1.00, 2.00) makes one slice read by the declared names and none as written |
| Dashboard.LocationDistribution | components/dashboard/dashboard.tsx:128-151 | the reduce's slices in order, each with its percentage of all assets filled in; names distinct, counts positive, percentages between 0 and 100 |
| Dashboard.PercentsKeepShape | components/dashboard/dashboard.tsx:149-151 | filling in the percentages keeps the tally's names distinct and its counts positive, with each share between 0 and 100 |
| Dashboard.SlicesBounded | components/dashboard/dashboard.tsx:128-147 | no slice counts more assets than there are |
| Dashboard.WarrantyBuckets | components/dashboard/dashboard.tsx:168-190 | active, expiring soon and expired are each the number of assets passing that bucket's test on the warranty end; active and expired together are the assets with both warranty fields, and expiring soon is among the active |
| ReportsDashboard.MasterOf | components/reports/reports-dashboard.tsx:109 | the first master asset whose id the asset names; none exactly when no master asset has that id |
| ReportsDashboard.FilteredAssets | components/reports/reports-dashboard.tsx:101-112 | all assets with both filters on "all"; otherwise exactly the assets at the chosen location whose type is in the chosen category |
| ReportsDashboard.FilteredIsOneFilter | components/reports/reports-dashboard.tsx:101-112 | the two filters in a row keep the same assets, in the same order, as one combined filter |
| ReportsDashboard.ConnectivityData | components/reports/reports-dashboard.tsx:170-181 | connected is the number of assets with an IP address and not connected the number without; they add up to all assets, and none is connected exactly when no asset has an IP address |
| ReportsDashboard.CategoryOf | components/reports/reports-dashboard.tsx:117-123 | none without a master asset; otherwise the first category with the master asset's categoryId, none exactly when no category has it |
| ReportsDashboard.IsScreen | components/reports/reports-dashboard.tsx:116-120 | an asset without a master asset is not a screen |
| ReportsDashboard.IsMediaPlayer | components/reports/reports-dashboard.tsx:121-125 | an asset without a master asset is not a media player |
| ReportsDashboard.KindCounts | components/reports/reports-dashboard.tsx:116-125 | the number of assets that are screens and the number that are media players, each at most the asset count, both 0 when no asset has a master asset |
| ReportsDashboard.AgeBucket | components/reports/reports-dashboard.tsx:265-272 | one of the four buckets; an asset bought now or later is in the first; one without a purchase date in the last |
| ReportsDashboard.AgeBucketOlder | components/reports/reports-dashboard.tsx:266-272 | an asset bought earlier falls in the same age bucket or an older one |
| ReportsDashboard.AgeDistribution | components/reports/reports-dashboard.tsx:258-273 | four counts, each the number of assets of that age bucket, adding up to the number of assets |
| ReportsDashboard.Tally4Counts | components/reports/reports-dashboard.tsx:265-273 | each count of the one-by-one tally is the number of assets of its bucket |
| ReportsDashboard.Tally4Sum | components/reports/reports-dashboard.tsx:265-273 | when every asset has a bucket below 4, the four counts add up to the number of assets |
| ReportsDashboard.WarrantyAnalysis | components/reports/reports-dashboard.tsx:276-285 | active, expiring soon and expired are each the number of assets whose end date passes that bucket's test; active and expired together are the assets with a readable end date, all of them when every end date reads; expiring soon is among the active |
| ReportsDashboard.MaintenanceAnalysis | components/reports/reports-dashboard.tsx:288-307 | overdue is the dashboard's count, due soon the number due within a month from now and up to date the number with no date or a later one; the three add up to all assets |
| ReportsDashboard.CategorySlice | components/reports/reports-dashboard.tsx:185-196 | a category's slice carries its name, the number of filtered assets whose type is in it, and a percentage between 0 and 100 |
| ReportsDashboard.CategoryDistribution | components/reports/reports-dashboard.tsx:184-197 | exactly the slices of the categories with at least one asset |
| ReportsDashboard.LocationSlice | components/reports/reports-dashboard.tsx:201-209 | a location's slice carries its name, the number of assets there, and a percentage between 0 and 100 |
| ReportsDashboard.LocationDistribution | components/reports/reports-dashboard.tsx:200-210 | exactly the slices of the locations with at least one asset |
| ReportsDashboard.Top | components/reports/reports-dashboard.tsx:252 | a sorted cut to n entries: Min(n, length) entries in descending rank, a sub-multiset of the list (no entry repeated beyond its occurrences), and every entry left out ranks no higher than the last one kept (also lines 325, 336, 340) |
| ReportsDashboard.TopOfSorted | components/reports/reports-dashboard.tsx:336 | the first n entries of any sorted rearrangement of a list are a sorted sub-multiset of it, and nothing left out ranks above the last one kept |
| ReportsDashboard.PowerRowOf | components/reports/reports-dashboard.tsx:242-250 | a type's row: its name, its watts per unit, the number of its assets and their product |
| ReportsDashboard.PowerRows | components/reports/reports-dashboard.tsx:240-251 | exactly the rows of the types with a power figure and at least one asset |
| ReportsDashboard.PowerRanking | components/reports/reports-dashboard.tsx:240-252 | at most eight of those rows, a sub-multiset of them, highest total power first; a row left out uses no more power than the eighth (also line 340) |
| ReportsDashboard.ScaledUtilisation | components/reports/reports-dashboard.tsx:319 | capped at 100 percent, reached exactly from a month of minutes on; below that, proportional to the time spent |
| ReportsDashboard.NameOr | components/reports/reports-dashboard.tsx:316-317 | never empty, and the name whenever there is one |
| ReportsDashboard.UtilisationRowOf | components/reports/reports-dashboard.tsx:311-324 | the asset's id, its time spent or 0, the capped utilisation, and non-empty type and location names |
| ReportsDashboard.UtilisationRows | components/reports/reports-dashboard.tsx:310-324 | one row per asset, in list order |
| ReportsDashboard.UtilisationRanking | components/reports/reports-dashboard.tsx:310-336 | at most ten rows, a sub-multiset of the asset rows, highest utilisation first; a row left out has no more utilisation than the tenth |
| ReportsDashboard.UtilisationCapped | components/reports/reports-dashboard.tsx:319-336 | no ranked utilisation exceeds 100 percent |
| AssetsInUse.AssetIds | components/assets-in-use/assets-in-use.tsx:141 | the ids of the assets, position by position (also line 614) |
| AssetsInUse.DisplayName | components/assets-in-use/assets-in-use.tsx:472-474 | never empty, and the asset's name when it has one |
| AssetsInUse.MatchesQuery | components/assets-in-use/assets-in-use.tsx:520-533 | the empty query matches every asset, and so does a query occurring in the displayed name, the id, the serial number or the IP address |
| AssetsInUse.MatchesWarranty | components/assets-in-use/assets-in-use.tsx:544-562 | "all" matches every asset; any other warranty filter only matches an asset whose warranty ends at another instant than now |
| AssetsInUse.WarrantyFiltersSplit | components/assets-in-use/assets-in-use.tsx:544-562 | an expiring warranty is active; no warranty is both active and expired; an asset is active or expired exactly when its end date is known and not now |
| AssetsInUse.SortKey | components/assets-in-use/assets-in-use.tsx:565-578 | the sort key is the id, or the displayed name for the name column, lowercased: same length, no upper-case letter |
| AssetsInUse.Listed | components/assets-in-use/assets-in-use.tsx:516-562 | an asset is listed exactly when the query is empty or occurs, ignoring case, in its name (or "Unknown"), serial number, id or IP address, and the location, category and warranty filters are unset or match |
| AssetsInUse.ListedUnfiltered | components/assets-in-use/assets-in-use.tsx:516-562 | with no query and no filter every asset is listed, in order |
| AssetsInUse.AllLocationIsAnId | components/assets-in-use/assets-in-use.tsx:536-538 | a location filter holding the text "all" keeps exactly the assets whose location id is "all" |
| AssetsInUse.VisibleIsSortedListing | components/assets-in-use/assets-in-use.tsx:565-586 | the list shown is a permutation of the listed assets, ordered by the lowercased id or name, ascending or descending |
| AssetsInUse.Visible | components/assets-in-use/assets-in-use.tsx:516-587 | the list shown holds exactly the listed assets, as many as are listed and no more than there are |
| AssetsInUse.FilterAndSort | components/assets-in-use/assets-in-use.tsx:516-587 | the memoised list is the sorted listing |
| AssetsInUse.NarrowListing | components/assets-in-use/assets-in-use.tsx:517-562 | narrowing by each criterion only when it is set gives the listing |
| AssetsInUse.TotalPages | components/assets-in-use/assets-in-use.tsx:597 | `Math.ceil(n / size)`: the least page count whose pages hold n items |
| AssetsInUse.Page | components/assets-in-use/assets-in-use.tsx:592-595 | `slice((page - 1) * size, page * size)`: no longer than the list or the page size, and that slice when the page is full |
| AssetsInUse.PrefixEnd | components/assets-in-use/assets-in-use.tsx:593-594 | where pages 1..k end: k pages' worth of items, or the whole list |
| AssetsInUse.PageBetween | components/assets-in-use/assets-in-use.tsx:593-594 | page k runs from the end of page k-1 to its own end |
| AssetsInUse.PagesUpToPrefix | components/assets-in-use/assets-in-use.tsx:592-595 | pages 1..k one after another are the list's first items up to where page k ends |
| AssetsInUse.PagesCover | components/assets-in-use/assets-in-use.tsx:592-597 | pages 1 to totalPages together are the whole list, in order |
| AssetsInUse.PageInRange | components/assets-in-use/assets-in-use.tsx:592-597 | every page in range holds between one and size assets, starting at (page - 1) * size |
| AssetsInUse.AssetStatus | components/assets-in-use/assets-in-use.tsx:495-507 | "Maintenance Overdue" exactly when the next maintenance is before now; else "Warranty Expired" exactly when the warranty ended before now; else "Active" |
| AssetsInUse.Duplicate | components/assets-in-use/assets-in-use.tsx:140-148 | the copy has the next id, serial number and barcode with "-COPY" appended, " (Copy)" after the description, and every other field of the original |
| AssetsInUse.NewIdFresh | components/assets-in-use/assets-in-use.tsx:141-176 | when every id is numeric, the next id is none of the existing ids |
| AssetsInUse.WithStatus | components/assets-in-use/assets-in-use.tsx:132 | same length; exactly the selected assets take the status |
| AssetsInUse.RowCells | components/assets-in-use/assets-in-use.tsx:402 | one cleaned cell per comma-separated field |
| AssetsInUse.AcceptedRows | components/assets-in-use/assets-in-use.tsx:401-403 | no more rows than lines, each with at least 23 cells and a first cell |
| AssetsInUse.AcceptedLine | components/assets-in-use/assets-in-use.tsx:402-403 | `values.length >= 23 && values[0]`: a line is imported exactly when it has at least 22 commas and its cleaned first piece is not empty; a line without a comma never is |
| AssetsInUse.SplitCommas | components/assets-in-use/assets-in-use.tsx:402 | splitting on commas gives one piece more than there are commas |
| AssetsInUse.LocationIdFor | components/assets-in-use/assets-in-use.tsx:435 | the id of the first location whose name includes the text; "" exactly when none does |
| AssetsInUse.CategoryIdFor | components/assets-in-use/assets-in-use.tsx:413 | the id of the first category with exactly that name; "" when no category has it |
| AssetsInUse.AssetFromRow | components/assets-in-use/assets-in-use.tsx:410-441 | the given id and the first cell as name, SN- and BC- with the id as serial number and barcode; warranty months, orientation and hours read from their cells, or 12, Landscape and 8 when those are empty; latitude, longitude and custom size parsed from non-empty cells, else undefined; power parsed, or 0 when empty; the looked-up category and location |
| AssetsInUse.RowAsset | components/assets-in-use/assets-in-use.tsx:404-443 | the asset built for the k-th accepted row has the k-th new id and the row's first cell as name |
| AssetsInUse.ImportedAssets | components/assets-in-use/assets-in-use.tsx:401-445 | the k-th accepted row becomes the k-th imported asset |
| AssetsInUse.ImportedIdsFresh | components/assets-in-use/assets-in-use.tsx:404-408 | with numeric ids, the imported assets get distinct ids that no existing asset has |
| AssetsInUse.ImportRow | components/assets-in-use/assets-in-use.tsx:403-444 | an accepted row adds its asset at the end; any other row changes nothing |
| AssetsInUse.ImportLineStep | components/assets-in-use/assets-in-use.tsx:401-445 | one turn of the loop keeps the imported list equal to the assets of the accepted lines so far |
| AssetsInUse.ImportLines | components/assets-in-use/assets-in-use.tsx:401-445 | the loop collects the assets of the accepted lines after the header |
| AssetsInUse.AssetsInUsePage.constructor | components/assets-in-use/assets-in-use.tsx:78-101 | the assets passed in, no selection, dialogs closed, no query or filter, sorted by id ascending, page 1 of 10 |
| AssetsInUse.AssetsInUsePage.HandleSort | components/assets-in-use/assets-in-use.tsx:603-610 | the same column flips the direction; another column is sorted ascending; only the sort column and direction change |
| AssetsInUse.AssetsInUsePage.PageChange | components/assets-in-use/assets-in-use.tsx:599-601 | only the current page changes |
| AssetsInUse.AssetsInUsePage.BulkDelete | components/assets-in-use/assets-in-use.tsx:118-127 | nothing without a selection; otherwise exactly the unselected assets remain and the selection clears; only the assets and the selection change |
| AssetsInUse.AssetsInUsePage.BulkStatusUpdate | components/assets-in-use/assets-in-use.tsx:129-138 | nothing without a selection; otherwise the selected assets take the status and the selection clears; only the assets and the selection change |
| AssetsInUse.AssetsInUsePage.DuplicateAsset | components/assets-in-use/assets-in-use.tsx:140-154 | the copy is appended; only the assets change |
| AssetsInUse.AssetsInUsePage.ConfirmDelete | components/assets-in-use/assets-in-use.tsx:156-166 | nothing without an asset under deletion; otherwise the assets with its id go and the dialog closes; only the assets and the delete dialog change |
| AssetsInUse.AssetsInUsePage.SaveAsset | components/assets-in-use/assets-in-use.tsx:168-184 | editing replaces the assets with the id; creating appends the asset with the next id; the dialog closes; only the assets and the edit dialog change |
| AssetsInUse.AssetsInUsePage.ImportCsv | components/assets-in-use/assets-in-use.tsx:389-458 | without a file nothing changes; otherwise the assets of the accepted lines after the header are appended, numbered after the current maximum |
| AssetsInUse.AssetsInUsePage.SelectAll | components/assets-in-use/assets-in-use.tsx:612-618 | ticked: the ids of the page on show for the current search, filters, sort and page; unticked: none; only the selection changes |
| AssetsInUse.AssetsInUsePage.SelectAsset | components/assets-in-use/assets-in-use.tsx:620-626 | ticking appends the id; unticking filters out every occurrence of the id, keeping the other entries in order with their repeats (Seqs.FilterMultiplicity); only the selection changes |
| MaintenanceSchedules.JsRem12 | components/maintenance/maintenance-schedules.tsx:85 | JavaScript's `% 12`: between -12 and 12, with the sign of the dividend (also line 248) |
| MaintenanceSchedules.MonthStepAsWritten | components/maintenance/maintenance-schedules.tsx:82-85 | the month step as the program writes it falls on a midnight |
| MaintenanceSchedules.MonthStep | components/maintenance/maintenance-schedules.tsx:82-85 | the corrected month step is `new Date(year, month + v, date)`, the month index left to `new Date` |
| MaintenanceSchedules.MonthStepAgrees | components/maintenance/maintenance-schedules.tsx:82-85 | for a month index that does not reach before January, the month step as written is the intended one |
| MaintenanceSchedules.MonthStepAsWrittenYearEarly | components/maintenance/maintenance-schedules.tsx:83-85 | for a negative month index that is not a multiple of 12, the step as written lands twelve months before the intended date |
| MaintenanceSchedules.StepDateFixedUnits | components/maintenance/maintenance-schedules.tsx:75-89 | an hour step adds v hours; a day step v days and a week step 7v days, time of day kept; an unknown unit gives now |
| MaintenanceSchedules.MonthStepKeepsDate | components/maintenance/maintenance-schedules.tsx:82-85 | a month step advances the month index by v across years, keeps a date of month up to 28 and falls on midnight |
| MaintenanceSchedules.YearStepKeepsDate | components/maintenance/maintenance-schedules.tsx:86-87 | a year step adds v to the year and keeps month and date, when that date exists in the target year |
| MaintenanceSchedules.MonthStepOverflow | components/maintenance/maintenance-schedules.tsx:85 | a date past the end of the target month rolls over into the next one |
| MaintenanceSchedules.YearStep | components/maintenance/maintenance-schedules.tsx:86-87 | a year step falls on a midnight, and a zero step gives the start of the same day |
| MaintenanceSchedules.StepDate | components/maintenance/maintenance-schedules.tsx:75-90 | month and year steps fall on a midnight; a zero step of a known unit stays on the same day; an unknown unit gives now; for a month index that stays at or after January the month step is the program's |
| MaintenanceSchedules.ScheduleById | components/maintenance/maintenance-schedules.tsx:69 | none exactly when no schedule has the id; otherwise the first schedule with it |
| MaintenanceSchedules.CalculateNextDate | components/maintenance/maintenance-schedules.tsx:63-91 | now without a last date, a schedule id or a schedule with that id; otherwise that schedule's step from the last date, months by the corrected step, which is the program's for every interval >= 0 |
| MaintenanceSchedules.Classify | components/maintenance/maintenance-schedules.tsx:47-59 | never no_maintenance; overdue exactly for an earlier day and due today exactly for the same day; each later status exactly when its test holds on a later day and no earlier test did (this week; this month; before 30 days on; otherwise upcoming) |
| MaintenanceSchedules.DueThisWeekBeforeSunday | components/maintenance/maintenance-schedules.tsx:51-52 | due this week exactly for a later day fewer than 7 - weekday days after today, that is before the coming Sunday |
| MaintenanceSchedules.EffectiveNextDate | components/maintenance/maintenance-schedules.tsx:43-45 | the stored next date when there is one, otherwise the computed one |
| MaintenanceSchedules.Status | components/maintenance/maintenance-schedules.tsx:38-60 | no_maintenance exactly without a last date or a schedule id; otherwise the classification of the due date in use |
| MaintenanceSchedules.StoredDateDecides | components/maintenance/maintenance-schedules.tsx:43-45 | with a stored next date, the schedules play no part in the status |
| MaintenanceSchedules.MissingScheduleDueToday | components/maintenance/maintenance-schedules.tsx:71 | an asset whose schedule id matches no schedule, and without a stored date, is due today |
| MaintenanceSchedules.IntervalDisplay | components/maintenance/maintenance-schedules.tsx:130-135 | "None" exactly without an id; "Unknown" exactly for an unknown one; otherwise the value, a space and the unit, with a trailing "s" exactly for a value above 1 |
| MaintenanceSchedules.UnitText | components/maintenance/maintenance-schedules.tsx:134 | a known unit's singular name, at least three letters and not ending in "s"; an unknown unit's own text |
| MaintenanceSchedules.ServiceTypeOf | components/maintenance/maintenance-schedules.tsx:123-127 | "None" without an id, "Unknown" for an unknown one, else the schedule's service type |
| MaintenanceSchedules.AssetName | components/maintenance/maintenance-schedules.tsx:138-144 | "Unknown" when no asset has the id or the first such asset names no master asset; otherwise the name of the first master asset it names |
| MaintenanceSchedules.MatchesSearch | components/maintenance/maintenance-schedules.tsx:156-163 | the empty query matches every asset, and so does any query the serial number contains ignoring case |
| MaintenanceSchedules.FilteredAssets | components/maintenance/maintenance-schedules.tsx:153-208 | an asset stays exactly when it meets every active filter: search, status, service type, location and time range |
| MaintenanceSchedules.OverdueRangeIsOverdueStatus | components/maintenance/maintenance-schedules.tsx:47-48 | for a scheduled asset with a stored date, the "overdue" range and the overdue status agree (also lines 200-201) |
| MaintenanceSchedules.ClearedShowsAll | components/maintenance/maintenance-schedules.tsx:153-208 | with every filter cleared every asset is listed, in order (also lines 268-274) |
| MaintenanceSchedules.ActiveFilterCount | components/maintenance/maintenance-schedules.tsx:277-283 | between 0 and 5, and 0 exactly for the cleared filters |
| MaintenanceSchedules.SaveNextDate | components/maintenance/maintenance-schedules.tsx:228-254 | now without a schedule with the id or a last date; for a non-empty id, the date the page's own calculation gives any asset with that schedule id and last date |
| MaintenanceSchedules.ScheduledAsset | components/maintenance/maintenance-schedules.tsx:226-262 | the asset with the schedule id, the last date and the computed next date (months by the corrected step) cut to its day; every other field unchanged |
| MaintenanceSchedules.SaveAgreesWithCalculation | components/maintenance/maintenance-schedules.tsx:63-91 | the save path stores the start of the day the page's own calculation gives, and the saved asset's status classifies that day (also lines 226-262) |
| MaintenanceSchedules.NarrowAssets | components/maintenance/maintenance-schedules.tsx:153-208 | narrowing by each filter only while it is on gives the filtered list |
| MaintenanceSchedules.MaintenanceSchedulesPage.constructor | components/maintenance/maintenance-schedules.tsx:25-32 | nothing listed, filters cleared, dialog closed |
| MaintenanceSchedules.MaintenanceSchedulesPage.ApplyFilters | components/maintenance/maintenance-schedules.tsx:153-219 | the list shown becomes the filtered list |
| MaintenanceSchedules.MaintenanceSchedulesPage.ClearFilters | components/maintenance/maintenance-schedules.tsx:268-274 | the filters are cleared and their count is 0 |
| MaintenanceSchedules.MaintenanceSchedulesPage.SaveMaintenanceSchedule | components/maintenance/maintenance-schedules.tsx:226-266 | the scheduled asset's columns are sent for its id (months by the corrected step); the stored row replaces the assets with that id when signed in and the backend stores it, else nothing changes; the dialog closes |
| MaintenanceSchedules.ScheduleSaveSendsOldColumns | components/maintenance/maintenance-schedules.tsx:257-264 | the schedule id and the last and next maintenance dates the save sets are not among the columns `updateAsset` sends, so the backend receives the columns of the asset as it was |
| MaintenanceSchedules.IndexYearEarly | components/maintenance/maintenance-schedules.tsx:83-85 | for a negative month offset that is not a whole number of years, the date as written is the one twelve months before the intended date |
| Strings.Lower | components/users/user-management.tsx:116-118 | `toLowerCase()`: same length, each character lowered |
| Strings.LowerOfUpper | components/dashboard/dashboard.tsx:101-103 | lowering an upper-cased text is lowering the text |
| Strings.ContainsEmpty | components/assets-in-use/assets-in-use.tsx:527-530 | every text includes the empty text |
| Strings.Contains | components/assets-in-use/assets-in-use.tsx:527-530 | `includes`: a contained text is no longer, and a prefix is contained |
| Strings.ContainsIgnoringCase | components/assets-in-use/assets-in-use.tsx:520-531 | the empty query and a contained text are found ignoring case |
| Strings.Split | components/data-management/data-management.tsx:128 | `split(sep)`: at least one piece, none holding the separator |
| Strings.JoinSplit | components/data-management/data-management.tsx:128 | joining the pieces of a split with the same separator gives back the text |
| Strings.SplitJoin | components/data-management/data-management.tsx:63-72 | splitting a join of pieces without the separator gives back the pieces |
| Strings.SplitSingle | components/dashboard/dashboard.tsx:99-100 | a text splits into one piece exactly when it lacks the separator, and that piece is the text |
| Strings.Trim | components/data-management/data-management.tsx:128 | `trim()` is empty exactly for a blank text |
| Strings.TrimStart | components/data-management/data-management.tsx:128 | the text after its leading white space, none of which is left |
| Strings.TrimEnd | components/data-management/data-management.tsx:128 | the text before its trailing white space, none of which is left |
| Strings.RemoveQuotes | components/assets-in-use/assets-in-use.tsx:402 | `replace(/"/g, "")`: the characters of the text but the quotes |
| Strings.NatToString | components/assets-in-use/assets-in-use.tsx:141 | the decimal text of a number: non-empty, digits only |
| Strings.NatToStringInjective | components/assets-in-use/assets-in-use.tsx:404-408 | different numbers have different decimal texts |
| Strings.ParseIntOfNat | components/assets-in-use/assets-in-use.tsx:141 | `Number.parseInt` reads a number's decimal text back |
| Strings.ParseInt | app/service-schemes/create/page.tsx:57 | `Number.parseInt`: NaN for blank text or a text not starting with a sign or digit after white space; a non-negative number when it starts with a digit |
| Strings.ParseIntOfIntThen | app/service-schemes/create/page.tsx:57 | `Number.parseInt` reads a signed number's text back, whatever non-digit text follows |
| Strings.NumberOfNat | components/users/user-management.tsx:177 | `Number` reads a number's decimal text back |
| Strings.NumberOf | components/users/user-management.tsx:177 | `Number`: 0 for blank text, a non-negative number for digits, NaN when the trimmed text starts with neither a digit nor a sign |
| Strings.MaxId | components/assets-in-use/assets-in-use.tsx:141 | `Math.max(...ids, 0)` of numeric ids: no id above it, and it is 0 or one of the ids |
| Strings.MaxOrNaN | components/assets-in-use/assets-in-use.tsx:141 | a maximum exactly when every id reads as a number, NaN otherwise |
| Strings.NextId | components/assets-in-use/assets-in-use.tsx:141 | `String(Math.max(...ids.map(parse), 0) + 1)`: "NaN" when some id does not read as a number, otherwise the text of the largest id plus one |
| Strings.IdAfterNumeric | components/assets-in-use/assets-in-use.tsx:404-408 | with numeric ids, the k-th new id is the text of max + k + 1 |
| Strings.IdAfterFresh | components/assets-in-use/assets-in-use.tsx:141-176 | with numeric ids, a new id is none of the existing ones and reads back as max + k + 1 |
| Strings.IdAfterDistinct | components/assets-in-use/assets-in-use.tsx:404-408 | with numeric ids, new ids for different offsets differ |
| Strings.NextIdNaN | components/assets-in-use/assets-in-use.tsx:141-176 | an id that does not read as a number makes the new id "NaN" |
| Strings.Upper | components/dashboard/dashboard.tsx:101-103 | `toUpperCase`: same length, each character upper-cased |
| Strings.ParseIntOfNegativeThen | app/service-schemes/create/page.tsx:57 | `parseInt` reads a minus sign and digits followed by a non-digit as the negative number |
| Calendar.CivilFromDays | components/maintenance/maintenance-schedules.tsx:83-87 | the one valid calendar date whose day number is given |
| Calendar.CivilRoundTrip | components/maintenance/maintenance-schedules.tsx:83-87 | a valid date's day number converts back to that date |
| Calendar.SameWeekNear | components/maintenance/maintenance-schedules.tsx:51 | two days of the same Sunday-start week are less than seven days apart |
| Calendar.TodayInWeekAndMonth | components/maintenance/maintenance-schedules.tsx:49-53 | an instant of today lies in this week and this month |
| Calendar.MakeDayYearCarry | components/maintenance/maintenance-schedules.tsx:85 | `new Date` carries a month index 12 higher into the following year |
| Calendar.NewDate | components/maintenance/maintenance-schedules.tsx:85-87 | `new Date(y, m, d)` falls on midnight of the normalised day |
| Calendar.NewDateFields | components/maintenance/maintenance-schedules.tsx:85-87 | the year, month and date of `new Date(y, m, d)` when the date exists in the normalised month |
| Calendar.SetMonth | components/dashboard/dashboard.tsx:173 | `setMonth` keeps the date of month and the time of day in the new month index of the year |
| Calendar.AddMonthsZero | components/dashboard/dashboard.tsx:173 | adding no months changes nothing |
| Calendar.AddMonthsKeepsDate | components/dashboard/dashboard.tsx:173-181 | k months later keeps a date of month up to 28 and the time of day, and advances the month index by k |
| Calendar.AddMonthsForward | components/dashboard/dashboard.tsx:181 | adding a non-negative number of months never moves an instant backwards |
| Calendar.YearOf | components/maintenance/maintenance-schedules.tsx:84 | `getFullYear`: the year whose days contain the given day |
| Calendar.Weekday | components/maintenance/maintenance-schedules.tsx:51 | `getDay`: the day's place in its Sunday-started week, 0 to 6 |
| Calendar.StartOfDay | components/assets-in-use/asset-modal.tsx:221 | the midnight that starts the instant's day, no later than the instant and less than a day before it |
| Calendar.AddDays | components/maintenance/maintenance-schedules.tsx:79-81 | `addDays`: n days later at the same time of day |
| Calendar.MakeDay | components/maintenance/maintenance-schedules.tsx:85 | `new Date(y, m, d)` with a date inside the normalised month is that calendar date |
| Calendar.AddMonths | components/dashboard/dashboard.tsx:173 | `setMonth(getMonth() + k)` keeps the time of day, and k = 0 changes nothing |
| Calendar.IsToday | components/maintenance/maintenance-schedules.tsx:49 | `isToday`: the same start of day as now, so less than a day away |
| Calendar.IsThisWeek | components/maintenance/maintenance-schedules.tsx:51 | `isThisWeek`: includes today and lies within six days of now |
| Calendar.IsThisMonth | components/maintenance/maintenance-schedules.tsx:53 | `isThisMonth`: includes today |
| Calendar.MakeDayOverflow | components/maintenance/maintenance-schedules.tsx:85 | `new Date(y, m, d)` with a date past the month's end rolls into the next month |
| Calendar.MakeDayNegativeMonth | components/maintenance/maintenance-schedules.tsx:85 | `new Date(y, m, d)` with a month index from -12 to -1 is that month of the year before |
| Calendar.AddMonthsMonotone | components/dashboard/dashboard.tsx:173-181 | `setMonth(getMonth() + k)` on a date of month up to 28 moves forwards for k >= 0 and backwards for k <= 0 |
| Sorting.SortBy | components/assets-in-use/assets-in-use.tsx:565-584 | sorting by a total preorder gives a sorted permutation of the list |
| Sorting.SortByMembers | components/assets-in-use/assets-in-use.tsx:565-584 | sorting keeps exactly the elements it was given |
| Sorting.KeyOrderTotalPreorder | components/assets-in-use/assets-in-use.tsx:574-583 | comparing lowercased keys, ascending or descending, is a total preorder |
| Seqs.Filter | components/users/user-management.tsx:114 | `filter`: exactly the elements that pass, no more than there were |
| Seqs.FilterMultiplicity | components/asset-categories/asset-categories.tsx:158 | `filter` keeps every occurrence of a passing element and drops every occurrence of a failing one |
| Seqs.CountPositions | components/dashboard/dashboard.tsx:108 | `filter(p).length` is the number of positions whose element passes p |
| Seqs.FilterPartition | components/reports/reports-dashboard.tsx:173-178 | the elements that pass and those that fail together count all elements |
| Seqs.Find | components/reports/reports-dashboard.tsx:109 | `find`: the first element that passes, and none exactly when no element passes |

## Left out

- Backend and authentication I/O: the database queries, the session lookup and subscription, the `loadData` fetches and the `loading` flag's timing in lib/asset-context.tsx are not modelled. Each backend call is a parameter that answers with a stored row or an error.
- Rendering: JSX, charts, toasts, dialogs, dropdowns and Select widgets have no behaviour worth stating. The handlers that only open a dialog on the category and asset-library pages (`handleAddCategory`, `handleEditCategory`, `handleDeleteCategory`, `handleAddAsset`, `handleEditAsset`, `handleDeleteAsset`) are left out as well.
- The map components (components/dashboard/asset-map.tsx, components/maps/asset-map.tsx) wrap map libraries and have no logic of their own.
- Browser file plumbing: the Blob/URL download, the FileReader and the file input reset are not modelled. The import works on the file's text, and `handleExportData` and `handleDownloadTemplate` in components/assets-in-use/assets-in-use.tsx, which only build download files, are not modelled.
- The asynchronous timers that simulate progress in components/data-management/data-management.tsx become a loop of job-list updates. Other code running between the steps is not modelled.
- Randomness: the dashboard's maintenance timeline and the reports' maintenance trends, costs and efficiency come from `Math.random` and the current month's name only. They are not modelled.
- Floating point: `Math.round` percentages are computed exactly on integers as round-half-up. The following are not modelled:
  - the reports' average brightness, resolution distribution and operating-hours chart, which divide by the filtered count;
  - `Number.parseFloat` of imported cells, which is a parameter;
  - decimal points and exponents in `Number`.
- Text formatting: date formatting and parsing (`format`, `parseISO`, `new Date(text)`), time zones and daylight saving are not modelled. Dates are integer instants, and `new Date(text)` of an import cell is a parameter.
- Strings.ParseInt: does not read a "0x" hexadecimal prefix.
- Strings.NumberOf: reads only optional signs and digits.
- ServiceSchemeCreate.NewScheme: an interval text without a leading number is NaN in the source and 0 here. With NaN the due date is an Invalid Date, so the status falls through to "upcoming" and the interval shows as "NaN ..."; with 0 the step stays on the last date and the interval shows as "0 ...".
- AssetsInUse.AssetFromRow: a non-empty cell that does not parse as a number is NaN in the source. Here an unreadable warranty-months, operating-hours or power cell becomes 0, and an unreadable latitude, longitude or custom screen size becomes None (undefined). NaN, 0 and undefined are all falsy, so truthiness tests agree; code that reads the number itself would see NaN where the model has 0 or no value.
- MaintenanceSchedules.StepDate: the "month" unit runs the corrected step `new Date(y, m + v, d)` (MonthStep), not the program's `Math.floor`/`%` split; for a negative month index that is not a whole number of years the program lands twelve months earlier (MonthStepAsWrittenYearEarly; see Findings). For indices of zero or more the two agree (MonthStepAgrees).
- MaintenanceSchedules.CalculateNextDate: months step with the corrected month arithmetic; for a negative month index that is not a whole number of years the program lands a year earlier (see Findings).
- MaintenanceSchedules.ScheduledAsset: months step with the corrected month arithmetic; for a negative month index that is not a whole number of years the program lands a year earlier (see Findings).
- MaintenanceSchedules.MaintenanceSchedulesPage.SaveMaintenanceSchedule: months step with the corrected month arithmetic; for a negative month index that is not a whole number of years the program lands a year earlier (see Findings).
- MaintenanceSchedules.MatchesSearch: a missing serial number crashes the source's search; here it is read as empty text. The search also inherits the ASCII-only case mapping.
- MaintenanceSchedules.FilteredAssets: a missing serial number crashes the source's search; here it is read as empty text.
- Zod and react-hook-form are modelled only as predicates over the form records and as the submit mappings. The category-modal form's defaults and reset (components/asset-categories/category-modal.tsx:29-50) are not modelled.
- AssetModal.AssetModalForm.Reset: the effects that watch the pickers run once, in the order location, section, sub-section, after the reset; React's scheduling of the effects is not modelled.
- AssetModal.SubmittedAsset: the modal's operating-hours text field is not carried into the form record, and the submitted asset drops it as the source does (components/assets-in-use/asset-modal.tsx:235); besides, it requires a form the schema accepts, since `onSubmit` is only reached after validation succeeds.
- The reports' `dateRange` and `reportType` filters (and the report export) take no part in the figures, so the model has no such filters.
- The in-place sort of the shared `assets` array when no filter is active (components/assets-in-use/assets-in-use.tsx:517,565) is not modelled. The model sorts a copy, so the aliasing is lost.
- AssetsInUse.Listed: the search reads every asset's serial number; a missing one (a crash in the source) is read as empty text here. It also inherits the ASCII-only case mapping.
- DataManagement.Shown: a category description stored as null prints as "null" in the source; the model does not tell null from missing and prints "undefined".
- Settings.MaintenanceSopEditor.UpdateStep: requires an index within the steps, which are the only rows the editor shows; assigning past the end, which would lengthen the JavaScript array, is not modelled.
- Settings.MaintenanceSopEditor.RemoveStep: requires an index within the steps, which are the only rows the editor shows.
- UnifiedAssetModal.UnifiedSubmittedAsset: requires a form the schema accepts, since `onSubmit` is only reached after validation succeeds.
- AssetModal.AssetModalForm.ChooseSection: requires the chosen id to be among the offered sections (and the form's chain to hold), as the Select widget offers only those.
- AssetModal.AssetModalForm.ChooseSubSection: requires the chosen id to be among the offered sub-sections, as the Select widget offers only those.
- AssetModal.AssetModalForm.ChooseZone: requires the chosen id to be among the offered zones, as the Select widget offers only those.
- Strings.Lower: maps the ASCII letters only; `toLowerCase` maps every Unicode letter.
- Strings.Upper: maps the ASCII letters only; `toUpperCase` maps every Unicode letter.
- Strings.LowerOfUpper: holds for the ASCII-only case mapping.
- Strings.Trim: white space is space, tab, newline and carriage return; JavaScript's `trim` also strips the other Unicode spaces and line terminators.
- Strings.TrimStart: white space is space, tab, newline and carriage return; JavaScript's `trim` also strips the other Unicode spaces and line terminators.
- Strings.TrimEnd: white space is space, tab, newline and carriage return; JavaScript's `trim` also strips the other Unicode spaces and line terminators.
- AssetLibrary.IconIgnoresCase: inherits the ASCII-only case mapping.
- UserManagement.UnderscoreSpaces: inherits the four-character white space.
- UserManagement.RoleId: inherits the ASCII-only case mapping and the four-character white space.
- Strings.ContainsIgnoringCase: inherits the ASCII-only case mapping, as does every case-insensitive search.
- AssetCategories.FilteredCategories: inherits the ASCII-only case mapping.
- UserManagement.FilteredUsers: inherits the ASCII-only case mapping.
- Sorting.SortBy: the sort is a sorted permutation; whether equal keys keep their order (Array.prototype.sort is stable) is not stated.
- AssetsInUse.NewIdFresh, AssetCategories.NewCategoryIdFresh, AssetLibrary.NewMasterIdFresh, UserManagement.CreatedUserFresh and AssetContext.AddedScheduleFresh: freshness is stated for numeric ids only. With a non-numeric id the new id is "NaN" (Strings.NextIdNaN).
- The user-management page's avatars, the password visibility toggle, and the role and status badge texts are display only.
- components/asset-library/master-asset-modal.tsx, components/maintenance/maintenance-schedule-modal.tsx, components/maintenance/maintenance-schedule-management.tsx, components/asset-management.tsx, app/auth/sign-up-success/page.tsx and app/layout.tsx lie outside the modelled core and are not part of this model.

## Findings

| source | as written | input that shows it | evidently intended | confidence | as-written member | corrected member |
|---|---|---|---|---|---|---|
| components/maintenance/maintenance-schedules.tsx:83-85 | the month step floors `newMonth / 12` into the year, then passes `newMonth % 12` to `new Date`; JavaScript's `%` keeps the dividend's sign, so a negative month index is reduced twice | last maintenance on 15 March 2024 (month index 2) with an interval of -5 months, which the create page lets through (`min="1"` is not enforced and `parseInt("-5")` is -5): newMonth = -3, the year becomes 2023 and `new Date(2023, -3, 15)` is 15 October 2022 | 15 October 2023: reduce the month index into 0..11 with the floor division's own remainder | medium, not executed | MaintenanceSchedules.MonthStepAsWrittenYearEarly | MaintenanceSchedules.MonthStepKeepsDate |
| components/dashboard/dashboard.tsx:130-132 | the location distribution tests and prints `asset.coordinates.lat` and `.lng`, but a coordinates record has the members `latitude` and `longitude` (lib/types.ts:53-56), so both read as undefined | an asset without a location text at coordinates (1.00, 2.00): it is never counted, and the chart is empty for every asset list | count the asset under its location text, or else its coordinates to two decimals, read by their declared names | high, not executed | Dashboard.LocationDistributionAsWritten | Dashboard.LocationDistribution |
