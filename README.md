# Asset inventory dashboard — a verified model of its core

The dashboard keeps an in-memory collection of asset records (laptops, tablets
and so on). Through it a user adds records, assigns them to employees, takes
them back and changes their status. Three filter menus (type, brand,
configuration) narrow the collection. The summary cards and the CSV export
see only the records the menus select: the search and the date range do not
reach them, except that the date range feeds the "allocated in range" count.
The asset list the dashboard embeds receives the same records and the date
range. It adds a free-text search and its own date test, shows 100 rows per
page, and turns its dialogs' input into requests that go back to the dashboard.

The model has five modules:

- `Assets` (assets.dfy): the asset record, the date range and the "all"-or-exact filter menus.
- `Seqs` (seqs.dfy) and `Text` (text.dfy): the JavaScript array and string operations the components use:
  - `filter`, `[...new Set(...)]`, `join` and `split`;
  - ASCII `toLowerCase`, `includes`, `trim`, `String(n)` and `padStart`.
- `AssetList` (asset_list.dfy): the list's query, pagination, page buttons, dialog guards and row actions.
  - The class `AssetListView` holds the list's own state and its handlers.
- `Dashboard` (dashboard.dfy): the transitions, the filter menus, the summary cards and the CSV export.
  - The transitions are functions on the collection.
  - The class `AssetStore` holds the collection, the filter menus and the date range. Its handlers replace the collection with the new value.

The model makes these choices:

- **Dates** are day numbers. The current day is a parameter. A date's CSV text
  comes from a parameter `isoDate`.
- **Missing fields:** a `null` field is `None`.
- **Location:** the dashboard's records have no location. The model reads a
  missing location as the empty string. See "## Findings".
- **Requests from the list** are an `Intent` value returned by the list's
  handlers. `AssetStore.Dispatch` routes an `Intent` to the dashboard handler
  wired to it.
- **Location changes:** the dashboard supplies no location handler to the list.
  The model keeps that behaviour as `AssetList.LocationUpdateClicked` with
  `wired` false: the call throws. The rest of the model wires the handler the
  list expects. See "## Findings".

## Model

| member | source | states |
|---|---|---|
| AssetList.MatchesSearch | src/components/AssetList.tsx:86-94 | a record matches the search exactly when one of its searched fields, lower-cased, contains the lower-cased term; the searched fields are name, tag, brand, serial, assignee and employee id when present, status and location |
| AssetList.SearchIgnoresTermCase | src/components/AssetList.tsx:86-94 | the search gives the same answer for a term and its lower-cased form |
| AssetList.EmptySearchMatchesAll | src/components/AssetList.tsx:86-94 | an empty search box matches every record |
| AssetList.MatchesSearchAsWritten | src/components/AssetList.tsx:86-94 | the search as written: with a location it answers as the search does; without one it fails exactly when none of the first seven fields matches |
| AssetList.SearchFailsWithoutLocation | src/components/AssetList.tsx:86-94 | a non-letter character absent from every other field makes the search as written fail on a record without a location |
| AssetList.MissingLocationAsEmpty | src/components/AssetList.tsx:86-94 | reading a missing location as empty agrees with the search as written wherever that answers, and answers "no match" where it fails |
| AssetList.MatchesDateRange | src/components/AssetList.tsx:96-100 | the date test passes when either end of the range is unset or the record has no date; otherwise it passes iff the date lies between the ends, both included |
| AssetList.FilteredAssets | src/components/AssetList.tsx:85-107 | the rows kept are an order-preserving subsequence of the input: exactly the records passing the search, the date test and the three menus, each kept as many times as it occurs and the others not at all |
| AssetList.FilterOrderIrrelevant | src/components/AssetList.tsx:96-106 | filtering by search, then date, then menus, or by menus, then date, then search, gives the same rows as the single conjunction |
| AssetList.UnfilteredShowsAll | src/components/AssetList.tsx:52-54 | with an empty search, no date range and every menu on "all", every record is shown, in order |
| AssetList.TotalPages | src/components/AssetList.tsx:110 | the page count is the least number of pages whose 100-row capacity covers the filtered rows (ceiling division) |
| AssetList.Slice | src/components/AssetList.tsx:111-114 | `slice` with clamped bounds: between in-range bounds it is exactly that part of the sequence; otherwise it holds the elements from the clamped start up to the clamped end, and is empty when they cross |
| AssetList.Page | src/components/AssetList.tsx:111-114 | a page holds at most 100 rows; it is the slice from (page-1)*100 to the smaller of page*100 and the row count; a page past the last is empty |
| AssetList.PagesCoverFiltered | src/components/AssetList.tsx:109-114 | reading pages 1 to the page count, one after another, gives exactly the filtered rows |
| AssetList.ShowingDescribesPage | src/components/AssetList.tsx:358-359 | on an existing page, "Showing a to b of n", with a = `ShowingFrom` and b = `ShowingTo`, lies within 1..n and names exactly that page's rows |
| AssetList.ShowingPastLastPage | src/components/AssetList.tsx:358-359 | past the last page, the page is empty and the first row number exceeds the last |
| AssetList.PreviousPage | src/components/AssetList.tsx:365 | Previous goes one page back from any page after the first, and to page 1 from page 1 or below |
| AssetList.NextPage | src/components/AssetList.tsx:373 | Next goes one page on from any page before the last, and to the last page from the last page or beyond |
| AssetList.NavigationStaysInRange | src/components/AssetList.tsx:365-374 | from a page in range, both buttons lead to a page in range |
| AssetList.AssignGuard | src/components/AssetList.tsx:116-118 | an assign request goes out iff a record is selected and both name and employee id are non-blank after trimming; it carries the trimmed values |
| AssetList.AssignGuardForwardsTrimmed | src/components/AssetList.tsx:117-118 | a forwarded name and employee id are non-empty with no surrounding white space; all-white-space input forwards nothing |
| AssetList.StatusGuard | src/components/AssetList.tsx:126-128 | a status request goes out iff a record is selected and a status is chosen |
| AssetList.LocationGuard | src/components/AssetList.tsx:135-137 | a location request goes out iff a record is selected and a location is chosen |
| AssetList.OfferedStatusesPassGuard | src/components/AssetList.tsx:456-460 | every status the status menu offers makes the guard send a request for the selected record |
| AssetList.OfferedLocationsPassGuard | src/components/AssetList.tsx:69-82 | every facility the location menu offers makes the guard send a request for the selected record |
| AssetList.LocationUpdateClicked | src/components/AssetList.tsx:135-141 | Update hands over the request the guard allows; the call throws exactly when there is a request and no handler; the dialog is closed and cleared only after a call that succeeds, and is otherwise left as it was |
| AssetList.UnwiredLocationDialogStaysOpen | src/components/AssetList.tsx:135-141 | without a location handler, Update throws on every request the guard allows and leaves the dialog as it was, open with the same record and location |
| AssetList.WiredLocationDialogCloses | src/components/AssetList.tsx:135-141 | with a location handler, Update hands over the guarded request without throwing and closes and clears the dialog; a refused click changes nothing |
| AssetList.ActionFor | src/components/AssetList.tsx:278-300 | a row offers Assign exactly when its status is "Available", and Return exactly when it is "Assigned" |
| AssetList.ReturnClicked | src/components/AssetList.tsx:290-294 | Return forwards an unassign request for the row's id |
| AssetList.AssetListView.constructor | src/components/AssetList.tsx:56-66 | empty search and inputs, nothing selected, all dialogs closed, page 1 |
| AssetList.AssetListView.SetSearchTerm | src/components/AssetList.tsx:184 | typing sets the search term and leaves the page as it is |
| AssetList.AssetListView.OpenAssignDialog | src/components/AssetList.tsx:281-284 | Assign selects the row and opens the assign dialog |
| AssetList.AssetListView.OpenStatusDialog | src/components/AssetList.tsx:315-319 | Status selects the row, preselects its status and opens the dialog |
| AssetList.AssetListView.OpenLocationDialog | src/components/AssetList.tsx:327-331 | Location selects the row, preselects its location and opens the dialog |
| AssetList.AssetListView.ChooseStatus | src/components/AssetList.tsx:451 | picking from the status menu sets the chosen status |
| AssetList.AssetListView.ChooseLocation | src/components/AssetList.tsx:501-510 | picking from the location menu sets the chosen facility |
| AssetList.AssetListView.SetAssignInputs | src/components/AssetList.tsx:397-411 | the dialog's inputs set the employee id and name |
| AssetList.AssetListView.CancelAssign | src/components/AssetList.tsx:416-421 | Cancel closes the dialog and clears its inputs and the selection |
| AssetList.AssetListView.CancelStatus | src/components/AssetList.tsx:467-471 | Cancel closes the status dialog and clears its choice and the selection |
| AssetList.AssetListView.CancelLocation | src/components/AssetList.tsx:517-521 | Cancel closes the location dialog and clears its choice and the selection |
| AssetList.AssetListView.HandleAssignAsset | src/components/AssetList.tsx:116-124 | returns the request AssignGuard allows; when one goes out the dialog closes and inputs and selection clear, otherwise nothing changes |
| AssetList.AssetListView.HandleUpdateStatus | src/components/AssetList.tsx:126-133 | returns the request StatusGuard allows; resets the dialog when one goes out, otherwise nothing changes |
| AssetList.AssetListView.HandleUpdateLocation | src/components/AssetList.tsx:135-142 | returns the request LocationGuard allows and whether the handler call throws (exactly when there is a request and no handler); the dialog resets only when a request goes out and the call succeeds, otherwise nothing changes |
| AssetList.AssetListView.Previous | src/components/AssetList.tsx:365 | the page becomes PreviousPage of the old page |
| AssetList.AssetListView.Next | src/components/AssetList.tsx:373 | the page becomes NextPage of the old page |
| Dashboard.AssetTag | src/components/Dashboard.tsx:132 | a tag is "AST-", then zeros, then the record number in decimal, with at least three characters after the prefix |
| Dashboard.AssetTagRoundTrip | src/components/Dashboard.tsx:132 | a tag is "AST-" followed by at least three digits that read back as the record number |
| Dashboard.AssetTagInjective | src/components/Dashboard.tsx:131-132 | different record numbers get different tags |
| Dashboard.NewAsset | src/components/Dashboard.tsx:129-137 | a new record gets the next id and tag, the draft's name, type, brand, model, configuration and serial number, status "Available", an empty location, and no assignee, date or employee id |
| Dashboard.Added | src/components/Dashboard.tsx:138 | adding appends the new record and keeps every earlier record in place |
| Dashboard.AddKeepsNumbering | src/components/Dashboard.tsx:129-138 | adding keeps record i numbered i+1 with the matching tag; the new id and tag belong to no earlier record |
| Dashboard.WellNumberedUnique | src/components/Dashboard.tsx:131-132 | in a numbered collection, ids and tags are unique |
| Dashboard.SeedIsWellNumbered | src/components/Dashboard.tsx:13-92 | the six starting records are numbered 1 to 6 with tags AST-001 to AST-006 |
| Dashboard.UpdateWhere | src/components/Dashboard.tsx:143-147 | the map replaces exactly the records with the given id and keeps the length |
| Dashboard.AssignedIn | src/components/Dashboard.tsx:142-148 | assigning makes the records with that id Assigned to the name as of today; identity fields and all other records are unchanged |
| Dashboard.UnassignedIn | src/components/Dashboard.tsx:150-156 | returning makes the records with that id Available with no assignee or date; everything else is unchanged |
| Dashboard.StatusUpdatedIn | src/components/Dashboard.tsx:158-164 | a status change sets only the status of the records with that id; assignee and date survive |
| Dashboard.LocationUpdatedIn | src/components/AssetList.tsx:35 | a location change gives the records with that id the new location and changes nothing else |
| Dashboard.TransitionsKeepNumbering | src/components/Dashboard.tsx:142-164 | assign, return, status change and location change keep the numbering |
| Dashboard.TargetIsUnique | src/components/Dashboard.tsx:144 | in a numbered collection, an id selects exactly one position |
| Dashboard.UnknownIdIsNoOp | src/components/Dashboard.tsx:142-164 | a request for an id no record has leaves the collection as it was |
| Dashboard.UnassignIdempotent | src/components/Dashboard.tsx:150-156 | returning twice is returning once |
| Dashboard.UnassignUndoesAssign | src/components/Dashboard.tsx:142-156 | returning after assigning gives what returning alone gives |
| Dashboard.StatusChangeKeepsAssignee | src/components/Dashboard.tsx:158-164 | moving an assigned record to another status keeps its assignee |
| Dashboard.AssignedRecordIsListed | src/components/Dashboard.tsx:142-148 | an assigned record shows as assigned, the search finds it by tag and by employee name, and its row offers Return; after a return it offers Assign |
| Dashboard.NewAssetOffersAssign | src/components/Dashboard.tsx:129-137 | a freshly added record's row offers Assign |
| Dashboard.AssetStore.constructor | src/components/Dashboard.tsx:97-101 | a session starts with the six seed records, every menu on "all" and no date range |
| Dashboard.AssetStore.View | src/components/Dashboard.tsx:109-115 | the dashboard's view is a subsequence of the collection |
| Dashboard.AssetStore.SetCategories | src/components/Dashboard.tsx:99-101 | choosing in the menus sets the categories |
| Dashboard.AssetStore.SetDateRange | src/components/Dashboard.tsx:98 | picking a range sets the date range |
| Dashboard.AssetStore.ClearFilters | src/components/Dashboard.tsx:194-199 | Clear Filters resets every menu to "all" and the range to none, so the view is the whole collection |
| Dashboard.AssetStore.AddAsset | src/components/Dashboard.tsx:129-140 | the collection gains NewAsset at the end and stays numbered |
| Dashboard.AssetStore.AssignAsset | src/components/Dashboard.tsx:142-148 | the collection becomes AssignedIn of the old one and stays numbered |
| Dashboard.AssetStore.UnassignAsset | src/components/Dashboard.tsx:150-156 | the collection becomes UnassignedIn of the old one and stays numbered |
| Dashboard.AssetStore.UpdateAssetStatus | src/components/Dashboard.tsx:158-164 | the collection becomes StatusUpdatedIn of the old one and stays numbered |
| Dashboard.AssetStore.UpdateAssetLocation | src/components/AssetList.tsx:35 | the collection becomes LocationUpdatedIn of the old one and stays numbered |
| Dashboard.AssetStore.Dispatch | src/components/Dashboard.tsx:372-376 | assign (the employee id dropped), return and status requests reach their handlers; a location request reaches the location handler the list expects |
| Dashboard.AssetStore.LocationDialogUpdate | src/components/AssetList.tsx:135-141 | with the location handler wired, Update stores the chosen facility on the selected record, keeps the numbering, and closes and clears the dialog; a refused click changes nothing |
| Dashboard.SeedLocationUpdateThrows | src/components/Dashboard.tsx:372-378 | as written, choosing "Mumbai Office" for the first seed record and pressing Update throws and leaves the dialog open |
| Dashboard.TypeOptions | src/components/Dashboard.tsx:104 | the type menu lists each type present, exactly once |
| Dashboard.BrandOptions | src/components/Dashboard.tsx:105 | the brand menu lists each brand present, exactly once |
| Dashboard.ConfigurationOptions | src/components/Dashboard.tsx:106 | the configuration menu lists each configuration present, exactly once |
| Seqs.Distinct | src/components/Dashboard.tsx:104-106 | `[...new Set(s)]` has no duplicates and holds exactly the values of s |
| Seqs.DistinctFirstSeenOrder | src/components/Dashboard.tsx:104-106 | the distinct values appear in the order of their first occurrence |
| Dashboard.FilteredAssets | src/components/Dashboard.tsx:109-115 | the view is an order-preserving subsequence of exactly the records every menu accepts, each kept as many times as it occurs |
| Dashboard.AllMenusShowEverything | src/components/Dashboard.tsx:109-115 | with every menu on "all" the view is the whole collection |
| Dashboard.DashboardThenListIsOneQuery | src/components/Dashboard.tsx:372-373 | the list's rows over the dashboard's view equal a single query with the dashboard's menus |
| Dashboard.Summarize | src/components/Dashboard.tsx:117-127 | the four cards and the in-range count, which is computed but not displayed: the total is the view size; the allocated, in-stock and scrap cards are the numbers of positions in the view whose record is "Assigned", "Available", or "Scrap" or "Damage"; the in-range count is the number of positions whose record is dated within both ends of the range; the three status cards sum to at most the total; the in-range count is zero when either end of the range is unset |
| Dashboard.SeedSummary | src/components/Dashboard.tsx:117-121 | the starting cards read 6 in total, 3 allocated, 2 in stock and 1 scrap; the in-range count, computed but not displayed, is 0 |
| Dashboard.CombinedScrapStatusUncounted | src/components/Dashboard.tsx:119-121 | a record with status "Scrap/Damage" adds to the total but to none of the three status cards |
| Dashboard.InRangeMatchesListDateTest | src/components/Dashboard.tsx:123-127 | with both ends set, records in range plus undated records are exactly the records the list's date test passes |
| Dashboard.SeedSearchFails | src/components/Dashboard.tsx:27-39 | the second seed record, searched for "#", makes the search as written fail |
| Dashboard.CsvFields | src/components/Dashboard.tsx:178-182 | a record has one cell per header column, and each cell is the field its column names; a missing model, assignee or date gives an empty cell |
| Dashboard.CsvHeaderReadsBack | src/components/Dashboard.tsx:171-177 | the header line holds no line break and splits back into the column names |
| Dashboard.CsvRowReadsBack | src/components/Dashboard.tsx:178-182 | a row without commas or line breaks in its cells splits back into its cells |
| Dashboard.CsvCommaCorruptsRow | src/components/Dashboard.tsx:178-182 | a comma in any cell means the row no longer splits back into its cells |
| Dashboard.CsvContent | src/components/Dashboard.tsx:176-183 | the export starts with the header line; with no records it is just that line, otherwise a line break follows it |
| Dashboard.CsvLinesReadBack | src/components/Dashboard.tsx:176-183 | when no cell holds a line break (commas allowed, as in the seed configurations), the export splits at line breaks into the header line and one line per record |
| Dashboard.CsvReadsBack | src/components/Dashboard.tsx:170-183 | for safe records the export reads back as the header, then each filtered record's cells, line by line |
| Seqs.SplitJoin | src/components/Dashboard.tsx:176-183 | splitting joined parts that lack the separator recovers the parts |
| Text.Trim | src/components/AssetList.tsx:117 | `trim` returns a slice with only white space outside it and no white space at its ends |
| Text.TrimIdempotent | src/components/AssetList.tsx:117 | trimming twice is trimming once |
| Text.Contains | src/components/AssetList.tsx:87 | `includes` holds iff the term occurs at some position |
| Text.LowerIdempotent | src/components/AssetList.tsx:87 | lower-casing twice is lower-casing once |
| Text.PaddedDecimalRoundTrip | src/components/Dashboard.tsx:132 | a zero-padded decimal is all digits and reads back as its number |
| Text.PadStart | src/components/Dashboard.tsx:132 | `padStart` reaches the width with fill characters in front and keeps the string as its suffix |

## Left out

- Rendering is left out: cards, table, badges (`getStatusBadge`), icons and the date display (`formatDate`).
  The model is about values, not markup.
- The CSV file download is left out (Blob, object URL, anchor click). Only the text is modelled.
  The date's text comes from the `isoDate` parameter, and `new Date()` is replaced by the `today` parameter.
- Date parsing and time zones are left out: dates are whole day numbers compared as integers.
- `Text.Lower` maps only the ASCII letters A to Z. JavaScript's full Unicode case mapping is not modelled.
- `Text.IsSpace` covers the ASCII white space, no-break space, the byte-order mark and the line and paragraph separators.
  The other Unicode space separators that `trim` also removes are not modelled.
- The edit dialog (`EditAssetDialog`) and the delete button with its `confirm` prompt are left out.
  The dashboard supplies neither `onUpdateAsset` nor `onDelete` (Dashboard.tsx:372-378).
  So saving an edit (EditAssetDialog.tsx:28) and confirming a delete (AssetList.tsx:341) both throw and change nothing.
  The model has no request for either.
- Dashboard.AssetStore.Dispatch: a location request goes to the location handler the list expects. The dashboard as written supplies none.
  That behaviour is kept as `AssetList.LocationUpdateClicked` with `wired` false, where the call throws (see Findings).
- The add form (`AssetForm`) and the bulk upload dialog (`BulkUpload`) are left out. Only the draft the form submits is modelled (`Dashboard.Draft`).
  The bulk upload handler only logs the file name.
- Dashboard.NewAsset: the draft is spread after the id and tag. A draft carrying `id` or `assetId` would override them.
  The form never sends those fields, so the model keeps the computed ones.
- Dashboard.NewAsset: a new record's location is the empty string. The source leaves it undefined (see Findings).
- `AssetList.NextPage` gives page 0 when there are no rows. The source hides the buttons in that case, and the model does not capture that visibility.
- Facts about the code that the model keeps as they are:
  - The CSV header has a Model column and no Employee ID or location column (Dashboard.tsx:171-174).
  - A new record gets no location (Dashboard.tsx:130-137); the model reads that as the empty string.
  - The dashboard has no location filter menu (Dashboard.tsx:99-101).
  - The scrap card counts only "Scrap" and "Damage" (Dashboard.tsx:121), never the "Scrap/Damage" value the status dialog offers (AssetList.tsx:458).

## Findings

| source | as written | input that shows it | evidently intended | confidence | as-written member | corrected member |
|---|---|---|---|---|---|---|
| src/components/Dashboard.tsx:372-378 | the dashboard renders the list without `onUpdateLocation`, so the location dialog's Update calls an undefined handler and throws before its resets (AssetList.tsx:137-140); the location is not stored and the dialog stays open on the same record | open Location on the first seed record, choose "Mumbai Office", press Update | the dashboard stores the chosen location on the record, and the dialog closes and clears | not executed | AssetList.UnwiredLocationDialogStaysOpen | Dashboard.AssetStore.LocationDialogUpdate |
| src/components/AssetList.tsx:94 | the search calls `asset.location.toLowerCase()`, but the dashboard's records (seed records and added ones) have no `location`, so the call fails whenever the first seven tests all miss | the second seed record ("ThinkPad X1") with the search term "#" | a record without a location is searched as if its location were empty | not executed | AssetList.MatchesSearchAsWritten | AssetList.MissingLocationAsEmpty |
