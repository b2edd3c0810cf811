/** The asset list: its search-and-filter query, its fixed-size pages, the
    page buttons, the dialogs that turn user input into requests for the
    dashboard, and the action each row offers. */
module AssetList {
  import opened Assets
  import opened Seqs
  import opened Text

  const RowsPerPage := 100

  /** The statuses the status dialog offers. */
  const StatusChoices: seq<string> := [Available, Assigned, "Scrap/Damage", "Sold", "Others"]

  /** The facilities the location dialog offers. */
  const Locations: seq<string> := [
    "Mumbai Office", "Hyderabad WH", "Ghaziabad WH", "Bhiwandi WH", "Patiala WH",
    "Bangalore Office", "Kolkata WH", "Trichy WH", "Gurugram Office", "Indore WH",
    "Bangalore WH", "Jaipur WH"]

  /** What the list is asked to show: the search box, the dashboard's date
      range, and the three filter menus (each "all" unless the caller sets it). */
  datatype Query = Query(searchTerm: string, dateRange: DateRange, categories: Categories)

  /** The search box's test: the lower-cased term occurs in the lower-cased
      name, asset id, brand, serial number, assignee, employee id, status or
      location; the assignee and employee id take part only when present. */
  function MatchesSearch(a: Asset, term: string): (r: bool)
    ensures r <==> exists k :: 0 <= k < |SearchedFields(a)| && Contains(Lower(SearchedFields(a)[k]), Lower(term))
  {
    SearchedFieldsCover(a, term);
    MatchesBeforeLocation(a, term) || Contains(Lower(a.location), Lower(term))
  }

  /** The search's first seven tests: every field but the location. */
  predicate MatchesBeforeLocation(a: Asset, term: string) {
    var t := Lower(term);
    || Contains(Lower(a.name), t)
    || Contains(Lower(a.assetId), t)
    || Contains(Lower(a.brand), t)
    || Contains(Lower(a.serialNumber), t)
    || (a.assignedTo.Some? && Contains(Lower(a.assignedTo.value), t))
    || (a.employeeId.Some? && Contains(Lower(a.employeeId.value), t))
    || Contains(Lower(a.status), t)
  }

  /** The search as written, for a record whose location may be missing (the
      dashboard's records have none): the tests run left to right and stop at
      the first match, and reaching the location of a record without one
      fails (`None`) instead of answering. */
  function MatchesSearchAsWritten(a: Asset, location: Option<string>, term: string): (r: Option<bool>)
    ensures location.Some? ==> r == Some(MatchesSearch(a.(location := location.value), term))
    ensures location.None? ==> (r.None? <==> !MatchesBeforeLocation(a, term))
    ensures location.None? && MatchesBeforeLocation(a, term) ==> r == Some(true)
  {
    if MatchesBeforeLocation(a, term) then Some(true)
    else if location.None? then None
    else Some(Contains(Lower(location.value), Lower(term)))
  }

  /** A record without a location makes the search as written fail for a
      term of one non-letter character that appears in none of its other fields. */
  lemma SearchFailsWithoutLocation(a: Asset, c: char)
    requires !('a' <= c <= 'z') && !IsUpper(c)
    requires c !in a.name && c !in a.assetId && c !in a.brand && c !in a.serialNumber && c !in a.status
    requires a.assignedTo.Some? ==> c !in a.assignedTo.value
    requires a.employeeId.Some? ==> c !in a.employeeId.value
    ensures MatchesSearchAsWritten(a, None, [c]) == None
  {
    assert Lower([c]) == [c];
    forall f | f in [a.name, a.assetId, a.brand, a.serialNumber, a.status]
      ensures !Contains(Lower(f), [c])
    {
      LowerKeepsAbsent(f, c);
      AbsentCharNotContained(Lower(f), c);
    }
    if a.assignedTo.Some? {
      LowerKeepsAbsent(a.assignedTo.value, c);
      AbsentCharNotContained(Lower(a.assignedTo.value), c);
    }
    if a.employeeId.Some? {
      LowerKeepsAbsent(a.employeeId.value, c);
      AbsentCharNotContained(Lower(a.employeeId.value), c);
    }
  }

  /** Reading a missing location as empty answers wherever the search as
      written answers, gives the same answer there, and answers "no match"
      where the search as written fails. */
  lemma MissingLocationAsEmpty(a: Asset, term: string)
    ensures MatchesSearch(a.(location := ""), term) == MatchesBeforeLocation(a, term)
    ensures MatchesSearchAsWritten(a, None, term).Some? ==>
      MatchesSearchAsWritten(a, None, term) == Some(MatchesSearch(a.(location := ""), term))
    ensures MatchesSearchAsWritten(a, None, term).None? ==> !MatchesSearch(a.(location := ""), term)
  {
    if Contains(Lower(""), Lower(term)) {
      var i :| OccursAt(Lower(""), Lower(term), i);
      assert |Lower(term)| == 0 && |term| == 0;
      assert Lower(term) == "";
      ContainsTrivial(Lower(a.name));
    }
  }

  /** The fields the search box looks at, in the order it looks at them. */
  function SearchedFields(a: Asset): seq<string> {
    [a.name, a.assetId, a.brand, a.serialNumber]
    + (if a.assignedTo.Some? then [a.assignedTo.value] else [])
    + (if a.employeeId.Some? then [a.employeeId.value] else [])
    + [a.status, a.location]
  }

  /** The eight tests, run one after the other, pass exactly when one of
      the searched fields holds the term. */
  lemma SearchedFieldsCover(a: Asset, term: string)
    ensures (MatchesBeforeLocation(a, term) || Contains(Lower(a.location), Lower(term)))
        <==> exists k :: 0 <= k < |SearchedFields(a)| && Contains(Lower(SearchedFields(a)[k]), Lower(term))
  {
    var f := SearchedFields(a);
    var t := Lower(term);
    var n := |f|;
    var at := if a.assignedTo.Some? then 1 else 0;
    assert f[0] == a.name && f[1] == a.assetId && f[2] == a.brand && f[3] == a.serialNumber;
    assert f[n - 2] == a.status && f[n - 1] == a.location;
    assert a.assignedTo.Some? ==> f[4] == a.assignedTo.value;
    assert a.employeeId.Some? ==> f[4 + at] == a.employeeId.value;
    if MatchesBeforeLocation(a, term) || Contains(Lower(a.location), t) {
      var k: nat :=
        if Contains(Lower(a.name), t) then 0
        else if Contains(Lower(a.assetId), t) then 1
        else if Contains(Lower(a.brand), t) then 2
        else if Contains(Lower(a.serialNumber), t) then 3
        else if a.assignedTo.Some? && Contains(Lower(a.assignedTo.value), t) then 4
        else if a.employeeId.Some? && Contains(Lower(a.employeeId.value), t) then 4 + at
        else if Contains(Lower(a.status), t) then n - 2
        else n - 1;
      assert 0 <= k < n && Contains(Lower(f[k]), t);
    } else {
      forall k | 0 <= k < n ensures !Contains(Lower(f[k]), t) {
        if 4 <= k < n - 2 {
          assert (k == 4 && a.assignedTo.Some?) || (k == 4 + at && a.employeeId.Some?);
        }
      }
    }
  }

  /** The search ignores the case of the term. */
  lemma SearchIgnoresTermCase(a: Asset, term: string)
    ensures MatchesSearch(a, term) == MatchesSearch(a, Lower(term))
  {
    LowerIdempotent(term);
  }

  /** The empty search box matches every record. */
  lemma EmptySearchMatchesAll(a: Asset)
    ensures MatchesSearch(a, "")
  {
    assert Lower("") == "";
    ContainsTrivial(Lower(a.name));
  }

  /** The date test: passes when either end of the range is unset, when the
      record has no assigned date, or when the date lies inclusively between. */
  function MatchesDateRange(a: Asset, range: DateRange): (m: bool)
    ensures range.from.None? || range.to.None? ==> m
    ensures a.assignedDate.None? ==> m
    ensures range.from.Some? && range.to.Some? && a.assignedDate.Some? ==>
      (m <==> range.from.value <= a.assignedDate.value <= range.to.value)
  {
    || range.from.None?
    || range.to.None?
    || a.assignedDate.None?
    || (range.from.value <= a.assignedDate.value && a.assignedDate.value <= range.to.value)
  }

  predicate MatchesQuery(a: Asset, q: Query) {
    && MatchesSearch(a, q.searchTerm)
    && MatchesDateRange(a, q.dateRange)
    && MatchesCategories(a, q.categories)
  }

  function SearchTest(term: string): Asset -> bool {
    a => MatchesSearch(a, term)
  }

  function DateTest(r: DateRange): Asset -> bool {
    a => MatchesDateRange(a, r)
  }

  function CategoryTest(c: Categories): Asset -> bool {
    a => MatchesCategories(a, c)
  }

  function QueryTest(q: Query): Asset -> bool {
    a => MatchesQuery(a, q)
  }

  /** The records the list shows (before paging): those passing all five tests,
      in the order given. */
  function FilteredAssets(assets: seq<Asset>, q: Query): (r: seq<Asset>)
    ensures IsSubsequence(r, assets)
    ensures forall i :: 0 <= i < |r| ==> r[i] in assets && MatchesQuery(r[i], q)
    ensures forall i :: 0 <= i < |assets| && MatchesQuery(assets[i], q) ==> assets[i] in r
    ensures forall a :: multiset(r)[a] == if MatchesQuery(a, q) then multiset(assets)[a] else 0
  {
    FilterIsSubsequence(assets, QueryTest(q));
    FilterMultiset(assets, QueryTest(q));
    Filter(assets, QueryTest(q))
  }

  /** Filtering in stages (search, then date, then the menus, or the menus
      first and the search last) gives the same records as the single
      conjunction: the tests are independent. */
  lemma {:induction false} FilterOrderIrrelevant(assets: seq<Asset>, q: Query)
    ensures FilteredAssets(assets, q)
         == Filter(Filter(Filter(assets, SearchTest(q.searchTerm)), DateTest(q.dateRange)), CategoryTest(q.categories))
    ensures FilteredAssets(assets, q)
         == Filter(Filter(Filter(assets, CategoryTest(q.categories)), DateTest(q.dateRange)), SearchTest(q.searchTerm))
  {
    var s, d, c := SearchTest(q.searchTerm), DateTest(q.dateRange), CategoryTest(q.categories);
    var sd: Asset -> bool := a => s(a) && d(a);
    var sdc: Asset -> bool := a => sd(a) && c(a);
    FilterFilter(assets, s, d, sd);
    FilterFilter(assets, sd, c, sdc);
    FilterAgree(assets, sdc, QueryTest(q));
    var cd: Asset -> bool := a => c(a) && d(a);
    var cds: Asset -> bool := a => cd(a) && s(a);
    FilterFilter(assets, c, d, cd);
    FilterFilter(assets, cd, s, cds);
    FilterAgree(assets, cds, QueryTest(q));
  }

  /** With an empty search, no date range and every menu on "all", the list
      shows every record. */
  lemma UnfilteredShowsAll(assets: seq<Asset>)
    ensures FilteredAssets(assets, Query("", NoRange, AllCategories)) == assets
  {
    var q := Query("", NoRange, AllCategories);
    forall i | 0 <= i < |assets| ensures QueryTest(q)(assets[i]) {
      EmptySearchMatchesAll(assets[i]);
    }
    FilterKeepsAll(assets, QueryTest(q));
  }

  /** `Math.ceil(n / rowsPerPage)`. */
  function TotalPages(n: nat): (r: nat)
    ensures n <= r * RowsPerPage < n + RowsPerPage
  {
    (n + RowsPerPage - 1) / RowsPerPage
  }

  /** Where `Array.prototype.slice` reads an index: negative indices count
      from the end, and every index is clamped to `[0, len]`. */
  function SliceIndex(i: int, len: nat): (k: nat)
    ensures k <= len
    ensures 0 <= i <= len ==> k == i
  {
    if i < 0 then (if len + i < 0 then 0 else len + i)
    else if i > len then len
    else i
  }

  /** `s.slice(start, end)`. */
  function Slice(s: seq<Asset>, start: int, end: int): (r: seq<Asset>)
    ensures 0 <= start <= end <= |s| ==> r == s[start..end]
    ensures |r| == if SliceIndex(start, |s|) < SliceIndex(end, |s|) then SliceIndex(end, |s|) - SliceIndex(start, |s|) else 0
    ensures forall i :: 0 <= i < |r| ==> r[i] == s[SliceIndex(start, |s|) + i]
  {
    var a, b := SliceIndex(start, |s|), SliceIndex(end, |s|);
    if a < b then s[a..b] else []
  }

  /** The rows shown on page `p`. */
  function Page(filtered: seq<Asset>, p: int): (r: seq<Asset>)
    ensures p >= 1 ==> |r| <= RowsPerPage
    ensures p >= 1 && (p - 1) * RowsPerPage <= |filtered| ==>
      r == filtered[(p - 1) * RowsPerPage..Min(p * RowsPerPage, |filtered|)]
    ensures p > TotalPages(|filtered|) ==> r == []
  {
    Slice(filtered, (p - 1) * RowsPerPage, p * RowsPerPage)
  }

  function Min(a: int, b: int): int {
    if a <= b then a else b
  }

  /** Pages 1 to k, one after the other. */
  function PagesUpTo(filtered: seq<Asset>, k: nat): seq<Asset> {
    if k == 0 then [] else PagesUpTo(filtered, k - 1) + Page(filtered, k)
  }

  lemma {:induction false} PagesUpToIsPrefix(filtered: seq<Asset>, k: nat)
    ensures PagesUpTo(filtered, k) == filtered[..Min(k * RowsPerPage, |filtered|)]
  {
    if k > 0 {
      PagesUpToIsPrefix(filtered, k - 1);
      var n := |filtered|;
      if (k - 1) * RowsPerPage <= n {
        assert filtered[..Min((k - 1) * RowsPerPage, n)] + filtered[(k - 1) * RowsPerPage..Min(k * RowsPerPage, n)]
            == filtered[..Min(k * RowsPerPage, n)];
      }
    }
  }

  /** Reading every page in turn shows each filtered record once, in order. */
  lemma PagesCoverFiltered(filtered: seq<Asset>)
    ensures PagesUpTo(filtered, TotalPages(|filtered|)) == filtered
  {
    PagesUpToIsPrefix(filtered, TotalPages(|filtered|));
  }

  /** The first row number in "Showing a to b of n". */
  function ShowingFrom(p: int): int {
    (p - 1) * RowsPerPage + 1
  }

  /** The last row number in "Showing a to b of n". */
  function ShowingTo(p: int, n: nat): int {
    Min(p * RowsPerPage, n)
  }

  /** On an existing page, "Showing a to b" names exactly the rows of that page. */
  lemma ShowingDescribesPage(filtered: seq<Asset>, p: int)
    requires 1 <= p <= TotalPages(|filtered|)
    ensures 1 <= ShowingFrom(p) <= ShowingTo(p, |filtered|) <= |filtered|
    ensures Page(filtered, p) == filtered[ShowingFrom(p) - 1..ShowingTo(p, |filtered|)]
  {
  }

  /** Past the last page the page is empty and the first row number exceeds the last. */
  lemma ShowingPastLastPage(filtered: seq<Asset>, p: int)
    requires p > TotalPages(|filtered|) && p >= 1
    ensures Page(filtered, p) == []
    ensures ShowingFrom(p) > ShowingTo(p, |filtered|)
  {
  }

  /** The Previous button: one page back, never below page 1. */
  function PreviousPage(p: int): (r: int)
    ensures r >= 1
    ensures r <= p || p < 1
    ensures p > 1 ==> r == p - 1
    ensures p <= 1 ==> r == 1
  {
    if p - 1 >= 1 then p - 1 else 1
  }

  /** The Next button: one page on, never past the last page. */
  function NextPage(p: int, totalPages: nat): (r: int)
    ensures r <= totalPages
    ensures p < totalPages ==> r == p + 1
    ensures p >= totalPages ==> r == totalPages
  {
    if p + 1 <= totalPages then p + 1 else totalPages
  }

  /** From a page in range, both buttons lead to a page in range. */
  lemma NavigationStaysInRange(p: int, totalPages: nat)
    requires 1 <= p <= totalPages
    ensures 1 <= PreviousPage(p) <= totalPages
    ensures 1 <= NextPage(p, totalPages) <= totalPages
  {
  }

  /** What the list asks the dashboard to do. */
  datatype Intent =
    | AssignRequest(assetId: int, userName: string, employeeId: string)
    | UnassignRequest(assetId: int)
    | StatusRequest(assetId: int, status: string)
    | LocationRequest(assetId: int, location: string)

  /** The assign dialog's guard: a request goes out only for a selected record
      and non-blank name and employee id, and carries the trimmed values. */
  function AssignGuard(selected: Option<Asset>, userName: string, employeeId: string): (r: Option<Intent>)
    ensures r.Some? <==> selected.Some? && Trim(userName) != "" && Trim(employeeId) != ""
    ensures r.Some? ==> r.value == AssignRequest(selected.value.id, Trim(userName), Trim(employeeId))
  {
    if selected.Some? && Trim(userName) != "" && Trim(employeeId) != "" then
      Some(AssignRequest(selected.value.id, Trim(userName), Trim(employeeId)))
    else None
  }

  /** A forwarded assignment carries a non-empty name and employee id, each
      without surrounding white space, and nothing is forwarded for a name or
      employee id made only of white space. */
  lemma AssignGuardForwardsTrimmed(selected: Option<Asset>, userName: string, employeeId: string)
    ensures var r := AssignGuard(selected, userName, employeeId);
      && (r.Some? ==>
           && |r.value.userName| > 0 && !IsSpace(r.value.userName[0])
           && !IsSpace(r.value.userName[|r.value.userName| - 1])
           && |r.value.employeeId| > 0 && !IsSpace(r.value.employeeId[0])
           && !IsSpace(r.value.employeeId[|r.value.employeeId| - 1]))
      && ((forall k :: 0 <= k < |userName| ==> IsSpace(userName[k])) ==> r.None?)
      && ((forall k :: 0 <= k < |employeeId| ==> IsSpace(employeeId[k])) ==> r.None?)
  {
    TrimEmptyIffBlank(userName);
    TrimEmptyIffBlank(employeeId);
  }

  /** The status dialog's guard: a selected record and a chosen status. */
  function StatusGuard(selected: Option<Asset>, newStatus: string): (r: Option<Intent>)
    ensures r.Some? <==> selected.Some? && newStatus != ""
    ensures r.Some? ==> r.value == StatusRequest(selected.value.id, newStatus)
  {
    if selected.Some? && newStatus != "" then Some(StatusRequest(selected.value.id, newStatus)) else None
  }

  /** The location dialog's guard: a selected record and a chosen location. */
  function LocationGuard(selected: Option<Asset>, newLocation: string): (r: Option<Intent>)
    ensures r.Some? <==> selected.Some? && newLocation != ""
    ensures r.Some? ==> r.value == LocationRequest(selected.value.id, newLocation)
  {
    if selected.Some? && newLocation != "" then Some(LocationRequest(selected.value.id, newLocation)) else None
  }

  /** Whatever status the user picks from the status menu, the dialog's
      guard lets the request through. */
  lemma OfferedStatusesPassGuard(a: Asset, status: string)
    requires status in StatusChoices
    ensures StatusGuard(Some(a), status) == Some(StatusRequest(a.id, status))
  {
  }

  /** Whatever facility the user picks from the location menu, the dialog's
      guard lets the request through. */
  lemma OfferedLocationsPassGuard(a: Asset, location: string)
    requires location in Locations
    ensures LocationGuard(Some(a), location) == Some(LocationRequest(a.id, location))
  {
  }

  /** The location dialog's part of the list's state: the selected record,
      the chosen location, and whether the dialog is open. */
  datatype LocationDialog = LocationDialog(selected: Option<Asset>, newLocation: string, open: bool)

  const ClosedLocationDialog := LocationDialog(None, "", false)

  /** What the dialog's Update button does: the request it hands to the
      parent's location handler, whether that call throws, and the dialog
      afterwards. */
  datatype LocationUpdate = LocationUpdate(request: Option<Intent>, threw: bool, after: LocationDialog)

  /** The Update button, for a parent that supplies a location handler
      (`wired`) or one that does not. The handler is called before the dialog
      is reset; calling a handler that was never supplied throws, and the
      resets after the call do not run. */
  function LocationUpdateClicked(d: LocationDialog, wired: bool): (r: LocationUpdate)
    ensures r.request == LocationGuard(d.selected, d.newLocation)
    ensures r.threw <==> d.selected.Some? && d.newLocation != "" && !wired
    ensures !wired ==> r.after == d
    ensures wired && r.request.Some? ==> r.after == ClosedLocationDialog
    ensures r.request.None? ==> r.after == d
  {
    var request := LocationGuard(d.selected, d.newLocation);
    if request.None? then LocationUpdate(None, false, d)
    else if !wired then LocationUpdate(request, true, d)
    else LocationUpdate(request, false, ClosedLocationDialog)
  }

  /** Without a location handler, Update throws on every request the guard
      lets through and leaves the dialog exactly as it was: open, with the
      same record and location, so only Cancel closes it. */
  lemma UnwiredLocationDialogStaysOpen(d: LocationDialog)
    ensures LocationUpdateClicked(d, false).after == d
    ensures LocationUpdateClicked(d, false).threw <==> d.selected.Some? && d.newLocation != ""
  {
  }

  /** With a location handler, a request the guard lets through is handed
      over once, nothing throws, and the dialog closes with its inputs and
      the selection cleared; a refused click changes nothing. */
  lemma WiredLocationDialogCloses(d: LocationDialog)
    ensures var u := LocationUpdateClicked(d, true);
      && !u.threw
      && u.request == LocationGuard(d.selected, d.newLocation)
      && (u.request.Some? ==> u.after == ClosedLocationDialog)
      && (u.request.None? ==> u.after == d)
  {
  }

  /** The button a row offers besides edit, status, location and delete. */
  datatype RowAction = OfferAssign | OfferReturn | NoAction

  function ActionFor(status: string): (r: RowAction)
    ensures r == OfferAssign <==> status == Available
    ensures r == OfferReturn <==> status == Assigned
  {
    if status == Available then OfferAssign
    else if status == Assigned then OfferReturn
    else NoAction
  }

  /** The Return button forwards the row's id with no further check. */
  function ReturnClicked(a: Asset): (r: Intent)
    ensures r.UnassignRequest? && r.assetId == a.id
  {
    UnassignRequest(a.id)
  }

  /** The list's own state: the search box, the selected row, the dialogs'
      inputs and visibility, and the current page. */
  class AssetListView {
    var searchTerm: string
    var selectedAsset: Option<Asset>
    var userName: string
    var employeeId: string
    var showAssignDialog: bool
    var showStatusDialog: bool
    var showLocationDialog: bool
    var newStatus: string
    var newLocation: string
    var currentPage: int

    constructor ()
      ensures searchTerm == "" && selectedAsset == None
      ensures userName == "" && employeeId == "" && newStatus == "" && newLocation == ""
      ensures !showAssignDialog && !showStatusDialog && !showLocationDialog
      ensures currentPage == 1
    {
      searchTerm, selectedAsset := "", None;
      userName, employeeId, newStatus, newLocation := "", "", "", "";
      showAssignDialog, showStatusDialog, showLocationDialog := false, false, false;
      currentPage := 1;
    }

    /** Typing in the search box; the current page is kept as it is. */
    method SetSearchTerm(term: string)
      modifies this`searchTerm
      ensures searchTerm == term
    {
      searchTerm := term;
    }

    /** The row's Assign button opens the assign dialog for that record. */
    method OpenAssignDialog(a: Asset)
      modifies this`selectedAsset, this`showAssignDialog
      ensures selectedAsset == Some(a) && showAssignDialog
    {
      selectedAsset := Some(a);
      showAssignDialog := true;
    }

    /** The row's Status button preselects the record's current status. */
    method OpenStatusDialog(a: Asset)
      modifies this`selectedAsset, this`newStatus, this`showStatusDialog
      ensures selectedAsset == Some(a) && newStatus == a.status && showStatusDialog
    {
      selectedAsset := Some(a);
      newStatus := a.status;
      showStatusDialog := true;
    }

    /** The row's Location button preselects the record's current location. */
    method OpenLocationDialog(a: Asset)
      modifies this`selectedAsset, this`newLocation, this`showLocationDialog
      ensures selectedAsset == Some(a) && newLocation == a.location && showLocationDialog
    {
      selectedAsset := Some(a);
      newLocation := a.location;
      showLocationDialog := true;
    }

    method SetAssignInputs(name: string, id: string)
      modifies this`userName, this`employeeId
      ensures userName == name && employeeId == id
    {
      userName, employeeId := name, id;
    }

    /** The assign dialog's Cancel button clears its inputs and the selection. */
    method CancelAssign()
      modifies this`showAssignDialog, this`userName, this`employeeId, this`selectedAsset
      ensures !showAssignDialog && userName == "" && employeeId == "" && selectedAsset == None
    {
      showAssignDialog := false;
      userName, employeeId := "", "";
      selectedAsset := None;
    }

    /** The status dialog's Cancel button. */
    method CancelStatus()
      modifies this`showStatusDialog, this`newStatus, this`selectedAsset
      ensures !showStatusDialog && newStatus == "" && selectedAsset == None
    {
      showStatusDialog := false;
      newStatus := "";
      selectedAsset := None;
    }

    /** The location dialog's Cancel button. */
    method CancelLocation()
      modifies this`showLocationDialog, this`newLocation, this`selectedAsset
      ensures !showLocationDialog && newLocation == "" && selectedAsset == None
    {
      showLocationDialog := false;
      newLocation := "";
      selectedAsset := None;
    }

    /** The assign dialog's Assign button: forwards the request the guard
      allows, then closes the dialog and clears its inputs and the selection;
      when the guard refuses, nothing changes. */
    method HandleAssignAsset() returns (request: Option<Intent>)
      modifies this`showAssignDialog, this`userName, this`employeeId, this`selectedAsset
      ensures request == AssignGuard(old(selectedAsset), old(userName), old(employeeId))
      ensures request.Some? ==> !showAssignDialog && userName == "" && employeeId == "" && selectedAsset == None
      ensures request.None? ==> unchanged(this)
    {
      request := AssignGuard(selectedAsset, userName, employeeId);
      if request.Some? {
        showAssignDialog := false;
        userName, employeeId := "", "";
        selectedAsset := None;
      }
    }

    /** The status dialog's Update button. */
    method HandleUpdateStatus() returns (request: Option<Intent>)
      modifies this`showStatusDialog, this`newStatus, this`selectedAsset
      ensures request == StatusGuard(old(selectedAsset), old(newStatus))
      ensures request.Some? ==> !showStatusDialog && newStatus == "" && selectedAsset == None
      ensures request.None? ==> unchanged(this)
    {
      request := StatusGuard(selectedAsset, newStatus);
      if request.Some? {
        showStatusDialog := false;
        newStatus := "";
        selectedAsset := None;
      }
    }

    /** Picking a status from the status dialog's menu. */
    method ChooseStatus(status: string)
      requires status in StatusChoices
      modifies this`newStatus
      ensures newStatus == status
    {
      newStatus := status;
    }

    /** Picking a facility from the location dialog's menu. */
    method ChooseLocation(location: string)
      requires location in Locations
      modifies this`newLocation
      ensures newLocation == location
    {
      newLocation := location;
    }

    /** The location dialog's part of this state. */
    function Location(): LocationDialog
      reads this
    {
      LocationDialog(selectedAsset, newLocation, showLocationDialog)
    }

    /** The location dialog's Update button, with or without a location
      handler supplied by the parent (`wired`). */
    method HandleUpdateLocation(wired: bool) returns (request: Option<Intent>, threw: bool)
      modifies this`showLocationDialog, this`newLocation, this`selectedAsset
      ensures var u := LocationUpdateClicked(old(Location()), wired);
        request == u.request && threw == u.threw && Location() == u.after
      ensures request == LocationGuard(old(selectedAsset), old(newLocation))
      ensures threw <==> request.Some? && !wired
      ensures request.Some? && wired ==> !showLocationDialog && newLocation == "" && selectedAsset == None
      ensures request.None? || !wired ==> unchanged(this)
    {
      request := LocationGuard(selectedAsset, newLocation);
      threw := request.Some? && !wired;
      if request.Some? && wired {
        showLocationDialog := false;
        newLocation := "";
        selectedAsset := None;
      }
    }

    method Previous()
      modifies this`currentPage
      ensures currentPage == PreviousPage(old(currentPage))
    {
      currentPage := PreviousPage(currentPage);
    }

    method Next(totalPages: nat)
      modifies this`currentPage
      ensures currentPage == NextPage(old(currentPage), totalPages)
    {
      currentPage := NextPage(currentPage, totalPages);
    }
  }
}
