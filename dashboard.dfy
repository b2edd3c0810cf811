/** The dashboard: it owns the asset collection and its transitions (add,
    assign, return, change status, and the location change it was meant to
    wire to the list), and derives from the collection the filter
    menus, the filtered view, the summary cards and the CSV export. */
module Dashboard {
  import opened Assets
  import opened Seqs
  import opened Text
  import AssetList

  /** What the add-asset form submits. */
  datatype Draft = Draft(
    name: string,
    assetType: string,
    brand: string,
    model: string,
    configuration: string,
    serialNumber: string)

  // ---------------------------------------------------------------- asset tags

  /** The asset tag of record number `n`: "AST-" and `n` in decimal,
      zero-padded to at least three digits. */
  function AssetTag(n: nat): (r: string)
    ensures |r| == 4 + if |Decimal(n)| < 3 then 3 else |Decimal(n)|
    ensures r[..4] == "AST-"
    ensures forall k :: 4 <= k < |r| - |Decimal(n)| ==> r[k] == '0'
    ensures r[|r| - |Decimal(n)|..] == Decimal(n)
  {
    "AST-" + PadStart(Decimal(n), 3, '0')
  }

  /** An asset tag is "AST-" followed by digits that read back as its number. */
  lemma AssetTagRoundTrip(n: nat)
    ensures |AssetTag(n)| >= 7 && AssetTag(n)[..4] == "AST-"
    ensures forall k :: 4 <= k < |AssetTag(n)| ==> IsDigit(AssetTag(n)[k])
    ensures ParseDecimal(AssetTag(n)[4..]) == n
  {
    var digits := PadStart(Decimal(n), 3, '0');
    assert AssetTag(n)[4..] == digits;
    PaddedDecimalRoundTrip(n, 3);
  }

  /** Different record numbers get different tags. */
  lemma AssetTagInjective(m: nat, n: nat)
    requires m != n
    ensures AssetTag(m) != AssetTag(n)
  {
    AssetTagRoundTrip(m);
    AssetTagRoundTrip(n);
  }

  // ---------------------------------------------------------------- the collection

  /** The invariant every transition keeps: record `i` has id `i + 1` and the
      matching tag, so ids and tags are unique. */
  ghost predicate WellNumbered(s: seq<Asset>) {
    forall i :: 0 <= i < |s| ==> s[i].id == i + 1 && s[i].assetId == AssetTag(i + 1)
  }

  /** Numbering makes ids and tags unique. */
  lemma WellNumberedUnique(s: seq<Asset>, i: int, j: int)
    requires WellNumbered(s) && 0 <= i < j < |s|
    ensures s[i].id != s[j].id && s[i].assetId != s[j].assetId
  {
    assert s[i].assetId == AssetTag(i + 1) && s[j].assetId == AssetTag(j + 1);
    AssetTagInjective(i + 1, j + 1);
  }

  /** The record the add form creates when `n` records exist: the draft's
      fields, the next id and tag, and always available and unassigned. The
      draft has no location or employee id; the location is left empty. */
  function NewAsset(n: nat, d: Draft): (a: Asset)
    ensures a.id == n + 1 && a.assetId == AssetTag(n + 1)
    ensures a.status == Available && a.assignedTo == None && a.assignedDate == None
    ensures a.employeeId == None
    ensures a.name == d.name && a.assetType == d.assetType && a.brand == d.brand
    ensures a.model == Some(d.model) && a.configuration == d.configuration
    ensures a.serialNumber == d.serialNumber && a.location == ""
  {
    Asset(n + 1, AssetTag(n + 1), d.name, d.assetType, d.brand, Some(d.model),
          d.configuration, d.serialNumber, None, None, Available, "", None)
  }

  function Added(s: seq<Asset>, d: Draft): (r: seq<Asset>)
    ensures |r| == |s| + 1 && r[..|s|] == s && r[|s|] == NewAsset(|s|, d)
  {
    s + [NewAsset(|s|, d)]
  }

  /** Adding keeps the numbering, and the new record's id and tag belong to
      no earlier record. */
  lemma AddKeepsNumbering(s: seq<Asset>, d: Draft)
    requires WellNumbered(s)
    ensures WellNumbered(Added(s, d))
    ensures forall i :: 0 <= i < |s| ==> s[i].id != Added(s, d)[|s|].id && s[i].assetId != Added(s, d)[|s|].assetId
  {
    var r := Added(s, d);
    forall i | 0 <= i < |s| ensures s[i].assetId != r[|s|].assetId {
      AssetTagInjective(i + 1, |s| + 1);
    }
  }

  /** `assets.map(a => a.id === id ? f(a) : a)`. */
  function UpdateWhere(s: seq<Asset>, id: int, f: Asset -> Asset): (r: seq<Asset>)
    ensures |r| == |s|
    ensures forall i :: 0 <= i < |s| ==> r[i] == if s[i].id == id then f(s[i]) else s[i]
  {
    seq(|s|, i requires 0 <= i < |s| => if s[i].id == id then f(s[i]) else s[i])
  }

  /** The fields that assigning, returning and changing status leave alone:
      everything except the status and the assignee and assignment date. */
  predicate SameIdentity(a: Asset, b: Asset) {
    && a.id == b.id && a.assetId == b.assetId && a.name == b.name && a.assetType == b.assetType
    && a.brand == b.brand && a.model == b.model && a.configuration == b.configuration
    && a.serialNumber == b.serialNumber && a.employeeId == b.employeeId && a.location == b.location
  }

  function AssignRecord(a: Asset, userName: string, today: Day): Asset {
    a.(assignedTo := Some(userName), status := Assigned, assignedDate := Some(today))
  }

  function UnassignRecord(a: Asset): Asset {
    a.(assignedTo := None, status := Available, assignedDate := None)
  }

  function WithStatus(a: Asset, status: string): Asset {
    a.(status := status)
  }

  function WithLocation(a: Asset, location: string): Asset {
    a.(location := location)
  }

  function AssignTo(userName: string, today: Day): Asset -> Asset {
    a => AssignRecord(a, userName, today)
  }

  function Unassign(): Asset -> Asset {
    a => UnassignRecord(a)
  }

  function SetStatus(status: string): Asset -> Asset {
    a => WithStatus(a, status)
  }

  function SetLocation(location: string): Asset -> Asset {
    a => WithLocation(a, location)
  }

  /** Assigning: the records with that id become assigned to `userName` as of
      `today`; the employee id is not touched and no other record changes. */
  function AssignedIn(s: seq<Asset>, id: int, userName: string, today: Day): (r: seq<Asset>)
    ensures |r| == |s|
    ensures forall i :: 0 <= i < |s| ==> SameIdentity(r[i], s[i])
    ensures forall i :: 0 <= i < |s| && s[i].id != id ==> r[i] == s[i]
    ensures forall i :: 0 <= i < |s| && s[i].id == id ==>
      r[i].status == Assigned && r[i].assignedTo == Some(userName) && r[i].assignedDate == Some(today)
  {
    UpdateWhere(s, id, AssignTo(userName, today))
  }

  /** Returning: the records with that id become available, with no assignee
      and no date; no other record changes. */
  function UnassignedIn(s: seq<Asset>, id: int): (r: seq<Asset>)
    ensures |r| == |s|
    ensures forall i :: 0 <= i < |s| ==> SameIdentity(r[i], s[i])
    ensures forall i :: 0 <= i < |s| && s[i].id != id ==> r[i] == s[i]
    ensures forall i :: 0 <= i < |s| && s[i].id == id ==>
      r[i].status == Available && r[i].assignedTo == None && r[i].assignedDate == None
  {
    UpdateWhere(s, id, Unassign())
  }

  /** Changing status: only the status of the records with that id changes;
      their assignee and date survive whatever the new status. */
  function StatusUpdatedIn(s: seq<Asset>, id: int, status: string): (r: seq<Asset>)
    ensures |r| == |s|
    ensures forall i :: 0 <= i < |s| ==> SameIdentity(r[i], s[i])
    ensures forall i :: 0 <= i < |s| ==> r[i].assignedTo == s[i].assignedTo && r[i].assignedDate == s[i].assignedDate
    ensures forall i :: 0 <= i < |s| && s[i].id != id ==> r[i] == s[i]
    ensures forall i :: 0 <= i < |s| && s[i].id == id ==> r[i].status == status
  {
    UpdateWhere(s, id, SetStatus(status))
  }

  /** Moving: the records with that id get the new location and keep every
      other field; no other record changes. */
  function LocationUpdatedIn(s: seq<Asset>, id: int, location: string): (r: seq<Asset>)
    ensures |r| == |s|
    ensures forall i :: 0 <= i < |s| && s[i].id != id ==> r[i] == s[i]
    ensures forall i :: 0 <= i < |s| && s[i].id == id ==> r[i] == s[i].(location := location)
  {
    UpdateWhere(s, id, SetLocation(location))
  }

  /** The in-place transitions keep the numbering. */
  lemma TransitionsKeepNumbering(s: seq<Asset>, id: int, userName: string, today: Day, status: string, location: string)
    requires WellNumbered(s)
    ensures WellNumbered(AssignedIn(s, id, userName, today))
    ensures WellNumbered(UnassignedIn(s, id))
    ensures WellNumbered(StatusUpdatedIn(s, id, status))
    ensures WellNumbered(LocationUpdatedIn(s, id, location))
  {
  }

  /** In a numbered collection, id `id` names record `id - 1` and nothing else. */
  lemma TargetIsUnique(s: seq<Asset>, id: int, i: int)
    requires WellNumbered(s) && 0 <= i < |s|
    ensures s[i].id == id <==> i == id - 1
  {
  }

  /** A request for an id no record has changes nothing. */
  lemma UnknownIdIsNoOp(s: seq<Asset>, id: int, userName: string, today: Day, status: string, location: string)
    requires forall i :: 0 <= i < |s| ==> s[i].id != id
    ensures AssignedIn(s, id, userName, today) == s
    ensures UnassignedIn(s, id) == s
    ensures StatusUpdatedIn(s, id, status) == s
    ensures LocationUpdatedIn(s, id, location) == s
  {
  }

  /** Returning twice is returning once. */
  lemma UnassignIdempotent(s: seq<Asset>, id: int)
    ensures UnassignedIn(UnassignedIn(s, id), id) == UnassignedIn(s, id)
  {
    var once := UnassignedIn(s, id);
    var twice := UnassignedIn(once, id);
    forall i | 0 <= i < |s| ensures twice[i] == once[i] {
      assert once[i].id == s[i].id;
    }
  }

  /** Returning an asset undoes its assignment: the status, assignee and date
      are as if it had only been returned. */
  lemma UnassignUndoesAssign(s: seq<Asset>, id: int, userName: string, today: Day)
    ensures UnassignedIn(AssignedIn(s, id, userName, today), id) == UnassignedIn(s, id)
  {
    var given := AssignedIn(s, id, userName, today);
    var back := UnassignedIn(given, id);
    forall i | 0 <= i < |s| ensures back[i] == UnassignedIn(s, id)[i] {
      assert given[i].id == s[i].id;
    }
  }

  /** Moving an assigned record to another status keeps its assignee, so a
      record can be, say, "Scrap/Damage" and still show an employee. */
  lemma StatusChangeKeepsAssignee(s: seq<Asset>, k: int, status: string)
    requires WellNumbered(s) && 0 <= k < |s|
    requires s[k].status == Assigned && s[k].assignedTo.Some?
    requires status != Assigned
    ensures var r := StatusUpdatedIn(s, s[k].id, status);
      r[k].status == status && r[k].status != Assigned && r[k].assignedTo == s[k].assignedTo
  {
  }

  /** After an assignment the record shows as assigned, the list finds it by
      its tag and by the employee's name, and its row offers Return; after
      the return the row offers Assign again. */
  lemma AssignedRecordIsListed(s: seq<Asset>, id: int, userName: string, today: Day)
    requires WellNumbered(s) && 1 <= id <= |s|
    ensures var r := AssignedIn(s, id, userName, today)[id - 1];
      && r.status == Assigned && r.assignedTo == Some(userName) && r.assignedDate == Some(today)
      && AssetList.MatchesSearch(r, r.assetId)
      && AssetList.MatchesSearch(r, userName)
      && AssetList.ActionFor(r.status) == AssetList.OfferReturn
    ensures AssetList.ActionFor(UnassignedIn(AssignedIn(s, id, userName, today), id)[id - 1].status) == AssetList.OfferAssign
  {
    var r := AssignedIn(s, id, userName, today)[id - 1];
    ContainsTrivial(Lower(r.assetId));
    ContainsTrivial(Lower(userName));
  }

  /** A freshly added record offers Assign. */
  lemma NewAssetOffersAssign(n: nat, d: Draft)
    ensures AssetList.ActionFor(NewAsset(n, d).status) == AssetList.OfferAssign
  {
  }

  // ---------------------------------------------------------------- seed data

  /** The six records a session starts with (dates as days since 1970-01-01).
      They carry no location and no employee id. */
  const SeedAssets: seq<Asset> := [
    Asset(1, "AST-001", "MacBook Pro 16\"", "Laptop", "Apple", Some("MacBook Pro M2"),
          "16GB RAM, 512GB SSD", "MBP16-2023-001", Some("John Doe"), None, "Assigned", "", Some(19737)),
    Asset(2, "AST-002", "ThinkPad X1", "Laptop", "Lenovo", Some("ThinkPad X1 Carbon"),
          "16GB RAM, 1TB SSD", "TPX1-2023-002", None, None, "Available", "", None),
    Asset(3, "AST-003", "iPad Pro", "Tablet", "Apple", Some("iPad Pro 12.9"),
          "256GB, Wi-Fi + Cellular", "IPD-2023-003", Some("Jane Smith"), None, "Assigned", "", Some(19742)),
    Asset(4, "AST-004", "Surface Pro", "Tablet", "Microsoft", Some("Surface Pro 9"),
          "16GB RAM, 512GB SSD", "SPR-2023-004", None, None, "Available", "", None),
    Asset(5, "AST-005", "Dell XPS 13", "Laptop", "Dell", Some("XPS 13 Plus"),
          "32GB RAM, 1TB SSD", "DXP-2023-005", Some("Mike Johnson"), None, "Assigned", "", Some(19754)),
    Asset(6, "AST-006", "Galaxy Tab S9", "Tablet", "Samsung", Some("Galaxy Tab S9 Ultra"),
          "512GB, 5G", "GTS-2023-006", Some("Sarah Wilson"), None, "Scrap", "", Some(19758))]

  lemma SeedIsWellNumbered()
    ensures WellNumbered(SeedAssets)
  {
    var s := SeedAssets;
    assert s[0].id == 1 && s[0].assetId == "AST-00" + [DigitChar(1)];
    assert s[1].id == 2 && s[1].assetId == "AST-00" + [DigitChar(2)];
    assert s[2].id == 3 && s[2].assetId == "AST-00" + [DigitChar(3)];
    assert s[3].id == 4 && s[3].assetId == "AST-00" + [DigitChar(4)];
    assert s[4].id == 5 && s[4].assetId == "AST-00" + [DigitChar(5)];
    assert s[5].id == 6 && s[5].assetId == "AST-00" + [DigitChar(6)];
    SingleDigitTagsNumber(s);
  }

  /** Records numbered 1 to n < 10 whose tags are "AST-00" and their digit are well numbered. */
  lemma SingleDigitTagsNumber(s: seq<Asset>)
    requires |s| < 10
    requires forall i :: 0 <= i < |s| ==> s[i].id == i + 1 && s[i].assetId == "AST-00" + [DigitChar(i + 1)]
    ensures WellNumbered(s)
  {
    forall i | 0 <= i < |s| ensures s[i].assetId == AssetTag(i + 1) {
      SingleDigitTag(i + 1);
    }
  }

  /** The tag of a record numbered 1 to 9 is "AST-00" and its digit. */
  lemma SingleDigitTag(n: nat)
    requires n < 10
    ensures AssetTag(n) == "AST-00" + [DigitChar(n)]
  {
    assert Decimal(n) == [DigitChar(n)];
  }

  /** The dashboard supplies no location handler: choosing "Mumbai Office"
      for the first seed record and pressing Update throws and leaves the
      dialog open on that record and location. */
  lemma SeedLocationUpdateThrows()
    ensures var d := AssetList.LocationDialog(Some(SeedAssets[0]), "Mumbai Office", true);
      var u := AssetList.LocationUpdateClicked(d, false);
      && u.request == Some(AssetList.LocationRequest(1, "Mumbai Office"))
      && u.threw && u.after == d && u.after.open
  {
  }

  /** The seed records carry no location, so typing "#" in the search box
      makes the search as written fail on the second record. */
  lemma SeedSearchFails()
    ensures AssetList.MatchesSearchAsWritten(SeedAssets[1], None, "#") == None
  {
    var a := SeedAssets[1];
    assert a.name == "ThinkPad X1" && a.assetId == "AST-002" && a.brand == "Lenovo";
    assert a.serialNumber == "TPX1-2023-002" && a.status == "Available";
    assert a.assignedTo == None && a.employeeId == None;
    AssetList.SearchFailsWithoutLocation(a, '#');
  }

  // ---------------------------------------------------------------- the store

  /** The dashboard's state: the collection, which each handler replaces with
      a new value built from the old one, and the three filter menus and the
      date range. */
  class AssetStore {
    var assets: seq<Asset>
    var categories: Categories
    var dateRange: DateRange

    ghost predicate Valid()
      reads this
    {
      WellNumbered(assets)
    }

    constructor ()
      ensures Valid() && assets == SeedAssets
      ensures categories == AllCategories && dateRange == NoRange
    {
      assets := SeedAssets;
      categories, dateRange := AllCategories, NoRange;
      SeedIsWellNumbered();
    }

    /** The records the dashboard shows, counts and exports. */
    function View(): (r: seq<Asset>)
      reads this
      ensures IsSubsequence(r, assets)
    {
      FilteredAssets(assets, categories)
    }

    method SetCategories(c: Categories)
      modifies this`categories
      ensures categories == c
    {
      categories := c;
    }

    method SetDateRange(r: DateRange)
      modifies this`dateRange
      ensures dateRange == r
    {
      dateRange := r;
    }

    /** The Clear Filters button: every menu back to "all" and no date range,
      so the view is the whole collection again. */
    method ClearFilters()
      modifies this`categories, this`dateRange
      ensures categories == AllCategories && dateRange == NoRange
      ensures View() == assets
    {
      categories, dateRange := AllCategories, NoRange;
      AllMenusShowEverything(assets);
    }

    method AddAsset(d: Draft)
      requires Valid()
      modifies this`assets
      ensures Valid()
      ensures assets == old(assets) + [NewAsset(|old(assets)|, d)]
    {
      AddKeepsNumbering(assets, d);
      assets := assets + [NewAsset(|assets|, d)];
    }

    method AssignAsset(id: int, userName: string, today: Day)
      requires Valid()
      modifies this`assets
      ensures Valid()
      ensures assets == AssignedIn(old(assets), id, userName, today)
    {
      TransitionsKeepNumbering(assets, id, userName, today, "", "");
      assets := UpdateWhere(assets, id, AssignTo(userName, today));
    }

    method UnassignAsset(id: int)
      requires Valid()
      modifies this`assets
      ensures Valid()
      ensures assets == UnassignedIn(old(assets), id)
    {
      TransitionsKeepNumbering(assets, id, "", 0, "", "");
      assets := UpdateWhere(assets, id, Unassign());
    }

    method UpdateAssetStatus(id: int, status: string)
      requires Valid()
      modifies this`assets
      ensures Valid()
      ensures assets == StatusUpdatedIn(old(assets), id, status)
    {
      TransitionsKeepNumbering(assets, id, "", 0, status, "");
      assets := UpdateWhere(assets, id, SetStatus(status));
    }

    /** The location handler the list expects and the dashboard does not
      supply; see `LocationDialogUpdate`. */
    method UpdateAssetLocation(id: int, location: string)
      requires Valid()
      modifies this`assets
      ensures Valid()
      ensures assets == LocationUpdatedIn(old(assets), id, location)
    {
      TransitionsKeepNumbering(assets, id, "", 0, "", location);
      assets := UpdateWhere(assets, id, SetLocation(location));
    }

    /** Routes a request from the asset list to its handler. The employee id
      of an assignment is dropped; a location request goes to the location
      handler the list expects (the dashboard as written supplies none, so
      that request never arrives: see `LocationDialogUpdate`). */
    method Dispatch(request: AssetList.Intent, today: Day)
      requires Valid()
      modifies this`assets
      ensures Valid()
      ensures assets == match request
        case AssignRequest(id, userName, _) => AssignedIn(old(assets), id, userName, today)
        case UnassignRequest(id) => UnassignedIn(old(assets), id)
        case StatusRequest(id, status) => StatusUpdatedIn(old(assets), id, status)
        case LocationRequest(id, location) => LocationUpdatedIn(old(assets), id, location)
    {
      match request
      case AssignRequest(id, userName, _) =>
        AssignAsset(id, userName, today);
      case UnassignRequest(id) =>
        UnassignAsset(id);
      case StatusRequest(id, status) =>
        UpdateAssetStatus(id, status);
      case LocationRequest(id, location) =>
        UpdateAssetLocation(id, location);
    }

    /** The location dialog's Update button on the list the dashboard
      renders, with a location handler wired: the chosen facility is stored
      on the selected record and the dialog closes. As written the dashboard
      wires none, and the same click throws and changes nothing
      (`AssetList.UnwiredLocationDialogStaysOpen`). */
    method LocationDialogUpdate(view: AssetList.AssetListView)
      requires Valid()
      modifies this`assets, view`showLocationDialog, view`newLocation, view`selectedAsset
      ensures Valid()
      ensures var u := AssetList.LocationUpdateClicked(old(view.Location()), true);
        && !u.threw && view.Location() == u.after
        && assets == if u.request.Some? then LocationUpdatedIn(old(assets), u.request.value.assetId, u.request.value.location)
                     else old(assets)
    {
      var request, threw := view.HandleUpdateLocation(true);
      if request.Some? {
        Dispatch(request.value, 0);
      }
    }
  }

  // ---------------------------------------------------------------- filter menus

  function Types(s: seq<Asset>): seq<string> {
    seq(|s|, i requires 0 <= i < |s| => s[i].assetType)
  }

  function Brands(s: seq<Asset>): seq<string> {
    seq(|s|, i requires 0 <= i < |s| => s[i].brand)
  }

  function Configurations(s: seq<Asset>): seq<string> {
    seq(|s|, i requires 0 <= i < |s| => s[i].configuration)
  }

  /** The type menu's choices: each type present, once. */
  function TypeOptions(s: seq<Asset>): (r: seq<string>)
    ensures NoDuplicates(r)
    ensures forall v :: v in r <==> exists i :: 0 <= i < |s| && s[i].assetType == v
  {
    var r := Distinct(Types(s));
    assert forall i :: 0 <= i < |s| ==> Types(s)[i] == s[i].assetType;
    r
  }

  /** The brand menu's choices: each brand present, once. */
  function BrandOptions(s: seq<Asset>): (r: seq<string>)
    ensures NoDuplicates(r)
    ensures forall v :: v in r <==> exists i :: 0 <= i < |s| && s[i].brand == v
  {
    var r := Distinct(Brands(s));
    assert forall i :: 0 <= i < |s| ==> Brands(s)[i] == s[i].brand;
    r
  }

  /** The configuration menu's choices: each configuration present, once. */
  function ConfigurationOptions(s: seq<Asset>): (r: seq<string>)
    ensures NoDuplicates(r)
    ensures forall v :: v in r <==> exists i :: 0 <= i < |s| && s[i].configuration == v
  {
    var r := Distinct(Configurations(s));
    assert forall i :: 0 <= i < |s| ==> Configurations(s)[i] == s[i].configuration;
    r
  }

  // ---------------------------------------------------------------- filtered view

  /** The dashboard's view: the records every non-"all" menu accepts, in order. */
  function FilteredAssets(s: seq<Asset>, c: Categories): (r: seq<Asset>)
    ensures IsSubsequence(r, s)
    ensures forall i :: 0 <= i < |r| ==> r[i] in s && MatchesCategories(r[i], c)
    ensures forall i :: 0 <= i < |s| && MatchesCategories(s[i], c) ==> s[i] in r
    ensures forall a :: multiset(r)[a] == if MatchesCategories(a, c) then multiset(s)[a] else 0
  {
    FilterIsSubsequence(s, AssetList.CategoryTest(c));
    FilterMultiset(s, AssetList.CategoryTest(c));
    Filter(s, AssetList.CategoryTest(c))
  }

  /** With every menu on "all" the view is the whole collection. */
  lemma AllMenusShowEverything(s: seq<Asset>)
    ensures FilteredAssets(s, AllCategories) == s
  {
    FilterKeepsAll(s, AssetList.CategoryTest(AllCategories));
  }

  /** The list receives the dashboard's view and its date range, and applies
      its own search with its menus left on "all": the rows it shows are the
      ones a single query with the dashboard's menus selects. */
  lemma DashboardThenListIsOneQuery(s: seq<Asset>, c: Categories, term: string, range: DateRange)
    ensures AssetList.FilteredAssets(FilteredAssets(s, c), AssetList.Query(term, range, AllCategories))
         == AssetList.FilteredAssets(s, AssetList.Query(term, range, c))
  {
    var inner := AssetList.QueryTest(AssetList.Query(term, range, AllCategories));
    var whole := AssetList.QueryTest(AssetList.Query(term, range, c));
    FilterFilter(s, AssetList.CategoryTest(c), inner, whole);
  }

  // ---------------------------------------------------------------- summary cards

  predicate IsScrapOrDamage(status: string) {
    status == "Scrap" || status == "Damage"
  }

  /** Counted as allocated in the range: both ends set, a date, and the date
      inclusively between them. */
  predicate InRange(a: Asset, r: DateRange) {
    && r.from.Some? && r.to.Some? && a.assignedDate.Some?
    && r.from.value <= a.assignedDate.value && a.assignedDate.value <= r.to.value
  }

  function StatusTest(status: string): Asset -> bool {
    (a: Asset) => a.status == status
  }

  function ScrapTest(): Asset -> bool {
    (a: Asset) => IsScrapOrDamage(a.status)
  }

  function InRangeTest(r: DateRange): Asset -> bool {
    a => InRange(a, r)
  }

  function UndatedTest(): Asset -> bool {
    (a: Asset) => a.assignedDate.None?
  }

  datatype Summary = Summary(
    totalInventory: nat,
    allocatedAssets: nat,
    currentStock: nat,
    scrapDamageAssets: nat,
    allocatedInRange: nat)

  /** The four summary cards and the in-range allocation count, over the
      dashboard's filtered view. */
  function Summarize(filtered: seq<Asset>, range: DateRange): (r: Summary)
    ensures r.totalInventory == |filtered|
    ensures r.allocatedAssets + r.currentStock + r.scrapDamageAssets <= r.totalInventory
    ensures r.allocatedInRange <= r.totalInventory
    ensures range.from.None? || range.to.None? ==> r.allocatedInRange == 0
    ensures r.allocatedAssets > 0 <==> exists i :: 0 <= i < |filtered| && filtered[i].status == Assigned
    ensures r.currentStock > 0 <==> exists i :: 0 <= i < |filtered| && filtered[i].status == Available
    ensures r.scrapDamageAssets > 0 <==> exists i :: 0 <= i < |filtered| && IsScrapOrDamage(filtered[i].status)
    ensures r.allocatedInRange > 0 <==> exists i :: 0 <= i < |filtered| && InRange(filtered[i], range)
    ensures r.allocatedAssets == |set i | 0 <= i < |filtered| && filtered[i].status == Assigned|
    ensures r.currentStock == |set i | 0 <= i < |filtered| && filtered[i].status == Available|
    ensures r.scrapDamageAssets == |set i | 0 <= i < |filtered| && IsScrapOrDamage(filtered[i].status)|
    ensures r.allocatedInRange == |set i | 0 <= i < |filtered| && InRange(filtered[i], range)|
  {
    StatusPositions(filtered, Assigned);
    StatusPositions(filtered, Available);
    ScrapPositions(filtered);
    InRangePositions(filtered, range);
    CountExclusive3(filtered, StatusTest(Assigned), StatusTest(Available), ScrapTest());
    CountPositiveIff(filtered, StatusTest(Assigned));
    CountPositiveIff(filtered, StatusTest(Available));
    CountPositiveIff(filtered, ScrapTest());
    CountPositiveIff(filtered, InRangeTest(range));
    Summary(
      |filtered|,
      Count(filtered, StatusTest(Assigned)),
      Count(filtered, StatusTest(Available)),
      Count(filtered, ScrapTest()),
      Count(filtered, InRangeTest(range)))
  }

  lemma StatusPositions(s: seq<Asset>, status: string)
    ensures Count(s, StatusTest(status)) == |set i | 0 <= i < |s| && s[i].status == status|
  {
    CountIsPositions(s, StatusTest(status));
    assert Positions(s, StatusTest(status)) == (set i | 0 <= i < |s| && s[i].status == status);
  }

  lemma ScrapPositions(s: seq<Asset>)
    ensures Count(s, ScrapTest()) == |set i | 0 <= i < |s| && IsScrapOrDamage(s[i].status)|
  {
    CountIsPositions(s, ScrapTest());
    assert Positions(s, ScrapTest()) == (set i | 0 <= i < |s| && IsScrapOrDamage(s[i].status));
  }

  lemma InRangePositions(s: seq<Asset>, range: DateRange)
    ensures Count(s, InRangeTest(range)) == |set i | 0 <= i < |s| && InRange(s[i], range)|
  {
    CountIsPositions(s, InRangeTest(range));
    assert Positions(s, InRangeTest(range)) == (set i | 0 <= i < |s| && InRange(s[i], range));
  }

  /** The cards a session opens with: six records, three allocated, two in
      stock and one scrapped; no range is set, so none is allocated in it. */
  lemma SeedSummary()
    ensures Summarize(SeedAssets, NoRange) == Summary(6, 3, 2, 1, 0)
  {
    var s := SeedAssets;
    assert s[0].status == s[2].status == s[4].status == Assigned;
    assert s[1].status == s[3].status == Available;
    assert s[5].status == "Scrap";
    CountedStatuses(s);
  }

  /** Counts for six records whose statuses run Assigned, Available,
      Assigned, Available, Assigned, Scrap. */
  lemma CountedStatuses(s: seq<Asset>)
    requires |s| == 6
    requires s[0].status == s[2].status == s[4].status == Assigned
    requires s[1].status == s[3].status == Available && s[5].status == "Scrap"
    ensures Summarize(s, NoRange) == Summary(6, 3, 2, 1, 0)
  {
    CountSix(s, StatusTest(Assigned));
    CountSix(s, StatusTest(Available));
    CountSix(s, ScrapTest());
  }

  /** The count over six records, one record at a time. */
  lemma CountSix(s: seq<Asset>, p: Asset -> bool)
    requires |s| == 6
    ensures Count(s, p) == Indicator(p(s[0])) + Indicator(p(s[1])) + Indicator(p(s[2]))
                         + Indicator(p(s[3])) + Indicator(p(s[4])) + Indicator(p(s[5]))
  {
    assert s[0..] == s;
    assert s[6..] == [];
    CountThree(s, 0, p);
    CountThree(s, 3, p);
  }

  lemma CountThree(s: seq<Asset>, k: nat, p: Asset -> bool)
    requires k + 3 <= |s|
    ensures Count(s[k..], p) == Indicator(p(s[k])) + Indicator(p(s[k + 1])) + Indicator(p(s[k + 2]))
                              + Count(s[k + 3..], p)
  {
    CountStep(s, k, p);
    CountStep(s, k + 1, p);
    CountStep(s, k + 2, p);
  }

  /** A record whose status is "Scrap/Damage" (the value the status dialog
      offers) adds to the total but to none of the three status cards. */
  lemma CombinedScrapStatusUncounted(filtered: seq<Asset>, range: DateRange, a: Asset)
    requires a.status == "Scrap/Damage"
    ensures var before, after := Summarize(filtered, range), Summarize(filtered + [a], range);
      && after.totalInventory == before.totalInventory + 1
      && after.allocatedAssets == before.allocatedAssets
      && after.currentStock == before.currentStock
      && after.scrapDamageAssets == before.scrapDamageAssets
  {
    FilterConcat(filtered, [a], StatusTest(Assigned));
    FilterConcat(filtered, [a], StatusTest(Available));
    FilterConcat(filtered, [a], ScrapTest());
  }

  /** With both ends set, the in-range count and the undated records together
      are exactly what the list's date test lets through. */
  lemma InRangeMatchesListDateTest(filtered: seq<Asset>, range: DateRange)
    requires range.from.Some? && range.to.Some?
    ensures Summarize(filtered, range).allocatedInRange + Count(filtered, UndatedTest())
         == |AssetList.FilteredAssets(filtered, AssetList.Query("", range, AllCategories))|
  {
    var q := AssetList.Query("", range, AllCategories);
    forall i | 0 <= i < |filtered| ensures AssetList.QueryTest(q)(filtered[i]) == AssetList.DateTest(range)(filtered[i]) {
      AssetList.EmptySearchMatchesAll(filtered[i]);
    }
    FilterAgree(filtered, AssetList.QueryTest(q), AssetList.DateTest(range));
    CountExclusiveUnion(filtered, InRangeTest(range), UndatedTest(), AssetList.DateTest(range));
  }

  // ---------------------------------------------------------------- CSV export

  const CsvHeader: seq<string> := [
    "Asset ID", "Asset Name", "Asset Type", "Brand", "Model", "Configuration",
    "Serial Number", "Employee Name", "Status", "Assigned Date"]

  /** A missing value is written as the empty string. */
  function OrEmpty(o: Option<string>): string {
    if o.Some? then o.value else ""
  }

  /** The cell of record `a` under the column named `column`: a missing
      model, assignee or assignment date is written as the empty string, and
      `isoDate` writes a day as "YYYY-MM-DD". */
  function CellUnder(a: Asset, column: string, isoDate: Day -> string): string {
    if column == "Asset ID" then a.assetId
    else if column == "Asset Name" then a.name
    else if column == "Asset Type" then a.assetType
    else if column == "Brand" then a.brand
    else if column == "Model" then OrEmpty(a.model)
    else if column == "Configuration" then a.configuration
    else if column == "Serial Number" then a.serialNumber
    else if column == "Employee Name" then OrEmpty(a.assignedTo)
    else if column == "Status" then a.status
    else if column == "Assigned Date" then (if a.assignedDate.Some? then isoDate(a.assignedDate.value) else "")
    else ""
  }

  /** One record's cells, in header order: each column holds the field its
      name announces. */
  function CsvFields(a: Asset, isoDate: Day -> string): (r: seq<string>)
    ensures |r| == |CsvHeader|
    ensures forall k :: 0 <= k < |r| ==> r[k] == CellUnder(a, CsvHeader[k], isoDate)
  {
    [a.assetId, a.name, a.assetType, a.brand, OrEmpty(a.model), a.configuration,
     a.serialNumber, OrEmpty(a.assignedTo), a.status,
     if a.assignedDate.Some? then isoDate(a.assignedDate.value) else ""]
  }

  function CsvRow(a: Asset, isoDate: Day -> string): string {
    Join(CsvFields(a, isoDate), ',')
  }

  /** One line per record, in the order of `filtered`. */
  function CsvRows(filtered: seq<Asset>, isoDate: Day -> string): (r: seq<string>)
    ensures |r| == |filtered|
    ensures forall i :: 0 <= i < |filtered| ==> r[i] == CsvRow(filtered[i], isoDate)
  {
    if |filtered| == 0 then [] else [CsvRow(filtered[0], isoDate)] + CsvRows(filtered[1..], isoDate)
  }

  function CsvLines(filtered: seq<Asset>, isoDate: Day -> string): seq<string> {
    [Join(CsvHeader, ',')] + CsvRows(filtered, isoDate)
  }

  /** The exported text: the header line, then one line per filtered record.
      Cells are neither quoted nor escaped. */
  function CsvContent(filtered: seq<Asset>, isoDate: Day -> string): (r: string)
    ensures Join(CsvHeader, ',') <= r
    ensures |filtered| == 0 ==> r == Join(CsvHeader, ',')
    ensures |filtered| > 0 ==> |Join(CsvHeader, ',')| < |r| && r[|Join(CsvHeader, ',')|] == '\n'
  {
    JoinStartsWithFirst(CsvLines(filtered, isoDate), '\n');
    Join(CsvLines(filtered, isoDate), '\n')
  }

  /** No cell of the record holds a comma or a line break. */
  predicate CsvSafe(a: Asset, isoDate: Day -> string) {
    forall k :: 0 <= k < |CsvFields(a, isoDate)| ==> ',' !in CsvFields(a, isoDate)[k] && '\n' !in CsvFields(a, isoDate)[k]
  }

  /** No cell of the record holds a line break, so the record's line stays
      one line; commas are allowed. */
  predicate CsvLineSafe(a: Asset, isoDate: Day -> string) {
    forall k :: 0 <= k < |CsvFields(a, isoDate)| ==> '\n' !in CsvFields(a, isoDate)[k]
  }

  /** The header line holds no line break and splits back into the column names. */
  lemma CsvHeaderReadsBack()
    ensures '\n' !in Join(CsvHeader, ',')
    ensures Split(Join(CsvHeader, ','), ',') == CsvHeader
  {
    assert forall k :: 0 <= k < |CsvHeader| ==> ',' !in CsvHeader[k] && '\n' !in CsvHeader[k];
    JoinAvoids(CsvHeader, ',', '\n');
    SplitJoin(CsvHeader, ',');
  }

  /** A safe record's line holds no line break and splits back into its cells. */
  lemma CsvRowReadsBack(a: Asset, isoDate: Day -> string)
    requires CsvSafe(a, isoDate)
    ensures '\n' !in CsvRow(a, isoDate)
    ensures Split(CsvRow(a, isoDate), ',') == CsvFields(a, isoDate)
  {
    JoinAvoids(CsvFields(a, isoDate), ',', '\n');
    SplitJoin(CsvFields(a, isoDate), ',');
  }

  /** Cells are not quoted, so a record with a comma in a cell does not read
      back as its cells. */
  lemma CsvCommaCorruptsRow(a: Asset, isoDate: Day -> string, k: nat)
    requires k < |CsvFields(a, isoDate)| && ',' in CsvFields(a, isoDate)[k]
    ensures Split(CsvRow(a, isoDate), ',') != CsvFields(a, isoDate)
  {
  }

  /** The export splits at line breaks into its header line and one line per
      record, whatever commas the cells hold. */
  lemma CsvLinesReadBack(filtered: seq<Asset>, isoDate: Day -> string)
    requires forall i :: 0 <= i < |filtered| ==> CsvLineSafe(filtered[i], isoDate)
    ensures Split(CsvContent(filtered, isoDate), '\n') == CsvLines(filtered, isoDate)
  {
    var rows := CsvRows(filtered, isoDate);
    forall i | 0 <= i < |rows|
      ensures '\n' !in rows[i]
    {
      JoinAvoids(CsvFields(filtered[i], isoDate), ',', '\n');
    }
    CsvHeaderReadsBack();
    SplitLines(Join(CsvHeader, ','), rows);
  }

  /** Lines without line breaks are recovered by splitting their join. */
  lemma SplitLines(first: string, rest: seq<string>)
    requires '\n' !in first
    requires forall k :: 0 <= k < |rest| ==> '\n' !in rest[k]
    ensures Split(Join([first] + rest, '\n'), '\n') == [first] + rest
  {
    SplitJoin([first] + rest, '\n');
  }

  /** When no cell holds a comma or a line break, the export reads back as
      the header and, line by line, each filtered record's cells. */
  lemma CsvReadsBack(filtered: seq<Asset>, isoDate: Day -> string)
    requires forall i :: 0 <= i < |filtered| ==> CsvSafe(filtered[i], isoDate)
    ensures var lines := Split(CsvContent(filtered, isoDate), '\n');
      && |lines| == |filtered| + 1
      && Split(lines[0], ',') == CsvHeader
      && forall i :: 0 <= i < |filtered| ==> Split(lines[i + 1], ',') == CsvFields(filtered[i], isoDate)
  {
    CsvLinesReadBack(filtered, isoDate);
    CsvHeaderReadsBack();
    forall i | 0 <= i < |filtered|
      ensures Split(CsvLines(filtered, isoDate)[i + 1], ',') == CsvFields(filtered[i], isoDate)
    {
      CsvRowReadsBack(filtered[i], isoDate);
    }
  }
}
