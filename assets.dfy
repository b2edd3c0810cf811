/** The asset record both components pass around, and the categorical filter
    they share. */
module Assets {

  datatype Option<T> = None | Some(value: T)

  /** A calendar day, as an ordered day number; later days are larger. */
  type Day = int

  /** The date-range picker's value; an unset range has neither end. */
  datatype DateRange = DateRange(from: Option<Day>, to: Option<Day>)

  const NoRange := DateRange(None, None)

  /** One inventory record (the `Asset` interface of the asset list, plus the
      optional `model` the dashboard's records carry). `null` fields are `None`. */
  datatype Asset = Asset(
    id: int,
    assetId: string,
    name: string,
    assetType: string,
    brand: string,
    model: Option<string>,
    configuration: string,
    serialNumber: string,
    assignedTo: Option<string>,
    employeeId: Option<string>,
    status: string,
    location: string,
    assignedDate: Option<Day>)

  const Available := "Available"
  const Assigned := "Assigned"

  /** The value a filter menu holds when it accepts everything. */
  const All := "all"

  /** A filter menu's test: "all", or exact, case-sensitive equality. */
  predicate Accepts(filter: string, value: string) {
    filter == All || value == filter
  }

  /** The type, brand and configuration filter menus. */
  datatype Categories = Categories(assetType: string, brand: string, configuration: string)

  const AllCategories := Categories(All, All, All)

  predicate MatchesCategories(a: Asset, c: Categories) {
    && Accepts(c.assetType, a.assetType)
    && Accepts(c.brand, a.brand)
    && Accepts(c.configuration, a.configuration)
  }
}
