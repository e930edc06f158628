/// The records the application keeps (types.ts). Amounts, weights, rates and
/// head counts are exact reals; dates are the "YYYY-MM-DD" strings the forms
/// produce; timestamps are the integer milliseconds of `Date.now()`.
module Types {
  import opened Options

  datatype MainTab = Production | PrestationProd | PrestationEtuvage | Stock | Insights | Management

  /** Every tab, in the order the type declares them. */
  const AllTabs: seq<MainTab> := [Production, PrestationProd, PrestationEtuvage, Stock, Insights, Management]

  datatype Role = Admin | Operator

  datatype User = User(
    id: string,
    name: string,
    username: string,
    password: Option<string>,
    role: Role,
    createdAt: int,
    allowedTabs: seq<MainTab>)

  /**
    * A production record. `totalProduction` (units produced) is not declared
    * in types.ts, but the dashboard, the history and the record form read
    * and write it.
    */
  datatype ProductionRecord = ProductionRecord(
    id: string,
    date: string,
    lotNumber: string,
    clientName: string,
    productName: string,
    employeeCount: real,
    totalWeightKg: real,
    wasteKg: real,
    infestationRate: real,
    timestamp: int,
    packaging: Option<string>,
    totalProduction: real)

  datatype MasterData = MasterData(
    products: seq<string>,
    clients: seq<string>,
    packagings: seq<string>,
    suppliers: seq<string>,
    purchaseCategories: seq<string>,
    serviceTypes: seq<string>)

  datatype PurchaseRecord = PurchaseRecord(
    id: string,
    date: string,
    lotNumber: string,
    supplierName: string,
    itemName: string,
    variety: Option<string>,
    category: string,
    quantity: real,
    unit: string,
    unitPrice: real,
    totalAmount: real,
    infestationRate: real,
    timestamp: int,
    userId: Option<string>,
    userName: Option<string>)

  datatype StockOutRecord = StockOutRecord(
    id: string,
    date: string,
    lotNumber: string,
    itemName: string,
    quantity: real,
    reason: string,
    timestamp: int,
    userId: Option<string>,
    userName: Option<string>)

  datatype StockStatus = StockStatus(itemName: string, totalIn: real, totalOut: real, currentStock: real)

  datatype PrestationProdRecord = PrestationProdRecord(
    id: string,
    date: string,
    lotNumber: string,
    clientName: string,
    serviceType: string,
    weightIn: real,
    weightOut: real,
    wasteKg: real,
    unitPrice: real,
    totalAmount: real,
    employeeCount: real,
    timestamp: int,
    userId: Option<string>,
    userName: Option<string>)

  datatype PrestationEtuvageRecord = PrestationEtuvageRecord(
    id: string,
    date: string,
    lotNumber: string,
    clientName: string,
    weightIn: real,
    weightOut: real,
    humidityLevel: real,
    durationHours: real,
    unitPrice: real,
    totalAmount: real,
    employeeCount: real,
    timestamp: int,
    userId: Option<string>,
    userName: Option<string>)

  /** `list[0] || ''`: the first entry of a master-data list, or "" when it is empty. */
  function FirstOr(list: seq<string>): (r: string)
    ensures |list| > 0 ==> r == list[0]
    ensures |list| == 0 ==> r == ""
  {
    if |list| > 0 then list[0] else ""
  }

  /**
    * `list[0] || fallback`: the first entry of a master-data list, or the
    * fallback when the list is empty or its first entry is the empty string.
    */
  function FirstOrElse(list: seq<string>, fallback: string): (r: string)
    ensures |list| > 0 && list[0] != "" ==> r == list[0]
    ensures (|list| == 0 || list[0] == "") ==> r == fallback
  {
    if |list| > 0 && list[0] != "" then list[0] else fallback
  }

  /**
    * The fields of the purchase entry forms (the stock-in form and the
    * purchase form): a purchase record without id, timestamp and author.
    */
  datatype PurchaseDraft = PurchaseDraft(
    date: string,
    lotNumber: string,
    supplierName: string,
    itemName: string,
    variety: string,
    category: string,
    quantity: real,
    unit: string,
    unitPrice: real,
    totalAmount: real,
    infestationRate: real)

  /**
    * A purchase entry form as it opens for a new entry on day `today`: the
    * first supplier, product and category of the master data, no lot, no
    * variety, unit "Kg" and every amount 0.
    */
  function NewPurchaseDraft(master: MasterData, today: string): PurchaseDraft {
    PurchaseDraft(today, "", FirstOr(master.suppliers), FirstOr(master.products), "",
                  FirstOr(master.purchaseCategories), 0.0, "Kg", 0.0, 0.0, 0.0)
  }

  /**
    * A calendar month as `getFullYear()` and `getMonth()` report it: the
    * month counts from 0 (January) to 11. The "YYYY-MM" keys the
    * application builds from it are equal exactly when the months are; for
    * four-digit years their string order is the (year, month) order of
    * `MonthNotAfter`, which is what the model compares.
    */
  datatype YearMonth = YearMonth(year: int, month: int)

  predicate ValidMonth(m: YearMonth) {
    0 <= m.month < 12
  }

  /**
    * `new Date(y, m - back, 1)`: the month `back` months before `now`; the
    * date constructor carries a month outside 0..11 into the year.
    */
  function MonthsBack(now: YearMonth, back: int): (r: YearMonth)
    ensures ValidMonth(r)
    ensures r.year * 12 + r.month == now.year * 12 + now.month - back
  {
    var t := now.year * 12 + now.month - back;
    YearMonth(t / 12, t % 12)
  }

  /** `a` is the same month as `b` or an earlier one. */
  predicate MonthNotAfter(a: YearMonth, b: YearMonth) {
    a.year < b.year || (a.year == b.year && a.month <= b.month)
  }
}
