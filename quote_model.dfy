/** The records the trip-quote calculator edits, prices and saves. */
module QuoteModel {
  import opened Wrappers

  /** One day of the itinerary: its date (empty until chosen) and its stops, in order. */
  datatype Day = Day(date: string, destinations: seq<string>)

  /** The day added by "Agregar Día" and the itinerary's initial day: no date, two blank stops. */
  const BlankDay: Day := Day("", ["", ""])

  /** Trip length. `None` is a field missing from a reloaded quote. */
  datatype DaysNights = DaysNights(days: Option<int>, nights: Option<int>)

  /** Manual overrides: the one-way distance to use instead of the estimate, and extra km. */
  datatype ManualAdjustments = ManualAdjustments(adjustedDistance: Option<real>, extraMovements: Option<real>)

  /** The cost form. Prices and rates are the text typed in each field (a field missing
      from a reloaded quote reads as the text "undefined"); the switches are check boxes. */
  datatype Costs = Costs(
    fuelPricePerLiter: string,
    fuelEfficiency: string,
    tollsOneWay: string,
    driverPercentage: string,
    accommodationPerDay: string,
    pensionPerDay: string,
    vehicle2PerDay: string,
    vehicle8PerDay: string,
    vehicle14PerDay: string,
    vehicle20PerDay: string,
    busPrice: string,
    derechoPiso: string,
    returnVehicle: bool,
    includeBus: bool,
    includeDerechoPiso: bool)

  /** The values the form starts with. */
  const DefaultCosts: Costs := Costs("27", "7", "1110", "20", "450", "0",
                                     "800", "1800", "3000", "5700", "0", "538",
                                     false, false, false)

  /** The four vehicle classes the calculator prices, one per passenger capacity. */
  datatype VehicleClass = Unit2 | Unit8 | Unit14 | Unit20 {

    function Name(): string {
      match this
      case Unit2 => "UNIDAD DE 2"
      case Unit8 => "UNIDAD DE 8"
      case Unit14 => "UNIDAD DE 14"
      case Unit20 => "UNIDAD DE 20"
    }

    function Capacity(): nat {
      match this
      case Unit2 => 2
      case Unit8 => 8
      case Unit14 => 14
      case Unit20 => 20
    }

    /** The daily-rate field of the cost form that belongs to this class. */
    function RateText(c: Costs): string {
      match this
      case Unit2 => c.vehicle2PerDay
      case Unit8 => c.vehicle8PerDay
      case Unit14 => c.vehicle14PerDay
      case Unit20 => c.vehicle20PerDay
    }
  }

  /** The classes in the order they are priced and shown. */
  const VehicleClasses: seq<VehicleClass> := [Unit2, Unit8, Unit14, Unit20]

  /** One priced vehicle: each cost component and their total. */
  datatype CostBreakdown = CostBreakdown(
    fuel: real,
    tolls: real,
    accommodation: real,
    pension: real,
    vehicleRental: real,
    driver: real,
    bus: real,
    derechoPiso: real,
    total: real)

  datatype Quotation = Quotation(vehicleType: string, capacity: nat, costs: CostBreakdown)

  /** The calculator's result: trip days, billable km, round-trip km, extra km, and one
      quotation per vehicle class. */
  datatype QuoteResult = QuoteResult(
    days: int,
    totalKm: real,
    baseKm: real,
    extraKm: real,
    quotations: seq<Quotation>)

  /** What the calculator hands to the quotes page when "Guardar Cotización" is pressed.
      `totalKm` is the distance estimate (`distances.totalKm`). */
  datatype QuoteData = QuoteData(
    id: Option<nat>,
    clientName: string,
    clientId: Option<string>,
    days: seq<Day>,
    totalKm: real,
    manualAdjustments: ManualAdjustments,
    daysNights: DaysNights,
    costs: Costs,
    results: Option<QuoteResult>,
    whatsappClient: Option<string>,
    whatsappInternal: Option<string>,
    agreedAmount: Option<string>)
}
