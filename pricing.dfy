/** The quote arithmetic of `calculateQuote`: billable distance, the trip-wide cost
    components, and one priced quotation per vehicle class. Numbers read from the
    cost form are `Option<real>`, where `None` is JavaScript's `NaN`; arithmetic on
    `NaN` gives `NaN`, and `x || 0` turns it into 0. */
module Pricing {
  import opened Wrappers
  import opened QuoteModel

  /** `parseFloat` applied to the text of a form field. */
  type ParseFloat = string -> Option<real>

  function Add(a: Option<real>, b: Option<real>): Option<real> {
    if a.Some? && b.Some? then Some(a.value + b.value) else None
  }

  function Mul(a: Option<real>, b: Option<real>): Option<real> {
    if a.Some? && b.Some? then Some(a.value * b.value) else None
  }

  function Div(a: Option<real>, b: Option<real>): Option<real>
    requires b != Some(0.0)
  {
    if a.Some? && b.Some? then Some(a.value / b.value) else None
  }

  /** `x || 0`. */
  function OrZero(a: Option<real>): real {
    a.GetOr(0.0)
  }

  /** A count that JavaScript treats as missing: `undefined`, `NaN` or 0. */
  predicate Unset(n: Option<int>) {
    n.None? || n.value == 0
  }

  /** `parseInt(daysNights.days) || days.length || 1`. */
  function TotalDays(dn: DaysNights, itineraryLength: nat): (d: int)
    ensures d != 0
    ensures (dn.days.None? || dn.days.value >= 0) ==> d >= 1
  {
    if !Unset(dn.days) then dn.days.value
    else if itineraryLength > 0 then itineraryLength
    else 1
  }

  /** `parseInt(daysNights.nights) || (totalDays > 0 ? totalDays - 1 : 0)`. */
  function TotalNights(dn: DaysNights, totalDays: int): (n: int)
    ensures (dn.nights.None? || dn.nights.value >= 0) ==> n >= 0
  {
    if !Unset(dn.nights) then dn.nights.value
    else if totalDays > 0 then totalDays - 1
    else 0
  }

  /** One-way km: the manual override when it is positive, else the estimate. */
  function BaseKm(adj: ManualAdjustments, estimatedKm: real): real {
    if adj.adjustedDistance.Some? && adj.adjustedDistance.value > 0.0
    then adj.adjustedDistance.value
    else estimatedKm
  }

  /** `parseFloat(extraMovements) || 0`. */
  function ExtraKm(adj: ManualAdjustments): real {
    OrZero(adj.extraMovements)
  }

  /** Billable km: there and back, or there and back twice when the vehicle returns empty. */
  function TripKm(baseKm: real, extraKm: real, returnVehicle: bool): real {
    if returnVehicle then baseKm * 4.0 + extraKm else baseKm * 2.0 + extraKm
  }

  /** The components that do not depend on the vehicle, before `|| 0`. */
  datatype TripCosts = TripCosts(
    fuel: Option<real>,
    tolls: Option<real>,
    accommodation: Option<real>,
    pension: Option<real>,
    bus: Option<real>,
    derechoPiso: Option<real>)

  function ComputeTripCosts(km: real, days: int, nights: int, c: Costs, parse: ParseFloat): TripCosts
    requires parse(c.fuelEfficiency) != Some(0.0)
  {
    TripCosts(
      Mul(Div(Some(km), parse(c.fuelEfficiency)), parse(c.fuelPricePerLiter)),
      Mul(parse(c.tollsOneWay), Some(2.0)),
      Mul(parse(c.accommodationPerDay), Some(nights as real)),
      Mul(parse(c.pensionPerDay), Some(days as real)),
      if c.includeBus then Mul(parse(c.busPrice), Some(2.0)) else Some(0.0),
      if c.includeDerechoPiso then parse(c.derechoPiso) else Some(0.0))
  }

  /** Rental and driver for one class, before `|| 0`. */
  function Rental(v: VehicleClass, days: int, c: Costs, parse: ParseFloat): Option<real> {
    Mul(parse(v.RateText(c)), Some(days as real))
  }

  function Driver(v: VehicleClass, days: int, c: Costs, parse: ParseFloat): Option<real> {
    Mul(Rental(v, days, c, parse), Div(parse(c.driverPercentage), Some(100.0)))
  }

  /** The eight components summed in the source's order, before `|| 0`. */
  function RawTotal(t: TripCosts, rental: Option<real>, driver: Option<real>): Option<real> {
    Add(Add(Add(Add(Add(Add(Add(t.fuel, t.tolls), t.accommodation), t.pension), rental), driver), t.bus), t.derechoPiso)
  }

  function PriceVehicle(v: VehicleClass, t: TripCosts, days: int, c: Costs, parse: ParseFloat): Quotation {
    var rental := Rental(v, days, c, parse);
    var driver := Driver(v, days, c, parse);
    Quotation(v.Name(), v.Capacity(),
      CostBreakdown(OrZero(t.fuel), OrZero(t.tolls), OrZero(t.accommodation), OrZero(t.pension),
                    OrZero(rental), OrZero(driver), OrZero(t.bus), OrZero(t.derechoPiso),
                    OrZero(RawTotal(t, rental, driver))))
  }

  /** The result `calculateQuote` stores, from a snapshot of the calculator's state:
      the number of itinerary days, the days/nights fields, the distance estimate, the
      manual adjustments and the cost form. */
  function CalculateQuote(itineraryLength: nat, dn: DaysNights, estimatedKm: real,
                          adj: ManualAdjustments, c: Costs, parse: ParseFloat): (r: QuoteResult)
    requires parse(c.fuelEfficiency) != Some(0.0)
    ensures |r.quotations| == |VehicleClasses|
    ensures forall i :: 0 <= i < |r.quotations| ==>
              r.quotations[i].vehicleType == VehicleClasses[i].Name()
              && r.quotations[i].capacity == VehicleClasses[i].Capacity()
  {
    var days := TotalDays(dn, itineraryLength);
    var nights := TotalNights(dn, days);
    var base := BaseKm(adj, estimatedKm);
    var extra := ExtraKm(adj);
    var km := TripKm(base, extra, c.returnVehicle);
    var t := ComputeTripCosts(km, days, nights, c, parse);
    QuoteResult(days, km, base * 2.0, extra,
      seq(|VehicleClasses|, i requires 0 <= i < |VehicleClasses| =>
        PriceVehicle(VehicleClasses[i], t, days, c, parse)))
  }

  // ----- properties -----

  /** Trip days are the typed value when set, else the itinerary's length, else 1. */
  lemma QuoteDays(len: nat, dn: DaysNights, km: real, adj: ManualAdjustments,
                           c: Costs, parse: ParseFloat)
    requires parse(c.fuelEfficiency) != Some(0.0)
    ensures var r := CalculateQuote(len, dn, km, adj, c, parse);
            r.days == (if !Unset(dn.days) then dn.days.value else if len > 0 then len else 1)
  {
  }

  /** The billable distance: twice (or four times, returning empty) the one-way base plus
      the extra km, where the base is the positive override or else the estimate, and a
      missing extra counts as 0. */
  lemma QuoteDistance(len: nat, dn: DaysNights, km: real, adj: ManualAdjustments,
                      c: Costs, parse: ParseFloat)
    requires parse(c.fuelEfficiency) != Some(0.0)
    ensures var r := CalculateQuote(len, dn, km, adj, c, parse);
            var base := if adj.adjustedDistance.Some? && adj.adjustedDistance.value > 0.0
                        then adj.adjustedDistance.value else km;
            var extra := if adj.extraMovements.Some? then adj.extraMovements.value else 0.0;
            && r.totalKm == (if c.returnVehicle then 4.0 else 2.0) * base + extra
            && r.baseKm == 2.0 * base
            && r.extraKm == extra
  {
  }

  /** Returning the vehicle empty adds exactly two more one-way legs. */
  lemma ReturnEmptyAddsTwoLegs(baseKm: real, extraKm: real)
    ensures TripKm(baseKm, extraKm, true) == TripKm(baseKm, extraKm, false) + 2.0 * baseKm
  {
  }

  /** Fuel, tolls, lodging, meals, bus and airport fee are the same in all four quotations. */
  lemma {:induction false} TripComponentsShared(len: nat, dn: DaysNights, km: real,
                                                adj: ManualAdjustments, c: Costs, parse: ParseFloat,
                                                i: nat, j: nat)
    requires parse(c.fuelEfficiency) != Some(0.0)
    requires i < 4 && j < 4
    ensures var qs := CalculateQuote(len, dn, km, adj, c, parse).quotations;
            var a, b := qs[i].costs, qs[j].costs;
            && a.fuel == b.fuel && a.tolls == b.tolls
            && a.accommodation == b.accommodation && a.pension == b.pension
            && a.bus == b.bus && a.derechoPiso == b.derechoPiso
  {
  }

  /** What each trip component is: fuel = km / efficiency * price, tolls = 2 * one-way
      tolls whatever `returnVehicle` is, lodging = per night * nights (the typed nights,
      else one less than the days, 0 for a day count that is not positive), meals = per
      day * days, bus = 2 * bus price only when included, airport fee only when included;
      a component whose input does not parse is 0. */
  lemma TripComponentValues(len: nat, dn: DaysNights, estimatedKm: real, adj: ManualAdjustments,
                            c: Costs, parse: ParseFloat, i: nat)
    requires parse(c.fuelEfficiency) != Some(0.0)
    requires i < 4
    ensures var r := CalculateQuote(len, dn, estimatedKm, adj, c, parse);
            var q := r.quotations[i].costs;
            var nights := if !Unset(dn.nights) then dn.nights.value else if r.days > 0 then r.days - 1 else 0;
            var eff, price := parse(c.fuelEfficiency), parse(c.fuelPricePerLiter);
            && q.fuel == (if eff.Some? && price.Some? then r.totalKm / eff.value * price.value else 0.0)
            && q.tolls == (if parse(c.tollsOneWay).Some? then parse(c.tollsOneWay).value * 2.0 else 0.0)
            && q.accommodation == (if parse(c.accommodationPerDay).Some?
                                   then parse(c.accommodationPerDay).value * nights as real else 0.0)
            && q.pension == (if parse(c.pensionPerDay).Some?
                             then parse(c.pensionPerDay).value * r.days as real else 0.0)
            && q.bus == (if c.includeBus && parse(c.busPrice).Some? then parse(c.busPrice).value * 2.0 else 0.0)
            && q.derechoPiso == (if c.includeDerechoPiso && parse(c.derechoPiso).Some?
                                 then parse(c.derechoPiso).value else 0.0)
  {
    var r := QuotationAt(len, dn, estimatedKm, adj, c, parse, i);
    PricedTripComponents(VehicleClasses[i], r.totalKm, r.days, dn, c, parse);
  }

  /** The `i`-th quotation is vehicle class `i` priced on the result's km and days. */
  lemma QuotationAt(len: nat, dn: DaysNights, km: real, adj: ManualAdjustments,
                    c: Costs, parse: ParseFloat, i: nat) returns (r: QuoteResult)
    requires parse(c.fuelEfficiency) != Some(0.0)
    requires i < 4
    ensures r == CalculateQuote(len, dn, km, adj, c, parse)
    ensures r.quotations[i]
              == PriceVehicle(VehicleClasses[i], ComputeTripCosts(r.totalKm, r.days, TotalNights(dn, r.days), c, parse),
                              r.days, c, parse)
  {
    r := CalculateQuote(len, dn, km, adj, c, parse);
  }

  lemma PricedTripComponents(v: VehicleClass, km: real, days: int, dn: DaysNights, c: Costs, parse: ParseFloat)
    requires parse(c.fuelEfficiency) != Some(0.0)
    ensures var q := PriceVehicle(v, ComputeTripCosts(km, days, TotalNights(dn, days), c, parse), days, c, parse).costs;
            var nights := if !Unset(dn.nights) then dn.nights.value else if days > 0 then days - 1 else 0;
            var eff, price := parse(c.fuelEfficiency), parse(c.fuelPricePerLiter);
            && q.fuel == (if eff.Some? && price.Some? then km / eff.value * price.value else 0.0)
            && q.tolls == (if parse(c.tollsOneWay).Some? then parse(c.tollsOneWay).value * 2.0 else 0.0)
            && q.accommodation == (if parse(c.accommodationPerDay).Some?
                                   then parse(c.accommodationPerDay).value * nights as real else 0.0)
            && q.pension == (if parse(c.pensionPerDay).Some?
                             then parse(c.pensionPerDay).value * days as real else 0.0)
            && q.bus == (if c.includeBus && parse(c.busPrice).Some? then parse(c.busPrice).value * 2.0 else 0.0)
            && q.derechoPiso == (if c.includeDerechoPiso && parse(c.derechoPiso).Some?
                                 then parse(c.derechoPiso).value else 0.0)
  {
  }

  /** Rental = daily rate of the class * days; driver = rental * percentage / 100. */
  lemma RentalAndDriverValues(len: nat, dn: DaysNights, km: real, adj: ManualAdjustments,
                              c: Costs, parse: ParseFloat, i: nat)
    requires parse(c.fuelEfficiency) != Some(0.0)
    requires i < 4
    ensures var r := CalculateQuote(len, dn, km, adj, c, parse);
            var q := r.quotations[i].costs;
            var rate, pct := parse(VehicleClasses[i].RateText(c)), parse(c.driverPercentage);
            && q.vehicleRental == (if rate.Some? then rate.value * r.days as real else 0.0)
            && q.driver == (if rate.Some? && pct.Some?
                            then rate.value * r.days as real * (pct.value / 100.0) else 0.0)
  {
    var r := CalculateQuote(len, dn, km, adj, c, parse);
    var t := ComputeTripCosts(r.totalKm, r.days, TotalNights(dn, r.days), c, parse);
    assert r.quotations[i] == PriceVehicle(VehicleClasses[i], t, r.days, c, parse);
    PricedRentalAndDriver(VehicleClasses[i], t, r.days, c, parse);
  }

  lemma PricedRentalAndDriver(v: VehicleClass, t: TripCosts, days: int, c: Costs, parse: ParseFloat)
    ensures var q := PriceVehicle(v, t, days, c, parse).costs;
            var rate, pct := parse(v.RateText(c)), parse(c.driverPercentage);
            && q.vehicleRental == (if rate.Some? then rate.value * days as real else 0.0)
            && q.driver == (if rate.Some? && pct.Some?
                            then rate.value * days as real * (pct.value / 100.0) else 0.0)
  {
  }

  lemma DoubledShare(x: real, p: real)
    ensures x * (2.0 * p / 100.0) == 2.0 * (x * (p / 100.0))
  {
  }

  /** Every input a quotation reads parses as a number. */
  predicate AllNumeric(v: VehicleClass, c: Costs, parse: ParseFloat) {
    && parse(c.fuelEfficiency).Some? && parse(c.fuelPricePerLiter).Some?
    && parse(c.tollsOneWay).Some? && parse(c.accommodationPerDay).Some?
    && parse(c.pensionPerDay).Some? && parse(v.RateText(c)).Some?
    && parse(c.driverPercentage).Some?
    && (c.includeBus ==> parse(c.busPrice).Some?)
    && (c.includeDerechoPiso ==> parse(c.derechoPiso).Some?)
  }

  /** A quotation's total is the sum of its eight components when every input is a number,
      and 0 (a `NaN` total) as soon as one of them is not. */
  lemma {:induction false} TotalIsSumOfComponents(len: nat, dn: DaysNights, km: real,
                                                  adj: ManualAdjustments, c: Costs,
                                                  parse: ParseFloat, i: nat)
    requires parse(c.fuelEfficiency) != Some(0.0)
    requires i < 4
    ensures var q := CalculateQuote(len, dn, km, adj, c, parse).quotations[i].costs;
            && (AllNumeric(VehicleClasses[i], c, parse) ==>
                  q.total == q.fuel + q.tolls + q.accommodation + q.pension
                             + q.vehicleRental + q.driver + q.bus + q.derechoPiso)
            && (!AllNumeric(VehicleClasses[i], c, parse) ==> q.total == 0.0)
  {
    var r := CalculateQuote(len, dn, km, adj, c, parse);
    var v := VehicleClasses[i];
    var t := ComputeTripCosts(r.totalKm, r.days, TotalNights(dn, r.days), c, parse);
    assert r.quotations[i] == PriceVehicle(v, t, r.days, c, parse);
  }

  /** Doubling the driver percentage doubles every driver cost. */
  lemma DriverScalesWithPercentage(len: nat, dn: DaysNights, km: real, adj: ManualAdjustments,
                                   c: Costs, doubled: string, parse: ParseFloat, i: nat)
    requires parse(c.fuelEfficiency) != Some(0.0)
    requires i < 4
    requires parse(c.driverPercentage).Some?
    requires parse(doubled) == Some(2.0 * parse(c.driverPercentage).value)
    ensures var q := CalculateQuote(len, dn, km, adj, c, parse).quotations[i].costs;
            var q2 := CalculateQuote(len, dn, km, adj, c.(driverPercentage := doubled), parse).quotations[i].costs;
            q2.driver == 2.0 * q.driver && q2.vehicleRental == q.vehicleRental
  {
    var c2 := c.(driverPercentage := doubled);
    var r := QuotationAt(len, dn, km, adj, c, parse, i);
    var r2 := QuotationAt(len, dn, km, adj, c2, parse, i);
    QuoteDays(len, dn, km, adj, c, parse);
    QuoteDays(len, dn, km, adj, c2, parse);
    PricedDriverDoubles(VehicleClasses[i], ComputeTripCosts(r.totalKm, r.days, TotalNights(dn, r.days), c, parse),
                        ComputeTripCosts(r2.totalKm, r2.days, TotalNights(dn, r2.days), c2, parse),
                        r.days, c, doubled, parse);
  }

  lemma PricedDriverDoubles(v: VehicleClass, t: TripCosts, t2: TripCosts, days: int, c: Costs,
                            doubled: string, parse: ParseFloat)
    requires parse(c.driverPercentage).Some?
    requires parse(doubled) == Some(2.0 * parse(c.driverPercentage).value)
    ensures var q := PriceVehicle(v, t, days, c, parse).costs;
            var q2 := PriceVehicle(v, t2, days, c.(driverPercentage := doubled), parse).costs;
            q2.driver == 2.0 * q.driver && q2.vehicleRental == q.vehicleRental
  {
    DriverDoubles(v, days, c, doubled, parse);
  }

  lemma DriverDoubles(v: VehicleClass, days: int, c: Costs, doubled: string, parse: ParseFloat)
    requires parse(c.driverPercentage).Some?
    requires parse(doubled) == Some(2.0 * parse(c.driverPercentage).value)
    ensures var c2 := c.(driverPercentage := doubled);
            && Rental(v, days, c2, parse) == Rental(v, days, c, parse)
            && OrZero(Driver(v, days, c2, parse)) == 2.0 * OrZero(Driver(v, days, c, parse))
  {
    var c2 := c.(driverPercentage := doubled);
    assert v.RateText(c2) == v.RateText(c);
    var rental := Rental(v, days, c, parse);
    if rental.Some? {
      DoubledShare(rental.value, parse(c.driverPercentage).value);
    }
  }

  /** The worked example: the default cost form, a 300 km estimate, 3 days and 2 nights;
      the 8-passenger van costs 16200/7 in fuel plus 9600 in the rest. */
  lemma DefaultFormExample(parse: ParseFloat)
    requires parse("27") == Some(27.0) && parse("7") == Some(7.0) && parse("1110") == Some(1110.0)
    requires parse("20") == Some(20.0) && parse("450") == Some(450.0) && parse("0") == Some(0.0)
    requires parse("1800") == Some(1800.0)
    ensures var r := CalculateQuote(1, DaysNights(Some(3), Some(2)), 300.0,
                                    ManualAdjustments(None, None), DefaultCosts, parse);
            && r.totalKm == 600.0
            && r.quotations[1].costs == CostBreakdown(16200.0 / 7.0, 2220.0, 900.0, 0.0,
                                                      5400.0, 1080.0, 0.0, 0.0,
                                                      16200.0 / 7.0 + 9600.0)
  {
    var r := CalculateQuote(1, DaysNights(Some(3), Some(2)), 300.0,
                            ManualAdjustments(None, None), DefaultCosts, parse);
    RentalAndDriverValues(1, DaysNights(Some(3), Some(2)), 300.0, ManualAdjustments(None, None),
                          DefaultCosts, parse, 1);
    TotalIsSumOfComponents(1, DaysNights(Some(3), Some(2)), 300.0, ManualAdjustments(None, None),
                           DefaultCosts, parse, 1);
  }
}
