/** The two WhatsApp texts the calculator renders from a result: the client message
    (itinerary, one line per selected vehicle with its comma-grouped total, trip length
    and what is included) and the internal message (the cost breakdown of each
    selected vehicle). */
module Messages {
  import opened Wrappers
  import opened Text
  import opened Numerals
  import opened QuoteModel

  // ----- selection -----

  /** `items.filter((_, i) => selected.includes(i))` over the first `n` items. */
  function SelectedPrefix<T>(items: seq<T>, selected: seq<int>, n: nat): seq<T>
    requires n <= |items|
  {
    if n == 0 then []
    else SelectedPrefix(items, selected, n - 1) + (if n - 1 in selected then [items[n - 1]] else [])
  }

  /** The items whose index is selected. */
  function Selected<T>(items: seq<T>, selected: seq<int>): seq<T> {
    SelectedPrefix(items, selected, |items|)
  }

  /** The indices below `n` that are selected, in ascending order. */
  function SelectedIndices(n: nat, selected: seq<int>): (idx: seq<nat>)
    ensures forall k :: 0 <= k < |idx| ==> idx[k] < n && idx[k] in selected
    ensures forall k, l :: 0 <= k < l < |idx| ==> idx[k] < idx[l]
    ensures forall i: nat :: i < n && i in selected ==> i in idx
  {
    if n == 0 then []
    else SelectedIndices(n - 1, selected) + (if n - 1 in selected then [n - 1] else [])
  }

  /** The filter keeps exactly the selected items, in their original order. */
  lemma {:induction false} SelectedAtIndices<T>(items: seq<T>, selected: seq<int>, n: nat)
    requires n <= |items|
    ensures var idx := SelectedIndices(n, selected);
            var r := SelectedPrefix(items, selected, n);
            |r| == |idx| && forall k :: 0 <= k < |r| ==> r[k] == items[idx[k]]
  {
    if n > 0 {
      SelectedAtIndices(items, selected, n - 1);
      var idx0, r0 := SelectedIndices(n - 1, selected), SelectedPrefix(items, selected, n - 1);
      if n - 1 in selected {
        assert SelectedIndices(n, selected) == idx0 + [n - 1];
        assert SelectedPrefix(items, selected, n) == r0 + [items[n - 1]];
      } else {
        assert SelectedIndices(n, selected) == idx0;
        assert SelectedPrefix(items, selected, n) == r0;
      }
    }
  }

  /** Nothing is kept exactly when no index of an item is selected. */
  lemma SelectedEmptyIff<T>(items: seq<T>, selected: seq<int>)
    ensures Selected(items, selected) == [] <==> forall i: nat :: i < |items| ==> i !in selected
  {
    SelectedAtIndices(items, selected, |items|);
    var idx := SelectedIndices(|items|, selected);
    if Selected(items, selected) == [] {
      assert idx == [];
    } else {
      assert idx[0] < |items| && idx[0] in selected;
    }
  }

  /** With every index selected (as after a calculation) all items are kept. */
  lemma {:induction false} SelectedAll<T>(items: seq<T>, selected: seq<int>, n: nat)
    requires n <= |items|
    requires forall i: nat :: i < |items| ==> i in selected
    ensures SelectedPrefix(items, selected, n) == items[..n]
  {
    if n > 0 {
      SelectedAll(items, selected, n - 1);
      assert items[..n] == items[..n - 1] + [items[n - 1]];
    }
  }

  // ----- itinerary -----

  /** `destinations.filter(d => d.trim())`: the stops that are not blank, kept untrimmed. */
  function NonBlank(ds: seq<string>): (r: seq<string>)
    ensures |r| <= |ds|
    ensures forall d :: d in r <==> d in ds && !IsBlank(d)
  {
    if ds == [] then []
    else (if IsBlank(ds[0]) then [] else [ds[0]]) + NonBlank(ds[1..])
  }

  /** `Día <n> (<date or the placeholder>): <stops joined with " → ">`. */
  function DayLine(i: nat, d: Day, undated: string): string {
    "Día " + NatToString(i + 1) + " (" + OrDefault(d.date, undated) + "): "
      + Join(NonBlank(d.destinations), " → ")
  }

  function DayLines(days: seq<Day>, undated: string): seq<string> {
    seq(|days|, i requires 0 <= i < |days| => DayLine(i, days[i], undated))
  }

  /** The itinerary block: one line per day. */
  function Itinerary(days: seq<Day>, undated: string): string {
    Join(DayLines(days, undated), "\n")
  }

  /** Neither a date nor a stop of the itinerary contains a line break. */
  predicate SingleLineDays(days: seq<Day>) {
    forall i :: 0 <= i < |days| ==>
      Free(days[i].date, '\n')
      && forall j :: 0 <= j < |days[i].destinations| ==> Free(days[i].destinations[j], '\n')
  }

  lemma {:induction false} JoinFree(parts: seq<string>, sep: string, c: char)
    requires Free(sep, c)
    requires forall k :: 0 <= k < |parts| ==> Free(parts[k], c)
    ensures Free(Join(parts, sep), c)
    decreases |parts|
  {
    if |parts| > 1 {
      JoinFree(parts[1..], sep, c);
    }
  }

  lemma {:induction false} FreeConcat6(p1: string, p2: string, p3: string, p4: string, p5: string,
                                       p6: string, c: char)
    requires Free(p1, c) && Free(p2, c) && Free(p3, c) && Free(p4, c) && Free(p5, c) && Free(p6, c)
    ensures Free(p1 + p2 + p3 + p4 + p5 + p6, c)
  {
  }

  lemma StopsFree(ds: seq<string>, arrow: string)
    requires arrow == " → "
    requires forall j :: 0 <= j < |ds| ==> Free(ds[j], '\n')
    ensures Free(Join(NonBlank(ds), arrow), '\n')
  {
    var stops := NonBlank(ds);
    forall k | 0 <= k < |stops| ensures Free(stops[k], '\n') {
      assert stops[k] in ds;
    }
    assert Free(arrow, '\n');
    JoinFree(stops, arrow, '\n');
  }

  lemma NumberFree(n: nat)
    ensures Free(NatToString(n), '\n')
  {
    assert IsDigits(NatToString(n));
  }

  lemma DayLineShapeFree(number: string, date: string, stops: string)
    requires Free(number, '\n') && Free(date, '\n') && Free(stops, '\n')
    ensures Free("Día " + number + " (" + date + "): " + stops, '\n')
  {
    assert Free("Día ", '\n') && Free(" (", '\n') && Free("): ", '\n');
    FreeConcat6("Día ", number, " (", date, "): ", stops, '\n');
  }

  lemma DayLineFree(i: nat, d: Day, undated: string)
    requires Free(d.date, '\n') && Free(undated, '\n')
    requires forall j :: 0 <= j < |d.destinations| ==> Free(d.destinations[j], '\n')
    ensures Free(DayLine(i, d, undated), '\n')
  {
    StopsFree(d.destinations, " → ");
    NumberFree(i + 1);
    DayLineShapeFree(NatToString(i + 1), OrDefault(d.date, undated), Join(NonBlank(d.destinations), " → "));
  }

  /** When no date or stop holds a line break, the itinerary block splits back into
      exactly one line per day, the i-th starting `Día i+1 (`. */
  lemma ItineraryOneLinePerDay(days: seq<Day>, undated: string)
    requires |days| >= 1 && SingleLineDays(days) && Free(undated, '\n')
    ensures Split(Itinerary(days, undated), "\n") == DayLines(days, undated)
    ensures forall i :: 0 <= i < |days| ==>
              StartsWith(DayLines(days, undated)[i], "Día " + NatToString(i + 1) + " (")
  {
    var lines := DayLines(days, undated);
    forall k | 0 <= k < |lines| ensures Free(lines[k], '\n') {
      DayLineFree(k, days[k], undated);
    }
    SplitJoin(lines, "\n");
    forall i | 0 <= i < |days|
      ensures StartsWith(lines[i], "Día " + NatToString(i + 1) + " (")
    {
      DayLineStart(i, days[i], undated);
    }
  }

  lemma DayLineStart(i: nat, d: Day, undated: string)
    ensures StartsWith(DayLine(i, d, undated), "Día " + NatToString(i + 1) + " (")
  {
    StartsWithLonger("Día " + NatToString(i + 1) + " (", OrDefault(d.date, undated), "): ",
                     Join(NonBlank(d.destinations), " → "));
  }

  // ----- framing -----

  /** A message made of a title, a body holding `parts` joined by `sep`, and a closing
      line opens with the title, ends with the closing line and contains every part. */
  lemma Framed(title: string, intro: string, parts: seq<string>, sep: string, outro: string,
               closing: string)
    ensures var m := title + (intro + Join(parts, sep) + outro) + closing;
            && StartsWith(m, title)
            && m[|m| - |closing|..] == closing
            && forall k :: 0 <= k < |parts| ==> Contains(m, parts[k])
  {
    var body := intro + Join(parts, sep) + outro;
    var m := title + body + closing;
    StartsWithPrefix(title, body + closing);
    assert m == title + (body + closing);
    EndsWithSuffix(title + body, closing);
    forall k | 0 <= k < |parts| ensures Contains(m, parts[k]) {
      var pre, post := JoinAround(parts, sep, k);
      Regroup(title, intro, pre, parts[k], post, outro, closing);
      ContainsMiddle(title + intro + pre, parts[k], post + outro + closing);
    }
  }

  lemma Regroup(t: string, i: string, pre: string, p: string, post: string, o: string, c: string)
    ensures t + (i + (pre + p + post) + o) + c == (t + i + pre) + p + (post + o + c)
  {
  }

  /** The item at a selected index is among the selected ones. */
  lemma SelectedMember<T>(items: seq<T>, selected: seq<int>, i: nat) returns (k: nat)
    requires i < |items| && i in selected
    ensures k < |Selected(items, selected)| && Selected(items, selected)[k] == items[i]
  {
    SelectedAtIndices(items, selected, |items|);
    var idx := SelectedIndices(|items|, selected);
    k :| 0 <= k < |idx| && idx[k] == i;
  }

  // ----- client message -----

  /** `<type> (<capacity> pasajeros): *$<grouped total>*`. */
  function ClientQuoteLine(q: Quotation): string {
    q.vehicleType + " (" + NatToString(q.capacity) + " pasajeros): *$" + MoneyText(q.costs.total) + "*"
  }

  function ClientQuoteLines(qs: seq<Quotation>): seq<string> {
    seq(|qs|, k requires 0 <= k < |qs| => ClientQuoteLine(qs[k]))
  }

  const ClientTitle: string := "🚐 *COTIZACIÓN DE VIAJE*"

  const ClientClosing: string := "📱 ¿Tienes preguntas? Contáctanos"

  /** Client name (or `Por definir`), the itinerary and the heading of the vehicle list. */
  function ClientIntro(clientName: string, days: seq<Day>): string {
    "\n\n👤 Cliente: " + OrDefault(clientName, "Por definir")
      + "\n\n📍 *ITINERARIO*\n" + Itinerary(days, "Fecha por definir")
      + "\n\n💰 *COTIZACIONES DISPONIBLES*\n"
  }

  /** `📅 Duración: <n> día`, with an `s` for more than one day. */
  function DurationText(tripDays: int): string {
    "\n\n📅 Duración: " + IntToString(tripDays) + " día" + (if tripDays > 1 then "s" else "")
  }

  const ClientIncludes: string :=
    "\n\n✅ Incluye:\n• Gasolina ida y regreso\n• Casetas ida y regreso\n• Operador\n• Seguro de viajero\n\n"

  /** `generateClientWhatsApp`: `None` (undefined) without a result, the empty text when
      no vehicle is selected, else the message. */
  function ClientMessage(clientName: string, days: seq<Day>, results: Option<QuoteResult>,
                         selected: seq<int>): Option<string>
  {
    match results
    case None => None
    case Some(r) =>
      var chosen := Selected(r.quotations, selected);
      if chosen == [] then Some("")
      else Some(ClientTitle
                + (ClientIntro(clientName, days) + Join(ClientQuoteLines(chosen), "\n")
                   + (DurationText(r.days) + ClientIncludes))
                + ClientClosing)
  }

  /** The client message is missing exactly without a result and empty exactly when no
      quotation is selected. */
  lemma ClientMessageShape(clientName: string, days: seq<Day>, results: Option<QuoteResult>,
                           selected: seq<int>)
    ensures var m := ClientMessage(clientName, days, results, selected);
            && (m.None? <==> results.None?)
            && (m == Some("") <==>
                  (results.Some? && forall i: nat :: i < |results.value.quotations| ==> i !in selected))
  {
    if results.Some? {
      SelectedEmptyIff(results.value.quotations, selected);
    }
  }

  /** The lines of the kept quotations are those of the selected indices, ascending. */
  lemma ClientLinesInOrder(qs: seq<Quotation>, selected: seq<int>)
    ensures var ks := SelectedIndices(|qs|, selected);
            ClientQuoteLines(Selected(qs, selected))
              == seq(|ks|, j requires 0 <= j < |ks| => ClientQuoteLine(qs[ks[j]]))
  {
    SelectedAtIndices(qs, selected, |qs|);
  }

  /** A client message with a selection opens with the title, ends with the closing line
      and carries the line of every selected quotation. */
  lemma ClientMessageFramed(clientName: string, days: seq<Day>, r: QuoteResult, selected: seq<int>)
    requires exists i: nat :: i < |r.quotations| && i in selected
    ensures var m := ClientMessage(clientName, days, Some(r), selected);
            && m.Some?
            && StartsWith(m.value, ClientTitle)
            && m.value[|m.value| - |ClientClosing|..] == ClientClosing
            && forall i: nat :: i < |r.quotations| && i in selected ==>
                 Contains(m.value, ClientQuoteLine(r.quotations[i]))
  {
    var chosen := Selected(r.quotations, selected);
    SelectedEmptyIff(r.quotations, selected);

    var lines := ClientQuoteLines(chosen);
    Framed(ClientTitle, ClientIntro(clientName, days), lines, "\n",
           DurationText(r.days) + ClientIncludes, ClientClosing);
    forall i: nat | i < |r.quotations| && i in selected
      ensures ClientQuoteLine(r.quotations[i]) in lines
    {
      var k := SelectedMember(r.quotations, selected, i);
      assert lines[k] == ClientQuoteLine(r.quotations[i]);
    }
  }

  /** The whole client message for a result: empty without a selection, else the line of
      each selected quotation, in ascending index order and one per line, and nothing for
      the unselected ones. */
  lemma ClientMessageInOrder(clientName: string, days: seq<Day>, r: QuoteResult, selected: seq<int>)
    ensures var ks := SelectedIndices(|r.quotations|, selected);
            ClientMessage(clientName, days, Some(r), selected)
              == Some(if ks == [] then ""
                      else ClientTitle
                           + (ClientIntro(clientName, days)
                              + Join(seq(|ks|, j requires 0 <= j < |ks| => ClientQuoteLine(r.quotations[ks[j]])), "\n")
                              + (DurationText(r.days) + ClientIncludes))
                           + ClientClosing)
  {
    SelectedAtIndices(r.quotations, selected, |r.quotations|);
    ClientLinesInOrder(r.quotations, selected);
  }

  /** The trip length ends in `días` for more than one day and in `día` for one. */
  lemma DurationPlural(n: int)
    requires n >= 1
    ensures var t := DurationText(n);
            n > 1 <==> t[|t| - 1] == 's'
  {
  }

  // ----- internal message -----

  /** `vehicleRates[vehicleType]`: the daily-rate text of the named class, `undefined`
      for a name that is none of the four. */
  function RateFor(vehicleType: string, c: Costs): string {
    if vehicleType == Unit2.Name() then c.vehicle2PerDay
    else if vehicleType == Unit8.Name() then c.vehicle8PerDay
    else if vehicleType == Unit14.Name() then c.vehicle14PerDay
    else if vehicleType == Unit20.Name() then c.vehicle20PerDay
    else "undefined"
  }

  /** Looking a class up by its displayed name finds that class's rate field. */
  lemma RateForClass(v: VehicleClass, c: Costs)
    ensures RateFor(v.Name(), c) == v.RateText(c)
  {
  }

  /** `${n}` for a day or night count held by the form. */
  function CountText(n: Option<int>): string {
    match n
    case None => "undefined"
    case Some(k) => IntToString(k)
  }

  /** The lines a vehicle's breakdown can have, in the order they are written. */
  datatype DetailKind = Heading | Fuel | Tolls | Lodging | Meals | Rental | Driver | Bus | AirportFee | Total

  /** Which lines a breakdown has: the source appends the meals, bus and airport lines
      only when that component is positive. */
  function DetailKinds(q: Quotation): seq<DetailKind> {
    [Heading, Fuel, Tolls, Lodging]
    + (if q.costs.pension > 0.0 then [Meals] else [])
    + [Rental, Driver]
    + (if q.costs.bus > 0.0 then [Bus] else [])
    + (if q.costs.derechoPiso > 0.0 then [AirportFee] else [])
    + [Total]
  }

  /** The texts a breakdown interpolates: names, counts, rates and `toFixed(2)` amounts. */
  datatype Figures = Figures(
    vehicleType: string, capacity: string, fuel: string, fuelNote: string, tolls: string,
    accommodation: string, nights: string, pension: string, days: string, rental: string,
    rate: string, percentage: string, driver: string, bus: string, derechoPiso: string,
    total: string)

  function FiguresOf(q: Quotation, c: Costs, dn: DaysNights): Figures {
    Figures(q.vehicleType, NatToString(q.capacity), ToFixed2(q.costs.fuel),
            if c.returnVehicle then " (solo ida)" else "", ToFixed2(q.costs.tolls),
            ToFixed2(q.costs.accommodation), CountText(dn.nights), ToFixed2(q.costs.pension),
            CountText(dn.days), ToFixed2(q.costs.vehicleRental), RateFor(q.vehicleType, c),
            c.driverPercentage, ToFixed2(q.costs.driver), ToFixed2(q.costs.bus),
            ToFixed2(q.costs.derechoPiso), MoneyText(q.costs.total))
  }

  /** The text of one breakdown line. */
  function LineText(k: DetailKind, f: Figures): string {
    match k
    case Heading => "*" + f.vehicleType + "* (" + f.capacity + " pasajeros)"
    case Fuel => "• Gasolina: $" + f.fuel + f.fuelNote
    case Tolls => "• Casetas: $" + f.tolls
    case Lodging => "• Viáticos: $" + f.accommodation + " (" + f.nights + " noches)"
    case Meals => "• Pensión: $" + f.pension + " (" + f.days + " días)"
    case Rental => "• Renta unidad: $" + f.rental + " ($" + f.rate + "/día)"
    case Driver => "• Chofer (" + f.percentage + "%): $" + f.driver
    case Bus => "• Autobús (ida y regreso): $" + f.bus
    case AirportFee => "• Derecho de piso (aeropuerto): $" + f.derechoPiso
    case Total => "*TOTAL: $" + f.total + "*"
  }

  function DetailLine(k: DetailKind, q: Quotation, c: Costs, dn: DaysNights): string {
    LineText(k, FiguresOf(q, c, dn))
  }

  function DetailLines(q: Quotation, c: Costs, dn: DaysNights): seq<string> {
    var kinds := DetailKinds(q);
    seq(|kinds|, i requires 0 <= i < |kinds| => DetailLine(kinds[i], q, c, dn))
  }

  /** One vehicle's breakdown, one line per kind. */
  function QuoteDetails(q: Quotation, c: Costs, dn: DaysNights): string {
    Join(DetailLines(q, c, dn), "\n")
  }

  /** A breakdown opens with the vehicle heading and closes with the grouped total; it has
      seven fixed lines plus one per positive optional component, and the meals, bus and
      airport lines appear exactly when that component is positive. */
  lemma DetailKindsShape(q: Quotation)
    ensures var kinds := DetailKinds(q);
            && |kinds| == 7 + (if q.costs.pension > 0.0 then 1 else 0)
                            + (if q.costs.bus > 0.0 then 1 else 0)
                            + (if q.costs.derechoPiso > 0.0 then 1 else 0)
            && kinds[0] == Heading && kinds[|kinds| - 1] == Total
            && (Meals in kinds <==> q.costs.pension > 0.0)
            && (Bus in kinds <==> q.costs.bus > 0.0)
            && (AirportFee in kinds <==> q.costs.derechoPiso > 0.0)
  {
  }

  const InternalTitle: string := "🔧 *COTIZACIÓN INTERNA*"

  const InternalClosing: string := "🔍 Validar gastos reales vs. cotización"

  /** Client, itinerary, distances, trip days, fuel efficiency and fuel price. */
  function InternalIntro(clientName: string, days: seq<Day>, r: QuoteResult, c: Costs): string {
    "\n\nCliente: " + OrDefault(clientName, "Por definir")
      + "\n\n*ITINERARIO*\n" + Itinerary(days, "Fecha")
      + "\n\n*DESGLOSE DE COSTOS*\n📏 Kilometraje ida: " + ToFixed2(r.totalKm)
      + " km\n📏 Ida y regreso: " + ToFixed2(r.baseKm)
      + " km\n📅 Días de viaje: " + IntToString(r.days)
      + "\n⛽ Rendimiento: " + c.fuelEfficiency
      + " km/litro\n💵 Precio gasolina: $" + c.fuelPricePerLiter + "/litro\n\n"
  }

  function InternalBlocks(qs: seq<Quotation>, c: Costs, dn: DaysNights): seq<string> {
    seq(|qs|, k requires 0 <= k < |qs| => QuoteDetails(qs[k], c, dn))
  }

  /** `generateInternalWhatsApp`, from the current cost form and days/nights fields. */
  function InternalMessage(clientName: string, days: seq<Day>, dn: DaysNights, c: Costs,
                           results: Option<QuoteResult>, selected: seq<int>): Option<string>
  {
    match results
    case None => None
    case Some(r) =>
      var chosen := Selected(r.quotations, selected);
      if chosen == [] then Some("")
      else Some(InternalTitle
                + (InternalIntro(clientName, days, r, c) + Join(InternalBlocks(chosen, c, dn), "\n---\n")
                   + "\n\n")
                + InternalClosing)
  }

  /** The internal message is missing exactly without a result and empty exactly when no
      quotation is selected. */
  lemma InternalMessageShape(clientName: string, days: seq<Day>, dn: DaysNights, c: Costs,
                             results: Option<QuoteResult>, selected: seq<int>)
    ensures var m := InternalMessage(clientName, days, dn, c, results, selected);
            && (m.None? <==> results.None?)
            && (m == Some("") <==>
                  (results.Some? && forall i: nat :: i < |results.value.quotations| ==> i !in selected))
  {
    if results.Some? {
      SelectedEmptyIff(results.value.quotations, selected);
    }
  }

  /** The breakdowns of the kept quotations are those of the selected indices, ascending. */
  lemma InternalBlocksInOrder(qs: seq<Quotation>, c: Costs, dn: DaysNights, selected: seq<int>)
    ensures var ks := SelectedIndices(|qs|, selected);
            InternalBlocks(Selected(qs, selected), c, dn)
              == seq(|ks|, j requires 0 <= j < |ks| => QuoteDetails(qs[ks[j]], c, dn))
  {
    SelectedAtIndices(qs, selected, |qs|);
  }

  /** An internal message with a selection opens with the title, ends with the reminder to
      check real expenses and carries the breakdown of every selected quotation. */
  lemma InternalMessageFramed(clientName: string, days: seq<Day>, dn: DaysNights, c: Costs,
                              r: QuoteResult, selected: seq<int>)
    requires exists i: nat :: i < |r.quotations| && i in selected
    ensures var m := InternalMessage(clientName, days, dn, c, Some(r), selected);
            && m.Some?
            && StartsWith(m.value, InternalTitle)
            && m.value[|m.value| - |InternalClosing|..] == InternalClosing
            && forall i: nat :: i < |r.quotations| && i in selected ==>
                 Contains(m.value, QuoteDetails(r.quotations[i], c, dn))
  {
    var chosen := Selected(r.quotations, selected);
    SelectedEmptyIff(r.quotations, selected);

    var blocks := InternalBlocks(chosen, c, dn);
    Framed(InternalTitle, InternalIntro(clientName, days, r, c), blocks, "\n---\n", "\n\n",
           InternalClosing);
    forall i: nat | i < |r.quotations| && i in selected
      ensures QuoteDetails(r.quotations[i], c, dn) in blocks
    {
      var k := SelectedMember(r.quotations, selected, i);
      assert blocks[k] == QuoteDetails(r.quotations[i], c, dn);
    }
  }

  /** The whole internal message for a result: empty without a selection, else the
      breakdown of each selected quotation, in ascending index order and separated by
      `---` lines, and nothing for the unselected ones. */
  lemma InternalMessageInOrder(clientName: string, days: seq<Day>, dn: DaysNights, c: Costs,
                               r: QuoteResult, selected: seq<int>)
    ensures var ks := SelectedIndices(|r.quotations|, selected);
            InternalMessage(clientName, days, dn, c, Some(r), selected)
              == Some(if ks == [] then ""
                      else InternalTitle
                           + (InternalIntro(clientName, days, r, c)
                              + Join(seq(|ks|, j requires 0 <= j < |ks| => QuoteDetails(r.quotations[ks[j]], c, dn)), "\n---\n")
                              + "\n\n")
                           + InternalClosing)
  {
    SelectedAtIndices(r.quotations, selected, |r.quotations|);
    InternalBlocksInOrder(r.quotations, c, dn, selected);
  }
}
