/** The calculator dialog's state and the actions that change it: the itinerary
    editors, the distance estimate, the quote calculation, the vehicle selection and
    the save guard. */
module Calculator {
  import opened Wrappers
  import opened Text
  import opened QuoteModel
  import Pricing
  import Messages

  // ----- destinations across the itinerary -----

  /** The trimmed, non-blank stops of one day, in order. */
  function TrimmedStops(ds: seq<string>): seq<string> {
    if ds == [] then []
    else
      var last := ds[|ds| - 1];
      TrimmedStops(ds[..|ds| - 1]) + (if IsBlank(last) then [] else [Trim(last)])
  }

  /** The trimmed, non-blank stops of every day, day after day. */
  function AllDestinations(days: seq<Day>): seq<string> {
    if days == [] then []
    else AllDestinations(days[..|days| - 1]) + TrimmedStops(days[|days| - 1].destinations)
  }

  /** Collected stops are trimmed and not blank. */
  lemma {:induction false} TrimmedStopsClean(ds: seq<string>)
    ensures forall x :: x in TrimmedStops(ds) ==> !IsBlank(x) && Trim(x) == x
    decreases |ds|
  {
    if ds != [] {
      var last := ds[|ds| - 1];
      TrimmedStopsClean(ds[..|ds| - 1]);
      TrimIdempotent(last);
    }
  }

  /** Every collected stop comes from a non-blank slot of the day. */
  lemma {:induction false} TrimmedStopsSound(ds: seq<string>, x: string)
    requires x in TrimmedStops(ds)
    ensures exists j :: 0 <= j < |ds| && !IsBlank(ds[j]) && x == Trim(ds[j])
    decreases |ds|
  {
    var init, last := ds[..|ds| - 1], ds[|ds| - 1];
    var tail := if IsBlank(last) then [] else [Trim(last)];
    assert TrimmedStops(ds) == TrimmedStops(init) + tail;
    if x in TrimmedStops(init) {
      TrimmedStopsSound(init, x);
      var j :| 0 <= j < |init| && !IsBlank(init[j]) && x == Trim(init[j]);
      assert ds[j] == init[j];
    } else {
      assert x in tail;
      assert !IsBlank(ds[|ds| - 1]) && x == Trim(ds[|ds| - 1]);
    }
  }

  /** Every non-blank slot of the day is collected, trimmed. */
  lemma {:induction false} TrimmedStopsComplete(ds: seq<string>, j: nat)
    requires j < |ds| && !IsBlank(ds[j])
    ensures Trim(ds[j]) in TrimmedStops(ds)
    decreases |ds|
  {
    var init := ds[..|ds| - 1];
    if j < |ds| - 1 {
      assert init[j] == ds[j];
      TrimmedStopsComplete(init, j);
    }
  }

  /** A stop is collected exactly when some slot of that day holds it, up to surrounding
      whitespace, and it is not blank. */
  lemma TrimmedStopsMembers(ds: seq<string>)
    ensures forall x :: x in TrimmedStops(ds) <==>
              exists j :: 0 <= j < |ds| && !IsBlank(ds[j]) && x == Trim(ds[j])
  {
    forall x | x in TrimmedStops(ds)
      ensures exists j :: 0 <= j < |ds| && !IsBlank(ds[j]) && x == Trim(ds[j])
    {
      TrimmedStopsSound(ds, x);
    }
    forall j | 0 <= j < |ds| && !IsBlank(ds[j]) ensures Trim(ds[j]) in TrimmedStops(ds) {
      TrimmedStopsComplete(ds, j);
    }
  }

  /** The collected list is every non-blank slot of every day, trimmed. */
  lemma {:induction false} AllDestinationsMembers(days: seq<Day>)
    ensures forall x :: x in AllDestinations(days) <==>
              exists i, j :: 0 <= i < |days| && 0 <= j < |days[i].destinations|
                             && !IsBlank(days[i].destinations[j]) && x == Trim(days[i].destinations[j])
    decreases |days|
  {
    if days != [] {
      var init, last := days[..|days| - 1], days[|days| - 1];
      AllDestinationsMembers(init);
      TrimmedStopsMembers(last.destinations);
      forall x | x in AllDestinations(days)
        ensures exists i, j :: 0 <= i < |days| && 0 <= j < |days[i].destinations|
                               && !IsBlank(days[i].destinations[j]) && x == Trim(days[i].destinations[j])
      {
        if x in AllDestinations(init) {
          var i, j :| 0 <= i < |init| && 0 <= j < |init[i].destinations|
                      && !IsBlank(init[i].destinations[j]) && x == Trim(init[i].destinations[j]);
          assert days[i] == init[i];
        } else {
          assert x in TrimmedStops(last.destinations);
          var j :| 0 <= j < |last.destinations| && !IsBlank(last.destinations[j])
                   && x == Trim(last.destinations[j]);
          assert days[|days| - 1] == last;
        }
      }
      forall x | exists i, j :: 0 <= i < |days| && 0 <= j < |days[i].destinations|
                               && !IsBlank(days[i].destinations[j]) && x == Trim(days[i].destinations[j])
        ensures x in AllDestinations(days)
      {
        var i, j :| 0 <= i < |days| && 0 <= j < |days[i].destinations|
                    && !IsBlank(days[i].destinations[j]) && x == Trim(days[i].destinations[j]);
        if i < |days| - 1 {
          assert init[i] == days[i];
        } else {
          assert x in TrimmedStops(last.destinations);
        }
      }
    }
  }

  /** The nested `forEach` of `calculateDistance`: the trimmed non-blank stops of every
      day, in itinerary order. */
  method CollectDestinations(days: seq<Day>) returns (all: seq<string>)
    ensures all == AllDestinations(days)
  {
    all := [];
    var i := 0;
    while i < |days|
      invariant 0 <= i <= |days|
      invariant all == AllDestinations(days[..i])
    {
      var ds := days[i].destinations;
      var before := all;
      var j := 0;
      while j < |ds|
        invariant 0 <= j <= |ds|
        invariant all == before + TrimmedStops(ds[..j])
      {
        TrimmedStopsStep(before, ds, j);
        if !IsBlank(ds[j]) {
          all := all + [Trim(ds[j])];
        }
        j := j + 1;
      }
      assert ds[..j] == ds;
      AllDestinationsStep(days, i);
      i := i + 1;
    }
    assert days[..i] == days;
  }

  lemma TrimmedStopsStep(before: seq<string>, ds: seq<string>, j: nat)
    requires j < |ds|
    ensures IsBlank(ds[j]) ==> before + TrimmedStops(ds[..j + 1]) == before + TrimmedStops(ds[..j])
    ensures !IsBlank(ds[j]) ==>
              before + TrimmedStops(ds[..j + 1]) == before + TrimmedStops(ds[..j]) + [Trim(ds[j])]
  {
    assert ds[..j + 1][..j] == ds[..j];
  }

  lemma AllDestinationsStep(days: seq<Day>, i: nat)
    requires i < |days|
    ensures AllDestinations(days[..i + 1]) == AllDestinations(days[..i]) + TrimmedStops(days[i].destinations)
  {
    assert days[..i + 1][..i] == days[..i];
  }

  // ----- list editing -----

  /** `s.filter((_, i) => i !== index)`: `s` without the element at `index`, unchanged when
      `index` is out of range. */
  function WithoutIndex<T>(s: seq<T>, index: int): (r: seq<T>)
    ensures 0 <= index < |s| ==> |r| == |s| - 1
    ensures !(0 <= index < |s|) ==> r == s
    ensures forall k :: 0 <= k < |r| ==> r[k] == (if 0 <= index <= k then s[k + 1] else s[k])
  {
    if 0 <= index < |s| then s[..index] + s[index + 1..] else s
  }

  /** `sel.filter(i => i !== x)`. */
  function RemoveAll(sel: seq<int>, x: int): (r: seq<int>)
    ensures forall y :: y in r <==> y in sel && y != x
    ensures |r| <= |sel|
  {
    if sel == [] then []
    else (if sel[0] == x then [] else [sel[0]]) + RemoveAll(sel[1..], x)
  }

  /** The selection after clicking vehicle `index`: removed if it was selected, else added. */
  function Toggle(sel: seq<int>, index: int): seq<int> {
    if index in sel then RemoveAll(sel, index) else sel + [index]
  }

  /** Toggling flips whether `index` is selected and leaves every other index as it was. */
  lemma ToggleFlipsOne(sel: seq<int>, index: int)
    ensures index in Toggle(sel, index) <==> index !in sel
    ensures forall j :: j != index ==> (j in Toggle(sel, index) <==> j in sel)
  {
  }

  predicate Distinct(s: seq<int>) {
    forall a, b :: 0 <= a < b < |s| ==> s[a] != s[b]
  }

  /** A selection without repeats stays without repeats. */
  lemma {:induction false} RemoveAllDistinct(sel: seq<int>, x: int)
    requires Distinct(sel)
    ensures Distinct(RemoveAll(sel, x))
    decreases |sel|
  {
    if sel != [] {
      RemoveAllDistinct(sel[1..], x);
      var head := if sel[0] == x then [] else [sel[0]];
      var rest := RemoveAll(sel[1..], x);
      assert sel[0] !in sel[1..];
      assert sel[0] !in rest;
      assert RemoveAll(sel, x) == head + rest;
    }
  }

  lemma ToggleKeepsDistinct(sel: seq<int>, index: int)
    requires Distinct(sel)
    ensures Distinct(Toggle(sel, index))
  {
    if index in sel {
      RemoveAllDistinct(sel, index);
    }
  }

  /** `quotations.map((_, i) => i)`. */
  function AllIndices(n: nat): (r: seq<int>)
    ensures |r| == n && forall i :: 0 <= i < n ==> r[i] == i
  {
    seq(n, i => i)
  }

  /** `editingQuote?.id || null`: an id of 0 is treated as absent. */
  function SaveId(editingId: Option<nat>): Option<nat> {
    if editingId.Some? && editingId.value != 0 then editingId else None
  }

  /** `value || null` for a text field. */
  function TextOrNull(s: string): Option<string> {
    if s == "" then None else Some(s)
  }

  class QuoteCalculator {
    var clientName: string
    var selectedClientId: string
    var days: seq<Day>
    var costs: Costs
    var daysNights: DaysNights
    /** `distances.totalKm`: the one-way distance estimate, 0 until estimated. */
    var estimatedKm: real
    var adjustments: ManualAdjustments
    var results: Option<QuoteResult>
    var selectedVehicles: seq<int>

    /** At least one day, and at least two stop slots in every day. */
    predicate WellFormed()
      reads this
    {
      |days| >= 1 && forall i :: 0 <= i < |days| ==> |days[i].destinations| >= 2
    }

    /** The dialog as it opens for a new quote. */
    constructor()
      ensures clientName == "" && selectedClientId == ""
      ensures days == [BlankDay] && costs == DefaultCosts
      ensures daysNights == DaysNights(Some(0), Some(0)) && estimatedKm == 0.0
      ensures adjustments == ManualAdjustments(Some(0.0), Some(0.0))
      ensures results == None && selectedVehicles == []
      ensures WellFormed()
    {
      clientName := "";
      selectedClientId := "";
      days := [BlankDay];
      costs := DefaultCosts;
      daysNights := DaysNights(Some(0), Some(0));
      estimatedKm := 0.0;
      adjustments := ManualAdjustments(Some(0.0), Some(0.0));
      results := None;
      selectedVehicles := [];
    }

    /** "Agregar Día": a blank day at the end. */
    method AddDay()
      modifies this`days
      ensures days == old(days) + [BlankDay]
      ensures old(WellFormed()) ==> WellFormed()
    {
      days := days + [BlankDay];
    }

    /** Removes a day, unless it is the only one. */
    method RemoveDay(dayIndex: int)
      modifies this`days
      ensures |old(days)| > 1 ==> days == WithoutIndex(old(days), dayIndex)
      ensures |old(days)| <= 1 ==> days == old(days)
      ensures old(WellFormed()) ==> WellFormed()
    {
      if |days| > 1 {
        days := WithoutIndex(days, dayIndex);
      }
    }

    /** Appends a blank stop to a day. */
    method AddDestination(dayIndex: nat)
      requires dayIndex < |days|
      modifies this`days
      ensures days == old(days)[dayIndex := old(days)[dayIndex].(destinations := old(days)[dayIndex].destinations + [""])]
      ensures old(WellFormed()) ==> WellFormed()
    {
      var d := days[dayIndex];
      days := days[dayIndex := d.(destinations := d.destinations + [""])];
    }

    /** Removes a stop from a day, unless the day has only two. */
    method RemoveDestination(dayIndex: nat, destIndex: nat)
      requires dayIndex < |days|
      modifies this`days
      ensures var d := old(days)[dayIndex];
              |d.destinations| > 2 ==>
                days == old(days)[dayIndex := d.(destinations := WithoutIndex(d.destinations, destIndex))]
      ensures |old(days)[dayIndex].destinations| <= 2 ==> days == old(days)
      ensures old(WellFormed()) ==> WellFormed()
    {
      var d := days[dayIndex];
      if |d.destinations| > 2 {
        days := days[dayIndex := d.(destinations := WithoutIndex(d.destinations, destIndex))];
      }
    }

    /** Types into one stop slot; every other slot and day stays as it was. */
    method UpdateDestination(dayIndex: nat, destIndex: nat, value: string)
      requires dayIndex < |days| && destIndex < |days[dayIndex].destinations|
      modifies this`days
      ensures |days| == |old(days)|
      ensures forall i :: 0 <= i < |days| && i != dayIndex ==> days[i] == old(days)[i]
      ensures days[dayIndex].date == old(days)[dayIndex].date
      ensures days[dayIndex].destinations == old(days)[dayIndex].destinations[destIndex := value]
      ensures old(WellFormed()) ==> WellFormed()
    {
      var d := days[dayIndex];
      days := days[dayIndex := d.(destinations := d.destinations[destIndex := value])];
    }

    /** Sets a day's date; every other day and the stops stay as they were. */
    method UpdateDayDate(dayIndex: nat, value: string)
      requires dayIndex < |days|
      modifies this`days
      ensures |days| == |old(days)|
      ensures forall i :: 0 <= i < |days| && i != dayIndex ==> days[i] == old(days)[i]
      ensures days[dayIndex] == old(days)[dayIndex].(date := value)
      ensures old(WellFormed()) ==> WellFormed()
    {
      days := days[dayIndex := days[dayIndex].(date := value)];
    }

    /** "Calcular Distancia" with the placeholder estimate of 100 km per leg between the
        collected stops. Answers `false` (the source shows an alert) and changes nothing
        when fewer than two stops are filled in. */
    method CalculateDistance() returns (estimated: bool)
      modifies this`estimatedKm, this`adjustments, this`daysNights
      ensures var n := |AllDestinations(days)|;
              && (estimated <==> n >= 2)
              && (!estimated ==> estimatedKm == old(estimatedKm) && adjustments == old(adjustments)
                                 && daysNights == old(daysNights))
              && (estimated ==>
                    && estimatedKm == (n - 1) as real * 100.0
                    && adjustments == old(adjustments).(adjustedDistance := Some(estimatedKm))
                    && daysNights == DaysNights(Some(|days|), Some(|days| - 1)))
    {
      var all := CollectDestinations(days);
      if |all| < 2 {
        return false;
      }
      var km := (|all| - 1) as real * 100.0;
      estimatedKm := km;
      adjustments := adjustments.(adjustedDistance := Some(km));
      var totalDays := |days|;
      daysNights := DaysNights(Some(totalDays), Some(if totalDays > 0 then totalDays - 1 else 0));
      estimated := true;
    }

    /** "Calcular Cotización". Answers `false` (the source shows an alert) and changes
        nothing while the distance estimate is 0; otherwise stores the priced result,
        fills in the trip length when it was not set, and selects all four quotations. */
    method CalculateQuote(parse: Pricing.ParseFloat) returns (calculated: bool)
      requires parse(costs.fuelEfficiency) != Some(0.0)
      modifies this`results, this`selectedVehicles, this`daysNights
      ensures calculated <==> estimatedKm != 0.0
      ensures !calculated ==> results == old(results) && selectedVehicles == old(selectedVehicles)
                              && daysNights == old(daysNights)
      ensures calculated ==>
                var r := Pricing.CalculateQuote(|days|, old(daysNights), estimatedKm, adjustments, costs, parse);
                && results == Some(r)
                && selectedVehicles == [0, 1, 2, 3]
                && daysNights == (if Pricing.Unset(old(daysNights).days)
                                  then DaysNights(Some(r.days), Some(Pricing.TotalNights(old(daysNights), r.days)))
                                  else old(daysNights))
    {
      if estimatedKm == 0.0 {
        return false;
      }
      var dn := daysNights;
      var r := Pricing.CalculateQuote(|days|, dn, estimatedKm, adjustments, costs, parse);
      if Pricing.Unset(dn.days) {
        daysNights := DaysNights(Some(r.days), Some(Pricing.TotalNights(dn, r.days)));
      }
      results := Some(r);
      selectedVehicles := AllIndices(|r.quotations|);
      assert selectedVehicles == [0, 1, 2, 3];
      calculated := true;
    }

    /** Clicking a vehicle card. */
    method ToggleVehicleSelection(index: int)
      modifies this`selectedVehicles
      ensures selectedVehicles == Toggle(old(selectedVehicles), index)
    {
      if index in selectedVehicles {
        selectedVehicles := RemoveAll(selectedVehicles, index);
      } else {
        selectedVehicles := selectedVehicles + [index];
      }
    }

    /** "Guardar Cotización": nothing without a result (the source shows an alert);
        otherwise the record handed to the quotes page, with both messages rendered from
        the current selection. */
    method HandleSave(editingId: Option<nat>) returns (saved: Option<QuoteData>)
      ensures saved.None? <==> results.None?
      ensures saved.Some? ==>
                var q := saved.value;
                && q.id == SaveId(editingId)
                && q.clientName == clientName && q.clientId == TextOrNull(selectedClientId)
                && q.days == days && q.totalKm == estimatedKm && q.manualAdjustments == adjustments
                && q.daysNights == daysNights && q.costs == costs && q.results == results
                && q.whatsappClient == Messages.ClientMessage(clientName, days, results, selectedVehicles)
                && q.whatsappInternal == Messages.InternalMessage(clientName, days, daysNights, costs,
                                                                  results, selectedVehicles)
                && q.agreedAmount == None
    {
      if results.None? {
        return None;
      }
      saved := Some(QuoteData(SaveId(editingId), clientName, TextOrNull(selectedClientId), days,
                              estimatedKm, adjustments, daysNights, costs, results,
                              Messages.ClientMessage(clientName, days, results, selectedVehicles),
                              Messages.InternalMessage(clientName, days, daysNights, costs,
                                                       results, selectedVehicles),
                              None));
    }
  }

  /** A saved quote carries both messages, and they are empty exactly when no vehicle
      is selected. */
  lemma SavedMessagesEmptyIffNoSelection(r: QuoteResult, clientName: string, days: seq<Day>,
                                          dn: DaysNights, c: Costs, selected: seq<int>)
    ensures var client := Messages.ClientMessage(clientName, days, Some(r), selected);
            var internal := Messages.InternalMessage(clientName, days, dn, c, Some(r), selected);
            && client.Some? && internal.Some?
            && (client.value == "" <==> forall i: nat :: i < |r.quotations| ==> i !in selected)
            && (internal.value == "" <==> forall i: nat :: i < |r.quotations| ==> i !in selected)
  {
    Messages.ClientMessageShape(clientName, days, Some(r), selected);
    Messages.InternalMessageShape(clientName, days, dn, c, Some(r), selected);
  }
}
