/** The quotes page's record handling: reading a stored quote's `notes` back into the
    calculator (JSON, or the legacy text format), the route column, the search filter,
    the fields sent to the API when a quote is saved, and contract numbers. */
module Quotes {
  import opened Wrappers
  import opened Text
  import opened Numerals
  import opened QuoteModel
  import Pricing

  // ----- stored records -----

  /** One day of a stored itinerary; `None` when the day has no `destinations` key. */
  datatype RouteDay = RouteDay(destinations: Option<seq<string>>)

  /** The `itinerary` column: empty, not valid JSON, or the parsed days. */
  datatype ItineraryField = NoItinerary | MalformedItinerary | Itinerary(days: seq<RouteDay>)

  /** The JSON object the calculator's data is saved as. A key is `None` when it is
      absent or holds a falsy value (`null`, `""`, `0`). */
  datatype NotesJson = NotesJson(
    clientName: Option<string>,
    clientId: Option<string>,
    days: Option<seq<Day>>,
    distances: Option<real>,
    costs: Option<Costs>,
    results: Option<QuoteResult>,
    agreedAmount: Option<string>,
    whatsappClient: Option<string>,
    whatsappInternal: Option<string>,
    manualAdjustments: Option<ManualAdjustments>,
    daysNights: Option<DaysNights>)

  /** The `notes` column: a JSON object, or text that `JSON.parse` rejects. */
  datatype NotesField = JsonNotes(data: NotesJson) | TextNotes(text: string)

  /** A quote row as the list shows it. Optional columns are `None` when null or empty. */
  datatype QuoteRow = QuoteRow(
    id: nat,
    clientName: Option<string>,
    clientId: Option<string>,
    origin: Option<string>,
    destination: Option<string>,
    startDate: Option<string>,
    endDate: Option<string>,
    eventType: Option<string>,
    itinerary: ItineraryField,
    numUnits: nat,
    passengerCount: nat,
    totalAmount: real,
    status: string,
    notes: NotesField,
    calendarEventId: Option<string>)

  // ----- parseQuoteData -----

  /** What `parseQuoteData` gives the calculator. For JSON notes every field is present,
      `None` standing for the `{}` or `null` default; legacy text notes only carry the
      client name and the two messages, with no days, no costs and no result. */
  datatype ParsedQuote =
    | FromJson(clientName: string, days: seq<Day>, distances: Option<real>, costs: Option<Costs>,
               results: Option<QuoteResult>, agreedAmount: string, whatsappClient: string,
               whatsappInternal: string, manualAdjustments: Option<ManualAdjustments>,
               daysNights: Option<DaysNights>, clientId: Option<string>)
    | FromText(clientName: string, whatsappClient: string, whatsappInternal: string)

  /** `value || ''`. */
  function OrEmpty(s: Option<string>): string {
    OrDefault(s.GetOr(""), "")
  }

  /** `value || null` for a text value. */
  function NonEmpty(s: Option<string>): Option<string> {
    if s.Some? && s.value != "" then s else None
  }

  /** The prefixes the legacy text format gives its sections. */
  const ClientPrefix: string := "Cliente:"
  const ClientMessagePrefix: string := "WhatsApp Cliente:"
  const InternalMessagePrefix: string := "WhatsApp Interno:"

  /** The trimmed remainder of the last section that starts with `prefix`, or `""` when
      none does: each matching section overwrites the field. */
  function LastField(sections: seq<string>, prefix: string): string {
    if sections == [] then ""
    else
      var last := sections[|sections| - 1];
      if StartsWith(last, prefix) then Trim(ReplaceFirst(last, prefix, ""))
      else LastField(sections[..|sections| - 1], prefix)
  }

  /** A field no section starts with stays empty. */
  lemma {:induction false} LastFieldUnmatched(sections: seq<string>, prefix: string)
    requires forall k :: 0 <= k < |sections| ==> !StartsWith(sections[k], prefix)
    ensures LastField(sections, prefix) == ""
    decreases |sections|
  {
    if sections != [] {
      LastFieldUnmatched(sections[..|sections| - 1], prefix);
    }
  }

  /** The field is read from the last section that starts with its prefix. */
  lemma {:induction false} LastFieldIsLastMatch(sections: seq<string>, prefix: string, k: nat)
    requires k < |sections| && StartsWith(sections[k], prefix)
    requires forall j :: k < j < |sections| ==> !StartsWith(sections[j], prefix)
    ensures LastField(sections, prefix) == Trim(ReplaceFirst(sections[k], prefix, ""))
    decreases |sections|
  {
    if k < |sections| - 1 {
      var init := sections[..|sections| - 1];
      assert init[k] == sections[k];
      LastFieldIsLastMatch(init, prefix, k);
    }
  }

  /** The `forEach` of the legacy branch: each section is tested against the three
      prefixes in turn, and the first that matches takes the section's remainder. */
  method ParseLegacyNotes(notes: string) returns (clientName: string, whatsappClient: string,
                                                   whatsappInternal: string)
    ensures var sections := Split(notes, "\n\n");
            && clientName == LastField(sections, ClientPrefix)
            && whatsappClient == LastField(sections, ClientMessagePrefix)
            && whatsappInternal == LastField(sections, InternalMessagePrefix)
  {
    var sections := Split(notes, "\n\n");
    clientName, whatsappClient, whatsappInternal := "", "", "";
    var i := 0;
    while i < |sections|
      invariant 0 <= i <= |sections|
      invariant clientName == LastField(sections[..i], ClientPrefix)
      invariant whatsappClient == LastField(sections[..i], ClientMessagePrefix)
      invariant whatsappInternal == LastField(sections[..i], InternalMessagePrefix)
    {
      var section := sections[i];
      assert sections[..i + 1][..i] == sections[..i];
      assert sections[..i + 1][i] == section;
      PrefixesExclusive(section);
      if StartsWith(section, ClientPrefix) {
        clientName := Trim(ReplaceFirst(section, ClientPrefix, ""));
      } else if StartsWith(section, ClientMessagePrefix) {
        whatsappClient := Trim(ReplaceFirst(section, ClientMessagePrefix, ""));
      } else if StartsWith(section, InternalMessagePrefix) {
        whatsappInternal := Trim(ReplaceFirst(section, InternalMessagePrefix, ""));
      }
      i := i + 1;
    }
    assert sections[..i] == sections;
  }

  /** A section starts with at most one of the three prefixes, so the `else if` chain
      updates at most one field per section. */
  lemma PrefixesExclusive(section: string)
    ensures !(StartsWith(section, ClientPrefix) && StartsWith(section, ClientMessagePrefix))
    ensures !(StartsWith(section, ClientPrefix) && StartsWith(section, InternalMessagePrefix))
    ensures !(StartsWith(section, ClientMessagePrefix) && StartsWith(section, InternalMessagePrefix))
  {
    if StartsWith(section, ClientPrefix) {
      assert section[0] == ClientPrefix[0];
    }
    if StartsWith(section, ClientMessagePrefix) {
      assert section[0] == ClientMessagePrefix[0] && section[9] == ClientMessagePrefix[9];
    }
    if StartsWith(section, InternalMessagePrefix) {
      assert section[9] == InternalMessagePrefix[9];
    }
  }

  /** `parseQuoteData(notes)`. */
  method ParseQuoteData(notes: NotesField) returns (q: ParsedQuote)
    ensures notes.JsonNotes? ==> q == FromJsonNotes(notes.data)
    ensures notes.TextNotes? ==>
              var sections := Split(notes.text, "\n\n");
              q == FromText(LastField(sections, ClientPrefix), LastField(sections, ClientMessagePrefix),
                            LastField(sections, InternalMessagePrefix))
  {
    match notes
    case JsonNotes(data) =>
      q := FromJsonNotes(data);
    case TextNotes(text) =>
      var name, client, internal := ParseLegacyNotes(text);
      q := FromText(name, client, internal);
  }

  /** The JSON branch: every missing key takes its default. */
  function FromJsonNotes(data: NotesJson): ParsedQuote {
    FromJson(OrEmpty(data.clientName), data.days.GetOr([]), data.distances, data.costs,
             data.results, OrEmpty(data.agreedAmount), OrEmpty(data.whatsappClient),
             OrEmpty(data.whatsappInternal), data.manualAdjustments, data.daysNights,
             NonEmpty(data.clientId))
  }

  /** A section made of a prefix, a space and an already trimmed value reads back as
      the value. */
  lemma SectionReadsBack(prefix: string, value: string)
    requires Trim(value) == value
    ensures StartsWith(prefix + (" " + value), prefix)
    ensures Trim(ReplaceFirst(prefix + (" " + value), prefix, "")) == value
  {
    var s := prefix + (" " + value);
    assert s[..|prefix|] == prefix;
    ReplacePrefix(s, prefix);
    assert s[|prefix|..] == " " + value;
    TrimAfterSpace(value);
  }

  lemma FreeSection(prefix: string, value: string)
    requires Free(prefix, '\n') && Free(value, '\n')
    ensures Free(prefix + (" " + value), '\n')
  {
  }

  /** Legacy notes written as a client section and the two message sections, separated
      by blank lines, read back as the name and the two messages, provided none of the
      three holds a line break or surrounding whitespace. */
  lemma LegacyNotesRoundTrip(name: string, client: string, internal: string)
    requires Free(name, '\n') && Free(client, '\n') && Free(internal, '\n')
    requires Trim(name) == name && Trim(client) == client && Trim(internal) == internal
    ensures var notes := Join([ClientPrefix + (" " + name), ClientMessagePrefix + (" " + client),
                               InternalMessagePrefix + (" " + internal)], "\n\n");
            var sections := Split(notes, "\n\n");
            && LastField(sections, ClientPrefix) == name
            && LastField(sections, ClientMessagePrefix) == client
            && LastField(sections, InternalMessagePrefix) == internal
  {
    PrefixesFree();
    PrefixesExclusive(ClientMessagePrefix + (" " + client));
    PrefixesExclusive(InternalMessagePrefix + (" " + internal));
    SectionReadsBack(ClientMessagePrefix, client);
    SectionReadsBack(InternalMessagePrefix, internal);
    NotesRoundTripFor(ClientPrefix, ClientMessagePrefix, InternalMessagePrefix, name, client, internal);
  }

  lemma PrefixesFree()
    ensures Free(ClientPrefix, '\n') && Free(ClientMessagePrefix, '\n') && Free(InternalMessagePrefix, '\n')
  {
  }

  /** The round trip for any three prefixes without line breaks, no later section starting
      with an earlier section's prefix. */
  lemma NotesRoundTripFor(p0: string, p1: string, p2: string, v0: string, v1: string, v2: string)
    requires Free(p0, '\n') && Free(p1, '\n') && Free(p2, '\n')
    requires Free(v0, '\n') && Free(v1, '\n') && Free(v2, '\n')
    requires Trim(v0) == v0 && Trim(v1) == v1 && Trim(v2) == v2
    requires !StartsWith(p1 + (" " + v1), p0)
    requires !StartsWith(p2 + (" " + v2), p0) && !StartsWith(p2 + (" " + v2), p1)
    ensures var sections := Split(Join([p0 + (" " + v0), p1 + (" " + v1), p2 + (" " + v2)], "\n\n"), "\n\n");
            && LastField(sections, p0) == v0
            && LastField(sections, p1) == v1
            && LastField(sections, p2) == v2
  {
    var s0, s1, s2 := p0 + (" " + v0), p1 + (" " + v1), p2 + (" " + v2);
    FreeSection(p0, v0);
    FreeSection(p1, v1);
    FreeSection(p2, v2);
    SplitThree(s0, s1, s2);
    SectionReadsBack(p0, v0);
    SectionReadsBack(p1, v1);
    SectionReadsBack(p2, v2);
    ThreeFieldsReadBack(s0, s1, s2, p0, p1, p2, v0, v1, v2);
  }

  /** Three sections without line breaks, joined by blank lines, split back into the three. */
  lemma SplitThree(s0: string, s1: string, s2: string)
    requires Free(s0, '\n') && Free(s1, '\n') && Free(s2, '\n')
    ensures Split(Join([s0, s1, s2], "\n\n"), "\n\n") == [s0, s1, s2]
  {
    var parts: seq<string> := [s0, s1, s2];
    assert forall k :: 0 <= k < |parts| ==> Free(parts[k], '\n');
    SplitJoin(parts, "\n\n");
  }

  /** Three sections, each starting with its own prefix and with no later section starting
      with an earlier one's prefix, read back field by field. */
  lemma ThreeFieldsReadBack(s0: string, s1: string, s2: string, p0: string, p1: string, p2: string,
                            v0: string, v1: string, v2: string)
    requires StartsWith(s0, p0) && Trim(ReplaceFirst(s0, p0, "")) == v0
    requires StartsWith(s1, p1) && Trim(ReplaceFirst(s1, p1, "")) == v1
    requires StartsWith(s2, p2) && Trim(ReplaceFirst(s2, p2, "")) == v2
    requires !StartsWith(s1, p0) && !StartsWith(s2, p0) && !StartsWith(s2, p1)
    ensures LastField([s0, s1, s2], p0) == v0
    ensures LastField([s0, s1, s2], p1) == v1
    ensures LastField([s0, s1, s2], p2) == v2
  {
    LastFieldOfThree(s0, s1, s2, p0);
    LastFieldOfThree(s0, s1, s2, p1);
    LastFieldOfThree(s0, s1, s2, p2);
  }

  /** The field read from three sections: the last of them with the prefix decides. */
  lemma LastFieldOfThree(s0: string, s1: string, s2: string, prefix: string)
    ensures LastField([s0, s1, s2], prefix) ==
              if StartsWith(s2, prefix) then Trim(ReplaceFirst(s2, prefix, ""))
              else if StartsWith(s1, prefix) then Trim(ReplaceFirst(s1, prefix, ""))
              else if StartsWith(s0, prefix) then Trim(ReplaceFirst(s0, prefix, ""))
              else ""
  {
    var three, two, one: seq<string> := [s0, s1, s2], [s0, s1], [s0];
    assert three[..2] == two && two[..1] == one && one[..0] == [];
    assert LastField(one, prefix) == if StartsWith(s0, prefix) then Trim(ReplaceFirst(s0, prefix, "")) else "";
    assert LastField(two, prefix) == if StartsWith(s1, prefix) then Trim(ReplaceFirst(s1, prefix, "")) else LastField(one, prefix);
    assert LastField(three, prefix) == if StartsWith(s2, prefix) then Trim(ReplaceFirst(s2, prefix, "")) else LastField(two, prefix);
  }

  // ----- the route column -----

  /** `itinerary.flatMap(day => day.destinations?.filter(d => d.trim()) || [])`. */
  function RouteStops(days: seq<RouteDay>): seq<string> {
    if days == [] then []
    else RouteStops(days[..|days| - 1]) + Stops(days[|days| - 1])
  }

  function Stops(d: RouteDay): seq<string> {
    match d.destinations
    case None => []
    case Some(ds) => NonBlankStops(ds)
  }

  /** `ds.filter(d => d.trim())`: blank stops dropped, the others kept as typed. */
  function NonBlankStops(ds: seq<string>): (r: seq<string>)
    ensures forall x :: x in r <==> x in ds && !IsBlank(x)
  {
    if ds == [] then []
    else NonBlankStops(ds[..|ds| - 1]) + (if IsBlank(ds[|ds| - 1]) then [] else [ds[|ds| - 1]])
  }

  /** The position of the first occurrence of `x` in `s`. */
  function FirstIndex(s: seq<string>, x: string): (i: nat)
    requires x in s
    ensures i < |s| && s[i] == x && x !in s[..i]
  {
    if s[0] == x then 0
    else
      var i := 1 + FirstIndex(s[1..], x);
      assert s[..i] == [s[0]] + s[1..][..i - 1];
      i
  }

  /** `[...new Set(s)]`: each value once, at its first occurrence. */
  function Dedup(s: seq<string>): seq<string> {
    if s == [] then []
    else
      var d := Dedup(s[..|s| - 1]);
      if s[|s| - 1] in d then d else d + [s[|s| - 1]]
  }

  predicate NoRepeats(s: seq<string>) {
    forall a, b :: 0 <= a < b < |s| ==> s[a] != s[b]
  }

  lemma FirstIndexOfPrefix(s: seq<string>, x: string, n: nat)
    requires n <= |s| && x in s[..n]
    ensures FirstIndex(s, x) == FirstIndex(s[..n], x)
  {
    var i, j := FirstIndex(s, x), FirstIndex(s[..n], x);
    assert s[..n][..j] == s[..j];
  }

  /** Removing repeats keeps every value exactly once, and in the order of first
      occurrence. */
  lemma {:induction false} DedupSpec(s: seq<string>)
    ensures var d := Dedup(s);
            && (forall x :: x in d <==> x in s)
            && NoRepeats(d)
            && forall a, b :: 0 <= a < b < |d| ==> FirstIndex(s, d[a]) < FirstIndex(s, d[b])
    decreases |s|
  {
    if s != [] {
      var init, last := s[..|s| - 1], s[|s| - 1];
      DedupSpec(init);
      var d0 := Dedup(init);
      assert forall x :: x in s <==> x in init || x == last by {
        assert s == init + [last];
      }
      forall x | x in d0 ensures FirstIndex(s, x) == FirstIndex(init, x) {
        FirstIndexOfPrefix(s, x, |s| - 1);
      }
      if last !in d0 {
        var d := d0 + [last];
        assert last !in init;
        assert FirstIndex(s, last) == |s| - 1;
        forall a, b | 0 <= a < b < |d| ensures FirstIndex(s, d[a]) < FirstIndex(s, d[b]) {
          if b < |d0| {
            assert d[a] == d0[a] && d[b] == d0[b];
          } else {
            assert d[a] in init;
          }
        }
      }
    }
  }

  /** The route column's content: the text itself, or its first 50 characters with an
      ellipsis and the whole route as the hover title. */
  datatype RouteCell = Plain(text: string) | Shortened(shown: string, title: string)

  const MaxRouteLength: nat := 50

  /** Cuts a route longer than fifty characters to its first fifty plus `...`. */
  function Truncate(route: string): (cell: RouteCell)
    ensures |route| <= MaxRouteLength ==> cell == Plain(route)
    ensures |route| > MaxRouteLength ==>
              && cell.Shortened? && cell.title == route
              && |cell.shown| == MaxRouteLength + 3
              && cell.shown[..MaxRouteLength] == route[..MaxRouteLength]
              && cell.shown[MaxRouteLength..] == "..."
  {
    if |route| > MaxRouteLength then Shortened(route[..MaxRouteLength] + "...", route) else Plain(route)
  }

  /** `row.destination || '-'`. */
  function DestinationOrDash(row: QuoteRow): string {
    OrDefault(row.destination.GetOr(""), "-")
  }

  /** The "Ruta/Itinerario" cell of a row. */
  function RouteCellOf(row: QuoteRow): RouteCell {
    match row.itinerary
    case MalformedItinerary => Plain(DestinationOrDash(row))
    case NoItinerary => Truncate(DestinationOrDash(row))
    case Itinerary(days) =>
      var unique := Dedup(RouteStops(days));
      Truncate(if |unique| > 0 then Join(unique, " → ") else DestinationOrDash(row))
  }

  /** The cell shows each stop of the itinerary once, in first-visit order, joined by
      arrows (cut at fifty characters); a row without stops shows its destination or a
      dash, and an unreadable itinerary shows that uncut. */
  lemma RouteCellShape(row: QuoteRow)
    ensures row.itinerary.MalformedItinerary? ==> RouteCellOf(row) == Plain(DestinationOrDash(row))
    ensures row.itinerary.Itinerary? && RouteStops(row.itinerary.days) != [] ==>
              var unique := Dedup(RouteStops(row.itinerary.days));
              && (forall x :: x in unique <==> x in RouteStops(row.itinerary.days))
              && NoRepeats(unique)
              && RouteCellOf(row) == Truncate(Join(unique, " → "))
    ensures (row.itinerary.NoItinerary? || (row.itinerary.Itinerary? && RouteStops(row.itinerary.days) == []))
            ==> RouteCellOf(row) == Truncate(DestinationOrDash(row))
  {
    if row.itinerary.Itinerary? {
      var stops := RouteStops(row.itinerary.days);
      DedupSpec(stops);
      if stops != [] {
        assert stops[0] in Dedup(stops);
      }
    }
  }

  // ----- the search filter -----

  /** The stops of a row joined by spaces and lower-cased; empty for an unreadable or
      missing itinerary. */
  function ItineraryText(row: QuoteRow): string {
    match row.itinerary
    case Itinerary(days) => ToLower(Join(RouteStops(days), " "))
    case _ => ""
  }

  /** `text?.toLowerCase().includes(search)`: false for a missing text. */
  predicate FieldHas(text: Option<string>, search: string) {
    text.Some? && Contains(ToLower(text.value), search)
  }

  /** Whether the search box keeps a row: an empty term keeps every row; otherwise the
      lower-cased term must occur in the client name, the itinerary, the destination or
      the origin. */
  predicate Matches(row: QuoteRow, term: string) {
    var search := ToLower(term);
    term == ""
    || FieldHas(row.clientName, search)
    || Contains(ItineraryText(row), search)
    || FieldHas(row.destination, search)
    || FieldHas(row.origin, search)
  }

  /** `quotes.filter(...)`. */
  function FilterQuotes(rows: seq<QuoteRow>, term: string): seq<QuoteRow> {
    if rows == [] then []
    else (if Matches(rows[0], term) then [rows[0]] else []) + FilterQuotes(rows[1..], term)
  }

  /** `sub` is `s` with some elements left out, the rest in their order. */
  predicate IsSubsequence(sub: seq<QuoteRow>, s: seq<QuoteRow>)
    decreases |s|
  {
    if sub == [] then true
    else if s == [] then false
    else (sub[0] == s[0] && IsSubsequence(sub[1..], s[1..])) || IsSubsequence(sub, s[1..])
  }

  /** The filter keeps exactly the matching rows, in list order, and keeps every row
      when the term is empty. */
  lemma {:induction false} FilterQuotesSpec(rows: seq<QuoteRow>, term: string)
    ensures var r := FilterQuotes(rows, term);
            && (forall row :: row in r <==> row in rows && Matches(row, term))
            && IsSubsequence(r, rows)
            && (term == "" ==> r == rows)
    decreases |rows|
  {
    if rows != [] {
      FilterQuotesSpec(rows[1..], term);
      var r := FilterQuotes(rows, term);
      var rest := FilterQuotes(rows[1..], term);
      assert rows == [rows[0]] + rows[1..];
      if Matches(rows[0], term) {
        assert r == [rows[0]] + rest;
        assert r[1..] == rest;
      } else {
        assert r == rest;
        if r != [] {
          assert IsSubsequence(r, rows[1..]);
        }
      }
    }
  }

  /** The search ignores case: a term and its lower-case form keep the same rows. */
  lemma {:induction false} SearchIgnoresCase(rows: seq<QuoteRow>, term: string)
    ensures FilterQuotes(rows, ToLower(term)) == FilterQuotes(rows, term)
    decreases |rows|
  {
    ToLowerIdempotent(term);
    if rows != [] {
      assert Matches(rows[0], ToLower(term)) == Matches(rows[0], term);
      SearchIgnoresCase(rows[1..], term);
    }
  }

  // ----- saving a quote -----

  /** The quote record sent to the API when the calculator saves. */
  datatype ApiQuote = ApiQuote(
    clientId: Option<string>,
    origin: string,
    destination: string,
    startDate: Option<string>,
    endDate: Option<string>,
    eventType: string,
    itinerary: seq<Day>,
    numUnits: nat,
    passengerCount: nat,
    totalAmount: real,
    status: string,
    notes: NotesJson)

  /** The first stop of the first day, or `""`. */
  function Origin(days: seq<Day>): string {
    if days != [] && days[0].destinations != [] then days[0].destinations[0] else ""
  }

  /** The last stop of the last day, or `""`. */
  function FinalStop(days: seq<Day>): string {
    if days == [] then ""
    else
      var ds := days[|days| - 1].destinations;
      if ds != [] then ds[|ds| - 1] else ""
  }

  /** The first quotation of a result, if any. */
  function FirstQuotation(results: Option<QuoteResult>): Option<Quotation> {
    if results.Some? && results.value.quotations != [] then Some(results.value.quotations[0]) else None
  }

  /** `parseFloat(agreedAmount) || results?.quotations[0]?.costs.total || 0`. */
  function TotalAmount(q: QuoteData, parse: Pricing.ParseFloat): real {
    var agreed := if q.agreedAmount.Some? then parse(q.agreedAmount.value) else parse("undefined");
    if agreed.Some? && agreed.value != 0.0 then agreed.value
    else if FirstQuotation(q.results).Some? then FirstQuotation(q.results).value.costs.total
    else 0.0
  }

  /** `completeQuoteData`: the calculator's data as stored in `notes`. */
  function NotesOf(q: QuoteData): NotesJson {
    NotesJson(NonEmpty(Some(q.clientName)), NonEmpty(q.clientId), Some(q.days), Some(q.totalKm), Some(q.costs),
              q.results, NonEmpty(q.agreedAmount), NonEmpty(q.whatsappClient),
              NonEmpty(q.whatsappInternal), Some(q.manualAdjustments), Some(q.daysNights))
  }

  /** `apiData` in `handleSaveQuote`. */
  function ApiData(q: QuoteData, parse: Pricing.ParseFloat): ApiQuote {
    ApiQuote(
      NonEmpty(q.clientId),
      OrDefault(Origin(q.days), ""),
      OrDefault(FinalStop(q.days), ""),
      if q.days != [] then NonEmpty(Some(q.days[0].date)) else None,
      if q.days != [] then NonEmpty(Some(q.days[|q.days| - 1].date)) else None,
      "Cotización",
      q.days,
      1,
      if FirstQuotation(q.results).Some? then FirstQuotation(q.results).value.capacity else 0,
      TotalAmount(q, parse),
      "Pendiente",
      NotesOf(q))
  }

  /** A freshly priced quote is listed as pending, for one unit of the smallest class:
      two passengers and, unless an agreed amount was typed, the 2-passenger total. */
  lemma ApiDataOfPricedQuote(q: QuoteData, parse: Pricing.ParseFloat, r: QuoteResult)
    requires q.results == Some(r) && |r.quotations| == 4
    requires r.quotations[0].capacity == 2
    requires q.agreedAmount == None && parse("undefined") == None
    ensures var api := ApiData(q, parse);
            && api.status == "Pendiente" && api.numUnits == 1 && api.eventType == "Cotización"
            && api.passengerCount == 2
            && api.totalAmount == r.quotations[0].costs.total
  {
  }

  /** The first priced class is the 2-passenger van, so the lemma above applies to every
      calculator result. */
  lemma PricedQuoteStartsWithSmallest(len: nat, dn: DaysNights, km: real, adj: ManualAdjustments,
                                      c: Costs, parse: Pricing.ParseFloat)
    requires parse(c.fuelEfficiency) != Some(0.0)
    ensures var r := Pricing.CalculateQuote(len, dn, km, adj, c, parse);
            |r.quotations| == 4 && r.quotations[0].capacity == 2
  {
  }

  /** Reading the stored notes back gives the calculator the data it saved: the client,
      itinerary, distance, costs, result, adjustments, trip length and messages. */
  lemma NotesRoundTrip(q: QuoteData, parse: Pricing.ParseFloat)
    ensures var p := FromJsonNotes(ApiData(q, parse).notes);
            && p.clientName == q.clientName && p.days == q.days
            && p.distances == Some(q.totalKm) && p.costs == Some(q.costs) && p.results == q.results
            && p.manualAdjustments == Some(q.manualAdjustments) && p.daysNights == Some(q.daysNights)
            && p.whatsappClient == q.whatsappClient.GetOr("")
            && p.whatsappInternal == q.whatsappInternal.GetOr("")
            && p.agreedAmount == q.agreedAmount.GetOr("")
            && p.clientId == NonEmpty(q.clientId)
  {
  }

  /** The itinerary's end points become the quote's origin, destination and dates. */
  lemma ApiDataEndpoints(q: QuoteData, parse: Pricing.ParseFloat)
    requires |q.days| >= 1
    requires |q.days[0].destinations| >= 1 && |q.days[|q.days| - 1].destinations| >= 1
    ensures var api := ApiData(q, parse);
            var first, last := q.days[0], q.days[|q.days| - 1];
            && api.origin == first.destinations[0]
            && api.destination == last.destinations[|last.destinations| - 1]
            && (api.startDate.Some? <==> first.date != "")
            && (api.startDate.Some? ==> api.startDate.value == first.date)
            && (api.endDate.Some? <==> last.date != "")
            && (api.endDate.Some? ==> api.endDate.value == last.date)
  {
  }

  // ----- contract numbers -----

  /** `YYMMDDHHmm` from the local date and time, with a 0-based month as JavaScript's
      `getMonth` gives it. */
  function ContractNumber(year: nat, month0: nat, day: nat, hour: nat, minute: nat): string
    requires month0 < 12 && 1 <= day <= 31 && hour < 24 && minute < 60
  {
    LastTwo(NatToString(year)) + PadStart2(NatToString(month0 + 1)) + PadStart2(NatToString(day))
      + PadStart2(NatToString(hour)) + PadStart2(NatToString(minute))
  }

  /** Five two-digit fields side by side are ten digits, each field in its place. */
  lemma FiveFields(y: string, mo: string, d: string, h: string, mi: string)
    requires |y| == 2 && |mo| == 2 && |d| == 2 && |h| == 2 && |mi| == 2
    requires IsDigits(y) && IsDigits(mo) && IsDigits(d) && IsDigits(h) && IsDigits(mi)
    ensures var n := y + mo + d + h + mi;
            && |n| == 10 && IsDigits(n)
            && n[0..2] == y && n[2..4] == mo && n[4..6] == d && n[6..8] == h && n[8..10] == mi
  {
    var n := y + mo + d + h + mi;
    assert n[0..2] == y && n[2..4] == mo && n[4..6] == d && n[6..8] == h && n[8..10] == mi;
    forall i | 0 <= i < 10 ensures IsDigit(n[i]) {
      if i < 2 { assert n[i] == y[i]; }
      else if i < 4 { assert n[i] == mo[i - 2]; }
      else if i < 6 { assert n[i] == d[i - 4]; }
      else if i < 8 { assert n[i] == h[i - 6]; }
      else { assert n[i] == mi[i - 8]; }
    }
  }

  /** From year 10 on, a contract number is ten digits: the two-digit fields of the year
      modulo 100, the 1-based month, the day, the hour and the minute, in that order. */
  lemma ContractNumberReadsBack(year: nat, month0: nat, day: nat, hour: nat, minute: nat)
    requires year >= 10 && month0 < 12 && 1 <= day <= 31 && hour < 24 && minute < 60
    ensures var n := ContractNumber(year, month0, day, hour, minute);
            && n == TwoDigits(year % 100) + TwoDigits(month0 + 1) + TwoDigits(day)
                    + TwoDigits(hour) + TwoDigits(minute)
            && |n| == 10 && IsDigits(n)
  {
    LastTwoOfYear(year);
    PadStart2OfSmall(month0 + 1);
    PadStart2OfSmall(day);
    PadStart2OfSmall(hour);
    PadStart2OfSmall(minute);
    FiveFields(TwoDigits(year % 100), TwoDigits(month0 + 1), TwoDigits(day), TwoDigits(hour),
               TwoDigits(minute));
  }

  /** Two moments in the same century and different minutes get different numbers. */
  lemma ContractNumberInjective(y1: nat, m1: nat, d1: nat, h1: nat, i1: nat,
                                y2: nat, m2: nat, d2: nat, h2: nat, i2: nat)
    requires 10 <= y1 && m1 < 12 && 1 <= d1 <= 31 && h1 < 24 && i1 < 60
    requires 10 <= y2 && m2 < 12 && 1 <= d2 <= 31 && h2 < 24 && i2 < 60
    requires y1 % 100 == y2 % 100 ==> y1 == y2
    requires ContractNumber(y1, m1, d1, h1, i1) == ContractNumber(y2, m2, d2, h2, i2)
    ensures y1 == y2 && m1 == m2 && d1 == d2 && h1 == h2 && i1 == i2
  {
    ContractNumberReadsBack(y1, m1, d1, h1, i1);
    ContractNumberReadsBack(y2, m2, d2, h2, i2);
    FiveFields(TwoDigits(y1 % 100), TwoDigits(m1 + 1), TwoDigits(d1), TwoDigits(h1), TwoDigits(i1));
    FiveFields(TwoDigits(y2 % 100), TwoDigits(m2 + 1), TwoDigits(d2), TwoDigits(h2), TwoDigits(i2));
  }
}
