/** The quote detail dialog's status flow: changing a quote's status, and approving it,
    which asks for the vehicle's name and generates a contract. The API calls are
    parameters: whether each one succeeded, and what the contract service answered. */
module Approval {
  import opened Wrappers
  import opened Text
  import opened Quotes

  /** The quote statuses the dialog offers. */
  const Approved: string := "Aprobada"
  const Pending: string := "Pendiente"

  /** The answer of `createContract`: an error, or the created contract with the id of its
      calendar event (`None` when no event was created). */
  datatype ContractOutcome = CreateFailed | Created(calendarEventId: Option<string>)

  /** The contract sent to `createContract`. */
  datatype ContractRequest = ContractRequest(
    contractNumber: string,
    clientId: Option<string>,
    quoteId: nat,
    startDate: Option<string>,
    endDate: Option<string>,
    origin: Option<string>,
    destination: Option<string>,
    eventType: string,
    itinerary: ItineraryField,
    numUnits: nat,
    passengerCount: nat,
    totalAmount: real,
    status: string,
    notes: NotesField,
    vehicleName: string)

  /** `contractData`: the quote's fields, an active status and the trimmed vehicle name,
      with the event type defaulting to "Cotización" and the units to 1. */
  function ContractFor(q: QuoteRow, number: string, vehicleName: string): ContractRequest {
    ContractRequest(number, q.clientId, q.id, q.startDate, q.endDate, q.origin, q.destination,
                    OrDefault(q.eventType.GetOr(""), "Cotización"), q.itinerary,
                    if q.numUnits == 0 then 1 else q.numUnits, q.passengerCount, q.totalAmount,
                    "Activo", q.notes, Trim(vehicleName))
  }

  /** The contract of an approval is active, for at least one unit, with an event type
      and a vehicle name that has no surrounding whitespace and is not empty, and it
      carries the quote's own id, client, dates, route, amount and notes. */
  lemma ContractForShape(q: QuoteRow, number: string, vehicleName: string)
    requires !IsBlank(vehicleName)
    ensures var c := ContractFor(q, number, vehicleName);
            && c.status == "Activo" && c.numUnits >= 1 && c.eventType != ""
            && c.vehicleName != "" && Trim(c.vehicleName) == c.vehicleName
            && c.quoteId == q.id && c.clientId == q.clientId
            && c.startDate == q.startDate && c.endDate == q.endDate
            && c.origin == q.origin && c.destination == q.destination
            && c.totalAmount == q.totalAmount && c.notes == q.notes
            && c.passengerCount == q.passengerCount
            && (q.eventType.Some? && q.eventType.value != "" ==> c.eventType == q.eventType.value)
            && (q.numUnits > 0 ==> c.numUnits == q.numUnits)
  {
    TrimIdempotent(vehicleName);
  }

  /** The quote as stored after approval: approved, with the calendar event's id when the
      contract service created one. */
  function ApprovedQuote(q: QuoteRow, eventId: Option<string>): QuoteRow {
    q.(status := Approved, calendarEventId := NonEmpty(eventId))
  }

  class QuoteApproval {
    /** The quote whose detail dialog is open. */
    var viewingQuote: Option<QuoteRow>
    /** The status chosen in the dialog's selector. */
    var selectedStatus: string
    var editingStatus: bool
    var showVehicleModal: bool
    var vehicleName: string

    constructor()
      ensures viewingQuote == None && selectedStatus == "" && !editingStatus
      ensures !showVehicleModal && vehicleName == ""
    {
      viewingQuote := None;
      selectedStatus := "";
      editingStatus := false;
      showVehicleModal := false;
      vehicleName := "";
    }

    /** `handleView`: opens the dialog on a quote with its status preselected. */
    method HandleView(q: QuoteRow)
      modifies this`viewingQuote, this`selectedStatus, this`editingStatus
      ensures viewingQuote == Some(q) && !editingStatus
      ensures selectedStatus == OrDefault(q.status, Pending)
    {
      viewingQuote := Some(q);
      selectedStatus := OrDefault(q.status, Pending);
      editingStatus := false;
    }

    /** `handleStatusChange`: approving a quote that is not yet approved opens the vehicle
        dialog and sends nothing; any other choice sends the quote with the chosen status,
        and once the update succeeds the dialog closes. */
    method HandleStatusChange(updateOk: bool) returns (update: Option<QuoteRow>)
      requires viewingQuote.Some?
      modifies this`showVehicleModal, this`editingStatus, this`viewingQuote
      ensures var q := old(viewingQuote.value);
              if selectedStatus == Approved && q.status != Approved then
                && update == None && showVehicleModal
                && editingStatus == old(editingStatus) && viewingQuote == old(viewingQuote)
              else
                && update == Some(q.(status := selectedStatus))
                && showVehicleModal == old(showVehicleModal)
                && (updateOk ==> !editingStatus && viewingQuote == None)
                && (!updateOk ==> editingStatus == old(editingStatus) && viewingQuote == old(viewingQuote))
    {
      var q := viewingQuote.value;
      if selectedStatus == Approved && q.status != Approved {
        showVehicleModal := true;
        update := None;
        return;
      }
      update := Some(q.(status := selectedStatus));
      if updateOk {
        editingStatus := false;
        viewingQuote := None;
      }
    }

    /** `handleGenerateContract` at the given local time. A blank vehicle name sends
        nothing and changes nothing. Otherwise the contract is sent; when it is created
        the quote is sent again as approved with the calendar event's id, and when that
        update succeeds the dialogs close and the vehicle name is cleared. A failed call
        leaves the dialog as it was. */
    method HandleGenerateContract(year: nat, month0: nat, day: nat, hour: nat, minute: nat,
                                  outcome: ContractOutcome, updateOk: bool)
      returns (contract: Option<ContractRequest>, update: Option<QuoteRow>)
      requires viewingQuote.Some?
      requires month0 < 12 && 1 <= day <= 31 && hour < 24 && minute < 60
      modifies this`showVehicleModal, this`vehicleName, this`editingStatus, this`viewingQuote
      ensures IsBlank(old(vehicleName)) ==> contract == None
      ensures !IsBlank(old(vehicleName)) ==>
                contract == Some(ContractFor(old(viewingQuote.value),
                                             ContractNumber(year, month0, day, hour, minute),
                                             old(vehicleName)))
      ensures update.Some? <==> !IsBlank(old(vehicleName)) && outcome.Created?
      ensures update.Some? ==> update.value == ApprovedQuote(old(viewingQuote.value), outcome.calendarEventId)
      ensures if update.Some? && updateOk then
                !showVehicleModal && vehicleName == "" && !editingStatus && viewingQuote == None
              else
                && showVehicleModal == old(showVehicleModal) && vehicleName == old(vehicleName)
                && editingStatus == old(editingStatus) && viewingQuote == old(viewingQuote)
    {
      var q, name := viewingQuote.value, vehicleName;
      if IsBlank(name) {
        return None, None;
      }
      contract := Some(ContractFor(q, ContractNumber(year, month0, day, hour, minute), name));
      if outcome.CreateFailed? {
        return contract, None;
      }
      update := Some(ApprovedQuote(q, outcome.calendarEventId));
      CloseAfterApproval(updateOk);
    }

    /** Once the approved quote is stored, the dialogs close and the vehicle name is
        cleared; a failed update leaves them as they were. */
    method CloseAfterApproval(updateOk: bool)
      modifies this`showVehicleModal, this`vehicleName, this`editingStatus, this`viewingQuote
      ensures if updateOk then
                !showVehicleModal && vehicleName == "" && !editingStatus && viewingQuote == None
              else
                && showVehicleModal == old(showVehicleModal) && vehicleName == old(vehicleName)
                && editingStatus == old(editingStatus) && viewingQuote == old(viewingQuote)
    {
      if updateOk {
        showVehicleModal := false;
        vehicleName := "";
        editingStatus := false;
        viewingQuote := None;
      }
    }
  }
}
