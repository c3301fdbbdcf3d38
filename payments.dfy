/** The payment dialog: the form a new or edited payment starts from, the record sent to
    the API on submission, the source-type switch, and the choice list of quotes or
    contracts the payment belongs to. */
module Payments {
  import opened Wrappers
  import opened Text
  import opened Numerals

  /** What a payment is for: a quote or a contract. */
  datatype SourceType = QuoteSource | ContractSource

  /** The dialog's fields, all text as the inputs hold them. */
  datatype PaymentForm = PaymentForm(
    sourceType: SourceType,
    sourceId: string,
    paymentType: string,
    amount: string,
    paymentMethod: string,
    accountId: string,
    paymentDate: string,
    invoiceNumber: string)

  /** A payment as the list loads it. `None` is a null column; an id is the text the
      choice list uses for it. */
  datatype PaymentRecord = PaymentRecord(
    quoteId: Option<string>,
    contractId: Option<string>,
    paymentType: Option<string>,
    amount: Option<string>,
    paymentMethod: Option<string>,
    accountId: Option<string>,
    paymentDate: Option<string>,
    invoiceNumber: Option<string>)

  /** `paymentData`: the payment sent to the API. `amount` is `None` when the amount
      text is not a number. */
  datatype PaymentRequest = PaymentRequest(
    contractId: Option<string>,
    quoteId: Option<string>,
    paymentType: string,
    amount: Option<real>,
    paymentMethod: string,
    accountId: Option<string>,
    paymentDate: string,
    invoiceNumber: string,
    status: string)

  /** `parseFloat` on the amount text, given by the caller. */
  type ParseFloat = string -> Option<real>

  const DefaultPaymentType: string := "Parcial"
  const DefaultPaymentMethod: string := "Efectivo"

  /** `value || fallback` for a column that may be null or empty. */
  function Or(value: Option<string>, fallback: string): string {
    if value.Some? && value.value != "" then value.value else fallback
  }

  /** `iso.split('T')[0]`: the date part of an ISO timestamp. */
  function DatePart(iso: string): string {
    Split(iso, "T")[0]
  }

  /** A date without a time keeps its text, and one followed by a time loses the time. */
  lemma DatePartOfDate(date: string, time: string)
    requires Free(date, 'T')
    requires time == "" || time[0] == 'T'
    ensures DatePart(date + time) == date
  {
    if time == "" {
      assert date + time == date;
      FreeHasNoIndex(date, "T");
    } else {
      assert date + time == date + "T" + time[1..];
      FreeIndexAfter(date, "T", time[1..]);
      assert (date + time)[..|date|] == date;
    }
  }

  /** `handleOpenModal`: a new payment for a quote, partial, in cash, dated today
      (`now` is the current time as an ISO timestamp). */
  function NewForm(now: string): PaymentForm {
    PaymentForm(QuoteSource, "", DefaultPaymentType, "", DefaultPaymentMethod, "", DatePart(now), "")
  }

  /** `handleEdit`: the form filled from a payment. It is for a quote exactly when the
      payment has a quote id; the id is the quote's, else the contract's; the type and
      method fall back to partial and cash, and the date keeps its date part, or is
      today when the payment has none. */
  function EditForm(p: PaymentRecord, now: string): PaymentForm {
    PaymentForm(
      if Or(p.quoteId, "") != "" then QuoteSource else ContractSource,
      Or(p.quoteId, Or(p.contractId, "")),
      Or(p.paymentType, DefaultPaymentType),
      Or(p.amount, ""),
      Or(p.paymentMethod, DefaultPaymentMethod),
      Or(p.accountId, ""),
      if Or(p.paymentDate, "") != "" then DatePart(p.paymentDate.value) else DatePart(now),
      Or(p.invoiceNumber, ""))
  }

  /** The payment with every column null. */
  const EmptyRecord: PaymentRecord := PaymentRecord(None, None, None, None, None, None, None, None)

  /** A new payment starts as an edit of an empty one, except that it is for a quote
      where editing a payment without ids chooses a contract. */
  lemma NewFormIsEmptyEdit(now: string)
    ensures EditForm(EmptyRecord, now).sourceType == ContractSource
    ensures NewForm(now) == EditForm(EmptyRecord, now).(sourceType := QuoteSource)
  {
  }

  /** `handleSubmit`'s `paymentData`. */
  function Submit(f: PaymentForm, parse: ParseFloat): PaymentRequest {
    PaymentRequest(
      if f.sourceType == ContractSource then Some(f.sourceId) else None,
      if f.sourceType == QuoteSource then Some(f.sourceId) else None,
      f.paymentType,
      parse(f.amount),
      f.paymentMethod,
      if f.accountId == "" then None else Some(f.accountId),
      f.paymentDate,
      f.invoiceNumber,
      "Completado")
  }

  /** A submitted payment is completed and belongs to exactly one source, the form's,
      under the form's id; its amount is the parsed amount text and an empty account is
      sent as none. */
  lemma SubmitShape(f: PaymentForm, parse: ParseFloat)
    ensures var r := Submit(f, parse);
            && r.status == "Completado"
            && (r.quoteId.Some? <==> f.sourceType == QuoteSource)
            && (r.contractId.Some? <==> f.sourceType == ContractSource)
            && (r.quoteId.Some? != r.contractId.Some?)
            && (r.quoteId.Some? ==> r.quoteId.value == f.sourceId)
            && (r.contractId.Some? ==> r.contractId.value == f.sourceId)
            && r.amount == parse(f.amount)
            && (r.accountId == None <==> f.accountId == "")
            && (r.accountId.Some? ==> r.accountId.value == f.accountId)
  {
  }

  /** A record stored by a back end that keeps the columns the page sends: the amount
      aside, each column as sent, and the date possibly followed by a time. The payments
      controller as written does not (see StoredByController). */
  predicate StoredFrom(p: PaymentRecord, r: PaymentRequest, time: string) {
    && p.quoteId == r.quoteId && p.contractId == r.contractId
    && p.paymentType == Some(r.paymentType) && p.paymentMethod == Some(r.paymentMethod)
    && p.accountId == r.accountId && p.paymentDate == Some(r.paymentDate + time)
    && p.invoiceNumber == Some(r.invoiceNumber)
  }

  /** The record the payments controller stores for a submitted payment: its insert
      and update never write `quote_id`, and they read the account from
      `payment_account_id` where the page sends `account_id`, so both are null. */
  predicate StoredByController(p: PaymentRecord, r: PaymentRequest, time: string) {
    && p.quoteId == None && p.contractId == r.contractId
    && p.paymentType == Some(r.paymentType) && p.paymentMethod == Some(r.paymentMethod)
    && p.accountId == None && p.paymentDate == Some(r.paymentDate + time)
    && p.invoiceNumber == Some(r.invoiceNumber)
  }

  /** With the controller as written, editing a submitted payment loses its account, and
      a payment made against a quote reopens as a contract payment with no id. */
  lemma ControllerLosesQuoteAndAccount(f: PaymentForm, parse: ParseFloat, p: PaymentRecord,
                                       time: string, now: string)
    requires StoredByController(p, Submit(f, parse), time)
    ensures var g := EditForm(p, now);
            && g.accountId == ""
            && (f.sourceType == QuoteSource ==> g.sourceType == ContractSource && g.sourceId == "")
  {
  }

  /** Editing a submitted payment gives back the form it was submitted from: the source
      type and id when an id was chosen, the date when it holds no `T`, and the account,
      invoice, type and method (the last two when they were chosen). */
  lemma SubmitThenEdit(f: PaymentForm, parse: ParseFloat, p: PaymentRecord, time: string, now: string)
    requires f.sourceId != ""
    requires f.paymentDate != "" && Free(f.paymentDate, 'T')
    requires time == "" || time[0] == 'T'
    requires StoredFrom(p, Submit(f, parse), time)
    ensures var g := EditForm(p, now);
            && g.sourceType == f.sourceType && g.sourceId == f.sourceId
            && g.paymentDate == f.paymentDate
            && g.accountId == f.accountId && g.invoiceNumber == f.invoiceNumber
            && (f.paymentType != "" ==> g.paymentType == f.paymentType)
            && (f.paymentMethod != "" ==> g.paymentMethod == f.paymentMethod)
  {
    DatePartOfDate(f.paymentDate, time);
  }

  /** Submitting an edited payment that has exactly one source id sends that source
      and id back, with its type, method, account and invoice, and its date's date part. */
  lemma EditThenSubmit(p: PaymentRecord, now: string, parse: ParseFloat)
    requires (Or(p.quoteId, "") != "") != (Or(p.contractId, "") != "")
    requires Or(p.paymentType, "") != "" && Or(p.paymentMethod, "") != ""
    requires Or(p.paymentDate, "") != ""
    ensures var r := Submit(EditForm(p, now), parse);
            && (Or(p.quoteId, "") != "" ==> r.quoteId == p.quoteId && r.contractId == None)
            && (Or(p.contractId, "") != "" ==> r.contractId == p.contractId && r.quoteId == None)
            && Some(r.paymentType) == p.paymentType && Some(r.paymentMethod) == p.paymentMethod
            && r.accountId == (if Or(p.accountId, "") != "" then p.accountId else None)
            && r.invoiceNumber == Or(p.invoiceNumber, "")
            && r.paymentDate == DatePart(p.paymentDate.value)
  {
  }

  /** Choosing the other source type on the radio buttons: the chosen id is cleared and
      nothing else changes. */
  function SwitchSource(f: PaymentForm, t: SourceType): (g: PaymentForm)
    ensures g.sourceType == t && g.sourceId == ""
    ensures g.(sourceType := f.sourceType, sourceId := f.sourceId) == f
  {
    f.(sourceType := t, sourceId := "")
  }

  /** After a switch and before a new choice, the payment is sent with an empty id for
      the new source type only. */
  lemma SwitchedSubmit(f: PaymentForm, t: SourceType, parse: ParseFloat)
    ensures var r := Submit(SwitchSource(f, t), parse);
            && (t == QuoteSource ==> r.quoteId == Some("") && r.contractId == None)
            && (t == ContractSource ==> r.contractId == Some("") && r.quoteId == None)
  {
  }

  /** Quotes and contracts as the choice list loads them; a null client name prints as
      `null` in a template string. */
  datatype QuoteEntry = QuoteEntry(id: nat, clientName: Option<string>, totalAmount: Option<real>)
  datatype ContractEntry = ContractEntry(id: nat, contractNumber: string, clientName: Option<string>,
                                         totalAmount: Option<real>)

  datatype SourceOption = SourceOption(value: nat, text: string)

  /** `${value}` for a text column that may be null. */
  function Interpolate(s: Option<string>): string {
    if s.Some? then s.value else "null"
  }

  /** The label of a quote: `#id - client (amount)`. */
  function QuoteLabel(q: QuoteEntry, formatCurrency: real -> string): string {
    "#" + NatToString(q.id) + " - " + Interpolate(q.clientName) + " (" + formatCurrency(q.totalAmount.GetOr(0.0)) + ")"
  }

  /** The label of a contract: `number - client (amount)`. */
  function ContractLabel(c: ContractEntry, formatCurrency: real -> string): string {
    c.contractNumber + " - " + Interpolate(c.clientName) + " (" + formatCurrency(c.totalAmount.GetOr(0.0)) + ")"
  }

  /** `getSourceOptions`: one option per quote, or per contract, in list order, valued by
      its id. */
  function SourceOptions(t: SourceType, quotes: seq<QuoteEntry>, contracts: seq<ContractEntry>,
                         formatCurrency: real -> string): (r: seq<SourceOption>)
    ensures t == QuoteSource ==>
              |r| == |quotes| && forall i :: 0 <= i < |r| ==>
                r[i] == SourceOption(quotes[i].id, QuoteLabel(quotes[i], formatCurrency))
    ensures t == ContractSource ==>
              |r| == |contracts| && forall i :: 0 <= i < |r| ==>
                r[i] == SourceOption(contracts[i].id, ContractLabel(contracts[i], formatCurrency))
  {
    match t
    case QuoteSource =>
      seq(|quotes|, i requires 0 <= i < |quotes| => SourceOption(quotes[i].id, QuoteLabel(quotes[i], formatCurrency)))
    case ContractSource =>
      seq(|contracts|, i requires 0 <= i < |contracts| =>
            SourceOption(contracts[i].id, ContractLabel(contracts[i], formatCurrency)))
  }

  /** Every quote label starts with `#`, the quote's id and a dash, and shows the client
      and the formatted amount; every contract label starts with its number. */
  lemma SourceLabels(q: QuoteEntry, c: ContractEntry, formatCurrency: real -> string)
    ensures StartsWith(QuoteLabel(q, formatCurrency), "#" + NatToString(q.id) + " - ")
    ensures Contains(QuoteLabel(q, formatCurrency), Interpolate(q.clientName))
    ensures Contains(QuoteLabel(q, formatCurrency), " (" + formatCurrency(q.totalAmount.GetOr(0.0)) + ")")
    ensures StartsWith(ContractLabel(c, formatCurrency), c.contractNumber + " - ")
    ensures Contains(ContractLabel(c, formatCurrency), " (" + formatCurrency(c.totalAmount.GetOr(0.0)) + ")")
  {
    var name := Interpolate(q.clientName);
    var head := "#" + NatToString(q.id) + " - ";
    var money := " (" + formatCurrency(q.totalAmount.GetOr(0.0)) + ")";
    assert QuoteLabel(q, formatCurrency) == head + (name + money) == head + name + money;
    StartsWithPrefix(head, name + money);
    ContainsMiddle(head, name, money);
    ContainsMiddle(head + name, money, "");
    assert head + name + money + "" == head + name + money;
    var cname := Interpolate(c.clientName);
    var chead := c.contractNumber + " - ";
    var cmoney := " (" + formatCurrency(c.totalAmount.GetOr(0.0)) + ")";
    assert ContractLabel(c, formatCurrency) == chead + (cname + cmoney) == chead + cname + cmoney;
    StartsWithPrefix(chead, cname + cmoney);
    ContainsMiddle(chead + cname, cmoney, "");
    assert chead + cname + cmoney + "" == chead + cname + cmoney;
  }
}
