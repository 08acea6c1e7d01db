/** The command methods of `BillogramClient` (Client/InvoicePart.cs), a
    second copy of seven `APIClient` methods with its own switches and its
    own URL literals, built on `m_baseURL`. Unlike `APIClient`, every one of
    them calls `EnsureSuccessStatusCode` before reading the body. Its two
    `RegisterPaymentToInvoice` overloads are `RegisterPaymentToInvoice` and
    `RegisterPaymentToInvoiceWithCredit` here; the second posts a credit. */
module BillogramClient {
  import opened Wire
  import opened InvoiceMethods
  import APIClient

  datatype Call =
    | SendInvoice(sendMethod: InvoiceSendMethod)
    | SellInvoice
    | ReSendInvoice(resendMethod: InvoiceResendMethod)
    | SendInvoiceReminder(reminderMethod: InvoiceReminderMethod, message: string)
    | SendInvoiceToCollector
    | RegisterPaymentToInvoice(amount: Double)
    | RegisterPaymentToInvoiceWithCredit(amount: Double, creditMode: InvoiceCreditMode, creditMethod: InvoiceCreditMethod)

  // The five switches of this file, each written out again as in the source.

  function SendMethodToken(m: InvoiceSendMethod): string {
    match m
    case Email => "Email"
    case SMS => "SMS"
    case Letter => "Letter"
    case EmailLetter => "Email+Letter"
    case SMSLetter => "SMS+Letter"
    case EFaktura => "Efaktura"
    case EDI => "EDI"
  }

  function ResendMethodToken(m: InvoiceResendMethod): string {
    match m
    case Email => "Email"
    case SMS => "SMS"
    case Letter => "Letter"
  }

  function ReminderMethodToken(m: InvoiceReminderMethod): string {
    match m
    case Email => "Email"
    case SMS => "SMS"
    case Letter => "Letter"
  }

  function CreditModeToken(m: InvoiceCreditMode): string {
    match m
    case Full => "full"
    case Remaining => "remaining"
    case Amount => "amount"
    case Principal => "principal"
    case Rest => "rest"
  }

  function CreditMethodToken(m: InvoiceCreditMethod): string {
    match m
    case Email => "Email"
    case SMS => "SMS"
    case Letter => "Letter"
    case Efaktura => "Efaktura"
    case EDI => "EDI"
    case DoNotNotify => "DoNotNotify"
  }

  /** This file's send table is the same seven-entry, non-empty, injective
      map as `APIClient`'s, entry for entry. */
  lemma SendTableAgrees(m: InvoiceSendMethod)
    ensures SendMethodToken(m) == InvoiceMethods.SendMethodToken(m)
    ensures SendMethodToken(m) != ""
    ensures InvoiceMethods.SendMethodFromToken(SendMethodToken(m)) == Some(m)
  {
    InvoiceMethods.SendMethodRoundTrip(m);
  }

  /** Its resend and reminder tables map Email, SMS and Letter to the
      identically named tokens, like `APIClient`'s. */
  lemma ResendAndReminderTablesAgree(r: InvoiceResendMethod, n: InvoiceReminderMethod)
    ensures ResendMethodToken(r) == InvoiceMethods.ResendMethodToken(r)
    ensures ReminderMethodToken(n) == InvoiceMethods.ReminderMethodToken(n)
    ensures InvoiceMethods.ResendMethodFromToken(ResendMethodToken(r)) == Some(r)
    ensures InvoiceMethods.ReminderMethodFromToken(ReminderMethodToken(n)) == Some(n)
  {
    InvoiceMethods.ResendMethodRoundTrip(r);
    InvoiceMethods.ReminderMethodRoundTrip(n);
  }

  /** Its credit-mode and credit-method tables agree variant for variant. */
  lemma CreditTablesAgree(mode: InvoiceCreditMode, how: InvoiceCreditMethod)
    ensures CreditModeToken(mode) == InvoiceMethods.CreditModeToken(mode)
    ensures CreditMethodToken(how) == InvoiceMethods.CreditMethodToken(how)
    ensures InvoiceMethods.CreditModeFromToken(CreditModeToken(mode)) == Some(mode)
    ensures InvoiceMethods.CreditMethodFromToken(CreditMethodToken(how)) == Some(how)
  {
    InvoiceMethods.CreditModeRoundTrip(mode);
    InvoiceMethods.CreditMethodRoundTrip(how);
  }

  /** The action segment each method writes into its URL. */
  function Action(c: Call): string {
    match c
    case SendInvoice(_) => "send"
    case SellInvoice => "sell"
    case ReSendInvoice(_) => "resend"
    case SendInvoiceReminder(_, _) => "remind"
    case SendInvoiceToCollector => "collect"
    case RegisterPaymentToInvoice(_) => "payment"
    case RegisterPaymentToInvoiceWithCredit(_, _, _) => "credit"
  }

  function Payload(c: Call): Payload {
    match c
    case SendInvoice(m) => [Field("method", Text(SendMethodToken(m)))]
    case ReSendInvoice(m) => [Field("method", Text(ResendMethodToken(m)))]
    case SendInvoiceReminder(m, message) =>
      [Field("method", Text(ReminderMethodToken(m))), Field("message", Text(message))]
    case RegisterPaymentToInvoice(amount) => [Field("amount", Number(amount))]
    case RegisterPaymentToInvoiceWithCredit(amount, mode, how) =>
      [Field("amount", Number(amount)), Field("mode", Text(CreditModeToken(mode))),
       Field("method", Text(CreditMethodToken(how)))]
    case _ => []
  }

  /** The `APIClient` command that posts the same thing. */
  function AsCommand(c: Call): APIClient.Command {
    match c
    case SendInvoice(m) => APIClient.SendInvoice(m)
    case SellInvoice => APIClient.SellInvoice
    case ReSendInvoice(m) => APIClient.ReSendInvoice(m)
    case SendInvoiceReminder(m, message) => APIClient.SendInvoiceReminder(m, message)
    case SendInvoiceToCollector => APIClient.SendInvoiceToCollector
    case RegisterPaymentToInvoice(amount) => APIClient.RegisterPaymentToInvoice(amount)
    case RegisterPaymentToInvoiceWithCredit(amount, mode, how) => APIClient.CreditInvoice(amount, mode, how)
  }

  /** What a method computes from `m_baseURL`, the id and its arguments:
      exactly the request the corresponding `APIClient` method builds, so
      the two files agree on URL shape, action and payload. */
  function BuildRequest(baseUrl: string, id: string, c: Call): (r: Request)
    ensures r == APIClient.BuildRequest(baseUrl, id, AsCommand(c))
    ensures r.url == baseUrl + "/billogram/" + id + "/command/" + Action(c)
  {
    Request(CommandUrl(baseUrl, id, Action(c)), Payload(c))
  }

  /** The four-argument `RegisterPaymentToInvoice` is a credit, not a
      payment: it posts to `command/credit` with amount, mode and method,
      while the two-argument one posts to `command/payment` with the amount
      alone; the two never build the same request. */
  lemma CreditOverloadIsCredit(baseUrl: string, id: string, amount: Double, mode: InvoiceCreditMode, how: InvoiceCreditMethod)
    ensures BuildRequest(baseUrl, id, RegisterPaymentToInvoiceWithCredit(amount, mode, how))
         == APIClient.BuildRequest(baseUrl, id, APIClient.CreditInvoice(amount, mode, how))
    ensures FieldNames(BuildRequest(baseUrl, id, RegisterPaymentToInvoiceWithCredit(amount, mode, how)).payload)
         == ["amount", "mode", "method"]
    ensures FieldNames(BuildRequest(baseUrl, id, RegisterPaymentToInvoice(amount)).payload) == ["amount"]
    ensures BuildRequest(baseUrl, id, RegisterPaymentToInvoiceWithCredit(amount, mode, how))
         != BuildRequest(baseUrl, id, RegisterPaymentToInvoice(amount))
  {
    var credit := RegisterPaymentToInvoiceWithCredit(amount, mode, how);
    var payment := RegisterPaymentToInvoice(amount);
    assert |BuildRequest(baseUrl, id, credit).payload| != |BuildRequest(baseUrl, id, payment).payload|;
  }

  /** Every method checks the status: nothing on a transport failure or a
      non-success status, and otherwise exactly what the deserializer makes
      of the body. `ReSendInvoice` deserializes into the invoice type like
      its siblings. */
  function Invoke<T>(c: Call, exchange: Exchange, parse: string -> Option<T>): (r: Option<T>)
    ensures r.Some? ==> exchange.Answered? && IsSuccessStatus(exchange.status) && r == parse(exchange.body)
    ensures exchange.TransportFailure? ==> r == None
    ensures exchange.Answered? && !IsSuccessStatus(exchange.status) ==> r == None
    ensures exchange.Answered? && IsSuccessStatus(exchange.status) ==> r == parse(exchange.body)
  {
    Dispatch(true, exchange, parse)
  }

  /** The two clients give the same result for the same call except on a
      non-success status, where `BillogramClient` gives nothing and
      `APIClient` (for every call but `SendInvoice`) still returns what the
      deserializer accepts. */
  lemma ClientsDifferOnlyOnFailedStatus<T>(c: Call, exchange: Exchange, parse: string -> Option<T>)
    ensures exchange.TransportFailure? || IsSuccessStatus(exchange.status) || c.SendInvoice?
            ==> Invoke(c, exchange, parse) == APIClient.Invoke(AsCommand(c), exchange, parse)
    ensures exchange.Answered? && !IsSuccessStatus(exchange.status) && !c.SendInvoice? && parse(exchange.body).Some?
            ==> Invoke(c, exchange, parse) != APIClient.Invoke(AsCommand(c), exchange, parse)
  {
  }
}
