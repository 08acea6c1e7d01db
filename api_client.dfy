/** The command methods of `APIClient` (Client/Misc_InvoicePartial.cs).
    Each method is one constructor of `Command` carrying the method's
    arguments; `BuildRequest` is what the method computes before the POST
    and `Invoke` is what it makes of the outcome. Only `SendInvoice` and
    `WriteDownInvoice` call `EnsureSuccessStatusCode`; the other twelve
    deserialize whatever body comes back. */
module APIClient {
  import opened Wire
  import opened InvoiceMethods

  datatype Command =
    | SendInvoice(sendMethod: InvoiceSendMethod)
    | SellInvoice
    | ReSendInvoice(resendMethod: InvoiceResendMethod)
    | SendInvoiceReminder(reminderMethod: InvoiceReminderMethod, message: string)
    | SendInvoiceToCollector
    | RegisterPaymentToInvoice(amount: Double)
    | CreditInvoice(amount: Double, creditMode: InvoiceCreditMode, creditMethod: InvoiceCreditMethod)
    | WriteOffInvoice
    | WriteDownInvoice
    | RevertWriteDown
    | SetInvoiceRespite(date: string)
    | RemoveInvoiceRespite
    | AddMessageToInvoice(message: string)
    | AddPDFAttachmentToInvoice(filename: string, content: string)

  /** The last segment of the command URL. */
  function Action(c: Command): string {
    match c
    case SendInvoice(_) => "send"
    case SellInvoice => "sell"
    case ReSendInvoice(_) => "resend"
    case SendInvoiceReminder(_, _) => "remind"
    case SendInvoiceToCollector => "collect"
    case RegisterPaymentToInvoice(_) => "payment"
    case CreditInvoice(_, _, _) => "credit"
    case WriteOffInvoice => "writeoff"
    case WriteDownInvoice => "writedown"
    case RevertWriteDown => "revert-writedown"
    case SetInvoiceRespite(_) => "respite"
    case RemoveInvoiceRespite => "remove-respite"
    case AddMessageToInvoice(_) => "message"
    case AddPDFAttachmentToInvoice(_, _) => "attach"
  }

  /** The fields of the anonymous object each method serializes. The respite
      date is the text `BillogramDate.Format()` gave. */
  function Payload(c: Command): Payload {
    match c
    case SendInvoice(m) => [Field("method", Text(SendMethodToken(m)))]
    case ReSendInvoice(m) => [Field("method", Text(ResendMethodToken(m)))]
    case SendInvoiceReminder(m, message) =>
      [Field("method", Text(ReminderMethodToken(m))), Field("message", Text(message))]
    case RegisterPaymentToInvoice(amount) => [Field("amount", Number(amount))]
    case CreditInvoice(amount, mode, how) =>
      [Field("amount", Number(amount)), Field("mode", Text(CreditModeToken(mode))),
       Field("method", Text(CreditMethodToken(how)))]
    case SetInvoiceRespite(date) => [Field("date", Text(date))]
    case AddMessageToInvoice(message) => [Field("message", Text(message))]
    case AddPDFAttachmentToInvoice(filename, content) =>
      [Field("filename", Text(filename)), Field("content", Text(content))]
    case _ => []
  }

  /** The field names the Billogram API documents for each command. */
  function DocumentedFields(c: Command): seq<string> {
    if c.SendInvoice? || c.ReSendInvoice? then ["method"]
    else if c.SendInvoiceReminder? then ["method", "message"]
    else if c.RegisterPaymentToInvoice? then ["amount"]
    else if c.CreditInvoice? then ["amount", "mode", "method"]
    else if c.SetInvoiceRespite? then ["date"]
    else if c.AddMessageToInvoice? then ["message"]
    else if c.AddPDFAttachmentToInvoice? then ["filename", "content"]
    else []
  }

  /** Both arguments name the same method of the client, whatever its arguments. */
  predicate SameMethod(c1: Command, c2: Command) {
    || (c1.SendInvoice? && c2.SendInvoice?)
    || (c1.SellInvoice? && c2.SellInvoice?)
    || (c1.ReSendInvoice? && c2.ReSendInvoice?)
    || (c1.SendInvoiceReminder? && c2.SendInvoiceReminder?)
    || (c1.SendInvoiceToCollector? && c2.SendInvoiceToCollector?)
    || (c1.RegisterPaymentToInvoice? && c2.RegisterPaymentToInvoice?)
    || (c1.CreditInvoice? && c2.CreditInvoice?)
    || (c1.WriteOffInvoice? && c2.WriteOffInvoice?)
    || (c1.WriteDownInvoice? && c2.WriteDownInvoice?)
    || (c1.RevertWriteDown? && c2.RevertWriteDown?)
    || (c1.SetInvoiceRespite? && c2.SetInvoiceRespite?)
    || (c1.RemoveInvoiceRespite? && c2.RemoveInvoiceRespite?)
    || (c1.AddMessageToInvoice? && c2.AddMessageToInvoice?)
    || (c1.AddPDFAttachmentToInvoice? && c2.AddPDFAttachmentToInvoice?)
  }

  /** The fourteen action segments are pairwise distinct. */
  lemma ActionsDistinct(c1: Command, c2: Command)
    ensures Action(c1) == Action(c2) <==> SameMethod(c1, c2)
  {
  }

  /** What a command method computes from `m_APIBaseURL`, the invoice id and
      its arguments before it posts: the command URL with the id verbatim,
      and a body carrying exactly the documented fields, in which no enum
      token is the empty string. */
  function BuildRequest(baseUrl: string, id: string, c: Command): (r: Request)
    ensures r.url == baseUrl + "/billogram/" + id + "/command/" + Action(c)
    ensures FieldNames(r.payload) == DocumentedFields(c)
    ensures forall i :: 0 <= i < |r.payload| && r.payload[i].name in {"method", "mode"} ==>
              r.payload[i].value.Text? && r.payload[i].value.text != ""
  {
    Request(CommandUrl(baseUrl, id, Action(c)), Payload(c))
  }

  /** The text of field `i` when it is named `name` and holds text. */
  function TextAt(p: Payload, i: nat, name: string): Option<string> {
    if i < |p| && p[i].name == name && p[i].value.Text? then Some(p[i].value.text) else None
  }

  function NumberAt(p: Payload, i: nat, name: string): Option<Double> {
    if i < |p| && p[i].name == name && p[i].value.Number? then Some(p[i].value.number) else None
  }

  /** Reads a command back from its action segment and body: the command a
      server receiving this request would execute. */
  function DecodeCommand(action: string, p: Payload): (r: Option<Command>)
    ensures r.Some? ==> Action(r.value) == action && Payload(r.value) == p
  {
    if action == "send" then DecodeSend(p)
    else if action == "resend" then DecodeResend(p)
    else if action == "remind" then DecodeRemind(p)
    else if action == "payment" then DecodePayment(p)
    else if action == "credit" then DecodeCredit(p)
    else if action == "respite" then DecodeRespite(p)
    else if action == "message" then DecodeMessage(p)
    else if action == "attach" then DecodeAttach(p)
    else if p != [] then None
    else if action == "sell" then Some(SellInvoice)
    else if action == "collect" then Some(SendInvoiceToCollector)
    else if action == "writeoff" then Some(WriteOffInvoice)
    else if action == "writedown" then Some(WriteDownInvoice)
    else if action == "revert-writedown" then Some(RevertWriteDown)
    else if action == "remove-respite" then Some(RemoveInvoiceRespite)
    else None
  }

  function DecodeSend(p: Payload): (r: Option<Command>)
    ensures r.Some? ==> r.value.SendInvoice? && Payload(r.value) == p
  {
    if |p| != 1 || TextAt(p, 0, "method").None? then None
    else match SendMethodFromToken(TextAt(p, 0, "method").value)
      case None => None
      case Some(m) => Some(SendInvoice(m))
  }

  function DecodeResend(p: Payload): (r: Option<Command>)
    ensures r.Some? ==> r.value.ReSendInvoice? && Payload(r.value) == p
  {
    if |p| != 1 || TextAt(p, 0, "method").None? then None
    else match ResendMethodFromToken(TextAt(p, 0, "method").value)
      case None => None
      case Some(m) => Some(ReSendInvoice(m))
  }

  function DecodeRemind(p: Payload): (r: Option<Command>)
    ensures r.Some? ==> r.value.SendInvoiceReminder? && Payload(r.value) == p
  {
    if |p| != 2 || TextAt(p, 0, "method").None? || TextAt(p, 1, "message").None? then None
    else match ReminderMethodFromToken(TextAt(p, 0, "method").value)
      case None => None
      case Some(m) => Some(SendInvoiceReminder(m, TextAt(p, 1, "message").value))
  }

  function DecodePayment(p: Payload): (r: Option<Command>)
    ensures r.Some? ==> r.value.RegisterPaymentToInvoice? && Payload(r.value) == p
  {
    if |p| != 1 || NumberAt(p, 0, "amount").None? then None
    else Some(RegisterPaymentToInvoice(NumberAt(p, 0, "amount").value))
  }

  function DecodeCredit(p: Payload): (r: Option<Command>)
    ensures r.Some? ==> r.value.CreditInvoice? && Payload(r.value) == p
  {
    if |p| != 3 || NumberAt(p, 0, "amount").None? || TextAt(p, 1, "mode").None? || TextAt(p, 2, "method").None? then None
    else match (CreditModeFromToken(TextAt(p, 1, "mode").value), CreditMethodFromToken(TextAt(p, 2, "method").value))
      case (Some(mode), Some(how)) => Some(CreditInvoice(NumberAt(p, 0, "amount").value, mode, how))
      case _ => None
  }

  function DecodeRespite(p: Payload): (r: Option<Command>)
    ensures r.Some? ==> r.value.SetInvoiceRespite? && Payload(r.value) == p
  {
    if |p| != 1 || TextAt(p, 0, "date").None? then None
    else Some(SetInvoiceRespite(TextAt(p, 0, "date").value))
  }

  function DecodeMessage(p: Payload): (r: Option<Command>)
    ensures r.Some? ==> r.value.AddMessageToInvoice? && Payload(r.value) == p
  {
    if |p| != 1 || TextAt(p, 0, "message").None? then None
    else Some(AddMessageToInvoice(TextAt(p, 0, "message").value))
  }

  function DecodeAttach(p: Payload): (r: Option<Command>)
    ensures r.Some? ==> r.value.AddPDFAttachmentToInvoice? && Payload(r.value) == p
  {
    if |p| != 2 || TextAt(p, 0, "filename").None? || TextAt(p, 1, "content").None? then None
    else Some(AddPDFAttachmentToInvoice(TextAt(p, 0, "filename").value, TextAt(p, 1, "content").value))
  }

  lemma DecodeCommandRoundTrip(c: Command)
    ensures DecodeCommand(Action(c), Payload(c)) == Some(c)
  {
    match c
    case SendInvoice(m) =>
      SendMethodRoundTrip(m);
      assert DecodeSend(Payload(c)) == Some(c);
    case ReSendInvoice(m) =>
      ResendMethodRoundTrip(m);
      assert DecodeResend(Payload(c)) == Some(c);
    case SendInvoiceReminder(m, _) =>
      ReminderMethodRoundTrip(m);
      assert DecodeRemind(Payload(c)) == Some(c);
    case CreditInvoice(_, mode, how) =>
      CreditModeRoundTrip(mode);
      CreditMethodRoundTrip(how);
      assert DecodeCredit(Payload(c)) == Some(c);
    case _ =>
  }

  /** The action and the body together determine the command. */
  lemma CommandDeterminedByActionAndPayload(c1: Command, c2: Command)
    requires Action(c1) == Action(c2) && Payload(c1) == Payload(c2)
    ensures c1 == c2
  {
    DecodeCommandRoundTrip(c1);
    DecodeCommandRoundTrip(c2);
  }

  /** The id and command a server would read out of a request. */
  function ParseRequest(baseUrl: string, req: Request): (r: Option<(string, Command)>)
    ensures r.Some? ==> NoSlash(r.value.0) && req == BuildRequest(baseUrl, r.value.0, r.value.1)
  {
    match ParseCommandUrl(baseUrl, req.url)
    case None => None
    case Some((id, action)) =>
      match DecodeCommand(action, req.payload)
      case None => None
      case Some(c) => Some((id, c))
  }

  /** For an id without '/', the request determines the id and the call,
      arguments included. */
  lemma RequestRoundTrip(baseUrl: string, id: string, c: Command)
    requires NoSlash(id)
    ensures ParseRequest(baseUrl, BuildRequest(baseUrl, id, c)) == Some((id, c))
  {
    UrlRoundTrip(baseUrl, id, Action(c));
    DecodeCommandRoundTrip(c);
  }

  lemma ActionHasNoSlash(c: Command)
    ensures NoSlash(Action(c))
  {
  }

  /** Distinct calls never produce the same request, whatever the ids hold. */
  lemma RequestInjective(baseUrl: string, id1: string, c1: Command, id2: string, c2: Command)
    requires BuildRequest(baseUrl, id1, c1) == BuildRequest(baseUrl, id2, c2)
    ensures id1 == id2 && c1 == c2
  {
    ActionHasNoSlash(c1);
    ActionHasNoSlash(c2);
    UrlInjective(baseUrl, id1, Action(c1), id2, Action(c2));
    CommandDeterminedByActionAndPayload(c1, c2);
  }

  /** Whether the method calls `EnsureSuccessStatusCode` before reading the body. */
  predicate ChecksStatus(c: Command) {
    c.SendInvoice? || c.WriteDownInvoice?
  }

  /** The method's result for a given outcome of its POST and a given
      deserializer: nothing on a transport failure; nothing on a non-success
      status only for `SendInvoice` and `WriteDownInvoice`; otherwise exactly
      what the deserializer makes of the body, never part of it. */
  function Invoke<T>(c: Command, exchange: Exchange, parse: string -> Option<T>): (r: Option<T>)
    ensures r.Some? ==> exchange.Answered? && r == parse(exchange.body)
    ensures exchange.TransportFailure? ==> r == None
    ensures exchange.Answered? && !IsSuccessStatus(exchange.status) && (c.SendInvoice? || c.WriteDownInvoice?) ==> r == None
    ensures exchange.Answered? && !(c.SendInvoice? || c.WriteDownInvoice?) ==> r == parse(exchange.body)
    ensures exchange.Answered? && IsSuccessStatus(exchange.status) ==> r == parse(exchange.body)
  {
    Dispatch(ChecksStatus(c), exchange, parse)
  }

  /** A method ignores a failed status exactly when it is not `SendInvoice`
      or `WriteDownInvoice`: for the others a 500 answer with a body the
      deserializer accepts still yields a result. */
  lemma StatusCheckedOnlyBySendAndWriteDown(c: Command, body: string, parse: string -> Option<int>)
    requires parse(body).Some?
    ensures Invoke(c, Answered(500, body), parse).Some? <==> !(c.SendInvoice? || c.WriteDownInvoice?)
  {
  }
}
