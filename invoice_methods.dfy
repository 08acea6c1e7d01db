/** The `InvoiceMethods` enums and the five enum-to-token switches of
    `APIClient` (Client/Misc_InvoicePartial.cs). In the source each switch
    starts from `string.Empty` and keeps it for a value it has no case for;
    here each table is a total function over a closed datatype, so that
    fallback cannot arise. Every table comes with its inverse (the token a
    server reads back), and the two together make it a bijection onto its
    tokens. */
module InvoiceMethods {
  import opened Wire

  datatype InvoiceSendMethod = Email | SMS | Letter | EmailLetter | SMSLetter | EFaktura | EDI
  datatype InvoiceResendMethod = Email | SMS | Letter
  datatype InvoiceReminderMethod = Email | SMS | Letter
  datatype InvoiceCreditMode = Full | Remaining | Amount | Principal | Rest
  datatype InvoiceCreditMethod = Email | SMS | Letter | Efaktura | EDI | DoNotNotify

  predicate IsLowerAscii(s: string) {
    forall i :: 0 <= i < |s| ==> 'a' <= s[i] <= 'z'
  }

  // ---------------------------------------------------------------- send

  function SendMethodToken(m: InvoiceSendMethod): (token: string)
    ensures token != ""
  {
    match m
    case Email => "Email"
    case SMS => "SMS"
    case Letter => "Letter"
    case EmailLetter => "Email+Letter"
    case SMSLetter => "SMS+Letter"
    case EFaktura => "Efaktura"
    case EDI => "EDI"
  }

  function SendMethodFromToken(token: string): (m: Option<InvoiceSendMethod>)
    ensures m.Some? ==> SendMethodToken(m.value) == token
    ensures token == "" ==> m == None
  {
    if token == "Email" then Some(InvoiceSendMethod.Email)
    else if token == "SMS" then Some(InvoiceSendMethod.SMS)
    else if token == "Letter" then Some(InvoiceSendMethod.Letter)
    else if token == "Email+Letter" then Some(InvoiceSendMethod.EmailLetter)
    else if token == "SMS+Letter" then Some(InvoiceSendMethod.SMSLetter)
    else if token == "Efaktura" then Some(InvoiceSendMethod.EFaktura)
    else if token == "EDI" then Some(InvoiceSendMethod.EDI)
    else None
  }

  lemma SendMethodRoundTrip(m: InvoiceSendMethod)
    ensures SendMethodFromToken(SendMethodToken(m)) == Some(m)
  {
  }

  /** The seven send tokens are pairwise distinct. */
  lemma SendMethodTokenInjective(a: InvoiceSendMethod, b: InvoiceSendMethod)
    ensures SendMethodToken(a) == SendMethodToken(b) <==> a == b
  {
    SendMethodRoundTrip(a);
    SendMethodRoundTrip(b);
  }

  // -------------------------------------------------------------- resend

  function ResendMethodToken(m: InvoiceResendMethod): (token: string)
    ensures token != ""
  {
    match m
    case Email => "Email"
    case SMS => "SMS"
    case Letter => "Letter"
  }

  function ResendMethodFromToken(token: string): (m: Option<InvoiceResendMethod>)
    ensures m.Some? ==> ResendMethodToken(m.value) == token
    ensures token == "" ==> m == None
  {
    if token == "Email" then Some(InvoiceResendMethod.Email)
    else if token == "SMS" then Some(InvoiceResendMethod.SMS)
    else if token == "Letter" then Some(InvoiceResendMethod.Letter)
    else None
  }

  lemma ResendMethodRoundTrip(m: InvoiceResendMethod)
    ensures ResendMethodFromToken(ResendMethodToken(m)) == Some(m)
  {
  }

  lemma ResendMethodTokenInjective(a: InvoiceResendMethod, b: InvoiceResendMethod)
    ensures ResendMethodToken(a) == ResendMethodToken(b) <==> a == b
  {
    ResendMethodRoundTrip(a);
    ResendMethodRoundTrip(b);
  }

  // ------------------------------------------------------------ reminder

  function ReminderMethodToken(m: InvoiceReminderMethod): (token: string)
    ensures token != ""
  {
    match m
    case Email => "Email"
    case SMS => "SMS"
    case Letter => "Letter"
  }

  function ReminderMethodFromToken(token: string): (m: Option<InvoiceReminderMethod>)
    ensures m.Some? ==> ReminderMethodToken(m.value) == token
    ensures token == "" ==> m == None
  {
    if token == "Email" then Some(InvoiceReminderMethod.Email)
    else if token == "SMS" then Some(InvoiceReminderMethod.SMS)
    else if token == "Letter" then Some(InvoiceReminderMethod.Letter)
    else None
  }

  lemma ReminderMethodRoundTrip(m: InvoiceReminderMethod)
    ensures ReminderMethodFromToken(ReminderMethodToken(m)) == Some(m)
  {
  }

  lemma ReminderMethodTokenInjective(a: InvoiceReminderMethod, b: InvoiceReminderMethod)
    ensures ReminderMethodToken(a) == ReminderMethodToken(b) <==> a == b
  {
    ReminderMethodRoundTrip(a);
    ReminderMethodRoundTrip(b);
  }

  /** The reminder method of the same name as a resend method. */
  function AsReminder(m: InvoiceResendMethod): InvoiceReminderMethod {
    match m
    case Email => InvoiceReminderMethod.Email
    case SMS => InvoiceReminderMethod.SMS
    case Letter => InvoiceReminderMethod.Letter
  }

  /** The resend and the reminder tables are the same table: variants of the
      same name get the same token, so a token is a resend token exactly
      when it is a reminder token, and each of them is also a send token. */
  lemma ResendAndReminderTablesAgree(m: InvoiceResendMethod, token: string)
    ensures ReminderMethodToken(AsReminder(m)) == ResendMethodToken(m)
    ensures ReminderMethodFromToken(ResendMethodToken(m)) == Some(AsReminder(m))
    ensures ResendMethodFromToken(token).Some? <==> ReminderMethodFromToken(token).Some?
    ensures ResendMethodFromToken(token).Some? ==> SendMethodFromToken(token).Some?
  {
  }

  // --------------------------------------------------------- credit mode

  /** Every credit-mode token is written in lower-case letters only. */
  function CreditModeToken(m: InvoiceCreditMode): (token: string)
    ensures token != "" && IsLowerAscii(token)
  {
    match m
    case Full => "full"
    case Remaining => "remaining"
    case Amount => "amount"
    case Principal => "principal"
    case Rest => "rest"
  }

  function CreditModeFromToken(token: string): (m: Option<InvoiceCreditMode>)
    ensures m.Some? ==> CreditModeToken(m.value) == token
    ensures !IsLowerAscii(token) ==> m == None
  {
    if token == "full" then Some(Full)
    else if token == "remaining" then Some(Remaining)
    else if token == "amount" then Some(Amount)
    else if token == "principal" then Some(Principal)
    else if token == "rest" then Some(Rest)
    else None
  }

  lemma CreditModeRoundTrip(m: InvoiceCreditMode)
    ensures CreditModeFromToken(CreditModeToken(m)) == Some(m)
  {
  }

  lemma CreditModeTokenInjective(a: InvoiceCreditMode, b: InvoiceCreditMode)
    ensures CreditModeToken(a) == CreditModeToken(b) <==> a == b
  {
    CreditModeRoundTrip(a);
    CreditModeRoundTrip(b);
  }

  // ------------------------------------------------------- credit method

  function CreditMethodToken(m: InvoiceCreditMethod): (token: string)
    ensures token != ""
  {
    match m
    case Email => "Email"
    case SMS => "SMS"
    case Letter => "Letter"
    case Efaktura => "Efaktura"
    case EDI => "EDI"
    case DoNotNotify => "DoNotNotify"
  }

  function CreditMethodFromToken(token: string): (m: Option<InvoiceCreditMethod>)
    ensures m.Some? ==> CreditMethodToken(m.value) == token
    ensures token == "" ==> m == None
  {
    if token == "Email" then Some(InvoiceCreditMethod.Email)
    else if token == "SMS" then Some(InvoiceCreditMethod.SMS)
    else if token == "Letter" then Some(InvoiceCreditMethod.Letter)
    else if token == "Efaktura" then Some(InvoiceCreditMethod.Efaktura)
    else if token == "EDI" then Some(InvoiceCreditMethod.EDI)
    else if token == "DoNotNotify" then Some(DoNotNotify)
    else None
  }

  lemma CreditMethodRoundTrip(m: InvoiceCreditMethod)
    ensures CreditMethodFromToken(CreditMethodToken(m)) == Some(m)
  {
  }

  lemma CreditMethodTokenInjective(a: InvoiceCreditMethod, b: InvoiceCreditMethod)
    ensures CreditMethodToken(a) == CreditMethodToken(b) <==> a == b
  {
    CreditMethodRoundTrip(a);
    CreditMethodRoundTrip(b);
  }

  /** The credit-method tokens other than "DoNotNotify" are exactly the ones
      that are also send tokens. */
  lemma CreditMethodTokensAreSendTokens(m: InvoiceCreditMethod)
    ensures m != DoNotNotify <==> SendMethodFromToken(CreditMethodToken(m)).Some?
  {
  }

  // ----------------------------------------------------------- letter case

  /** The credit modes are the only lower-case tokens the client sends:
      every send, resend, reminder and credit-method token holds a capital. */
  lemma OnlyCreditModesAreLowerCase(s: InvoiceSendMethod, r: InvoiceResendMethod,
                                    n: InvoiceReminderMethod, c: InvoiceCreditMethod)
    ensures !IsLowerAscii(SendMethodToken(s))
    ensures !IsLowerAscii(ResendMethodToken(r))
    ensures !IsLowerAscii(ReminderMethodToken(n))
    ensures !IsLowerAscii(CreditMethodToken(c))
  {
    assert SendMethodToken(s)[0] < 'a';
    assert ResendMethodToken(r)[0] < 'a';
    assert ReminderMethodToken(n)[0] < 'a';
    assert CreditMethodToken(c)[0] < 'a';
  }
}
