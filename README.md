# Billogram invoice client: request building, verified

This project models the request-building layer of a C# client for the
Billogram invoicing REST API, and proves properties of it in Dafny. Every
command method of the client does three things. It maps its enum arguments
to the wire tokens the service expects. It builds the URL
`{base}/billogram/{id}/command/{action}` and a JSON body with a fixed set of
fields. It posts, and then turns the outcome into an invoice or `null`. The
report-list query builder turns its enum fields into `&key=value`
parameters.

Modules:

- `Wire` (wire.dfy) holds what both clients share. A request is a URL plus
  an ordered list of named fields. The outcome of a POST is a transport
  failure or a `(status, body)` pair. `ParseCommandUrl` reads the id and
  action back out of a URL. `Dispatch` is the try/catch tail that every
  command method repeats.
- `InvoiceMethods` (invoice_methods.dfy) declares the five `InvoiceMethods`
  enums once. It also holds the five token tables of `APIClient`, each with
  an inverse.
- `APIClient` (api_client.dfy) models the 14 command methods of
  Client/Misc_InvoicePartial.cs. Each method is a constructor of `Command`.
  `BuildRequest` is what a method computes before the POST. `DecodeCommand`
  and `ParseRequest` read a request back. `Invoke` is the method's result.
- `BillogramClient` (billogram_client.dfy) models the 7 methods of
  Client/InvoicePart.cs. This file has its own copies of the switches and
  URL literals. Lemmas prove that they agree with `APIClient`.
- `ReportsQuery` (reports_query.dfy) models `FilterParam`, `OrderParam` and
  `Param` of Query/ReportsParamQuery.cs over a record of the fields they
  read.

Only two methods of Client/Misc_InvoicePartial.cs call
`EnsureSuccessStatusCode`: `SendInvoice` (line 49) and `WriteDownInvoice`
(line 307). The other twelve deserialize whatever body comes back, whatever
the status. `APIClient.Invoke` models that. `BillogramClient` checks the
status in all seven of its methods, and `BillogramClient.Invoke` models
that. The code never checks the invoice id, so the model accepts any id.

## Model

| member | source | states |
|---|---|---|
| `InvoiceMethods.SendMethodToken` | Client/Misc_InvoicePartial.cs:17-41 | every send method maps to a non-empty token, so the `string.Empty` start value never reaches the wire |
| `InvoiceMethods.SendMethodFromToken` | Client/Misc_InvoicePartial.cs:17-41 | inverse table: a token it accepts is the token of the method it returns; the empty token is rejected |
| `InvoiceMethods.SendMethodRoundTrip` | Client/Misc_InvoicePartial.cs:17-41 | reading back the token of any send method gives that method |
| `InvoiceMethods.SendMethodTokenInjective` | Client/Misc_InvoicePartial.cs:17-41 | the seven send tokens are pairwise distinct: equal tokens iff equal methods |
| `InvoiceMethods.ResendMethodToken` | Client/Misc_InvoicePartial.cs:89-101 | every resend method maps to a non-empty token |
| `InvoiceMethods.ResendMethodFromToken` | Client/Misc_InvoicePartial.cs:89-101 | inverse of the resend table; rejects the empty token |
| `InvoiceMethods.ResendMethodTokenInjective` | Client/Misc_InvoicePartial.cs:89-101 | the three resend tokens are distinct |
| `InvoiceMethods.ReminderMethodToken` | Client/Misc_InvoicePartial.cs:127-139 | every reminder method maps to a non-empty token |
| `InvoiceMethods.ReminderMethodFromToken` | Client/Misc_InvoicePartial.cs:127-139 | inverse of the reminder table; rejects the empty token |
| `InvoiceMethods.ReminderMethodTokenInjective` | Client/Misc_InvoicePartial.cs:127-139 | the three reminder tokens are distinct |
| `InvoiceMethods.ResendAndReminderTablesAgree` | Client/Misc_InvoicePartial.cs:89-139 | the two tables are the same table: each resend method and the reminder method of the same name get the same token, which reads back as that reminder method; the two tables accept exactly the same tokens, and each is also a send token |
| `InvoiceMethods.CreditModeToken` | Client/Misc_InvoicePartial.cs:212-232 | every credit mode maps to a non-empty, all lower-case token |
| `InvoiceMethods.CreditModeFromToken` | Client/Misc_InvoicePartial.cs:212-232 | inverse of the credit-mode table; rejects any token that is not all lower-case |
| `InvoiceMethods.CreditModeTokenInjective` | Client/Misc_InvoicePartial.cs:212-232 | the five credit-mode tokens are distinct |
| `InvoiceMethods.CreditMethodToken` | Client/Misc_InvoicePartial.cs:235-255 | every credit method maps to a non-empty token |
| `InvoiceMethods.CreditMethodFromToken` | Client/Misc_InvoicePartial.cs:235-255 | inverse of the credit-method table; rejects the empty token |
| `InvoiceMethods.CreditMethodTokenInjective` | Client/Misc_InvoicePartial.cs:235-255 | the six credit-method tokens are distinct |
| `InvoiceMethods.OnlyCreditModesAreLowerCase` | Client/Misc_InvoicePartial.cs:17-255 | no send, resend, reminder or credit-method token is all lower-case, so the credit modes are the only lower-case tokens the client sends |
| `InvoiceMethods.CreditMethodTokensAreSendTokens` | Client/Misc_InvoicePartial.cs:235-255 | a credit-method token is also a send token exactly when it is not "DoNotNotify" |
| `Wire.CommandUrl` | Client/Misc_InvoicePartial.cs:43 | the URL starts with the base, holds the id unchanged right after `/billogram/`, ends with the action, and adds exactly the two fixed segments to their lengths |
| `Wire.ParseCommandUrl` | Client/Misc_InvoicePartial.cs:43 | a URL it accepts is exactly the command URL of the id and action it returns, with an id free of '/' |
| `Wire.UrlRoundTrip` | Client/Misc_InvoicePartial.cs:43 | for an id without '/', the id and action are read back from the URL unchanged (the id goes in verbatim) |
| `Wire.UrlInjective` | Client/Misc_InvoicePartial.cs:43 | for actions without '/', two command URLs are equal only if the ids and the actions are equal, whatever the ids hold |
| `Wire.SlashInIdBreaksRoute` | Client/Misc_InvoicePartial.cs:43 | the id is not escaped, so the URL for the id `a/b` no longer reads back as a command on one resource |
| `Wire.Dispatch` | Client/Misc_InvoicePartial.cs:46-57 | a transport failure gives nothing; with the status check, so does a non-success status; otherwise the result is the deserializer's answer for the body, whole |
| `APIClient.Action` | Client/Misc_InvoicePartial.cs:43-416 | no contract; the 14 action literals of the URLs, constrained by `APIClient.ActionsDistinct` and `APIClient.ActionHasNoSlash` |
| `APIClient.ActionHasNoSlash` | Client/Misc_InvoicePartial.cs:43-416 | no action literal contains '/', so the action is the last URL segment |
| `APIClient.Payload` | Client/Misc_InvoicePartial.cs:44-417 | no contract; the anonymous object each method serializes, constrained by `APIClient.BuildRequest` (field names) and `APIClient.DecodeCommandRoundTrip` (values) |
| `APIClient.ActionsDistinct` | Client/Misc_InvoicePartial.cs:43-416 | two commands have the same action segment iff they are the same client method; the 14 segments are pairwise distinct |
| `APIClient.BuildRequest` | Client/Misc_InvoicePartial.cs:15-430 | the URL is `base + "/billogram/" + id + "/command/" + action`; the body's field names are exactly the command's documented fields, in order; no method or mode field is empty |
| `APIClient.DecodeCommand` | Client/Misc_InvoicePartial.cs:15-430 | a command read back from an action and body has that action and rebuilds exactly that body |
| `APIClient.DecodeCommandRoundTrip` | Client/Misc_InvoicePartial.cs:15-430 | the action and body of any command read back as that command, arguments included |
| `APIClient.CommandDeterminedByActionAndPayload` | Client/Misc_InvoicePartial.cs:15-430 | two commands with the same action and the same body are the same command |
| `APIClient.ParseRequest` | Client/Misc_InvoicePartial.cs:15-430 | a request it accepts is exactly the request built from the id and command it returns |
| `APIClient.RequestRoundTrip` | Client/Misc_InvoicePartial.cs:15-430 | for an id without '/', the request built for a call reads back as that id and call |
| `APIClient.RequestInjective` | Client/Misc_InvoicePartial.cs:15-430 | two calls build the same request only if id, method and arguments are all equal |
| `APIClient.ChecksStatus` | Client/Misc_InvoicePartial.cs:49 | no contract; the methods that call `EnsureSuccessStatusCode` (send at line 49, writedown at line 307), constrained by `APIClient.StatusCheckedOnlyBySendAndWriteDown` |
| `APIClient.Invoke` | Client/Misc_InvoicePartial.cs:46-80 | a result is always the deserializer's answer for a received body. A transport failure gives nothing. A non-success status gives nothing for `SendInvoice` and `WriteDownInvoice`. For the other twelve the body is parsed whatever the status |
| `APIClient.StatusCheckedOnlyBySendAndWriteDown` | Client/Misc_InvoicePartial.cs:299-316 | with a 500 answer whose body deserializes, a command returns a result iff it is neither `SendInvoice` nor `WriteDownInvoice` |
| `BillogramClient.SendMethodToken` | Client/InvoicePart.cs:16-40 | no contract; this file's send switch, constrained by `BillogramClient.SendTableAgrees` |
| `BillogramClient.ResendMethodToken` | Client/InvoicePart.cs:78-90 | no contract; this file's resend switch, constrained by `BillogramClient.ResendAndReminderTablesAgree` |
| `BillogramClient.ReminderMethodToken` | Client/InvoicePart.cs:110-122 | no contract; this file's reminder switch, constrained by `BillogramClient.ResendAndReminderTablesAgree` |
| `BillogramClient.CreditModeToken` | Client/InvoicePart.cs:182-200 | no contract; this file's credit-mode switch, constrained by `BillogramClient.CreditTablesAgree` |
| `BillogramClient.CreditMethodToken` | Client/InvoicePart.cs:202-222 | no contract; this file's credit-method switch, constrained by `BillogramClient.CreditTablesAgree` |
| `BillogramClient.Action` | Client/InvoicePart.cs:42-224 | no contract; the 7 action literals of this file's URLs, constrained by `BillogramClient.BuildRequest` |
| `BillogramClient.Payload` | Client/InvoicePart.cs:43-225 | no contract; the anonymous objects this file serializes, constrained by `BillogramClient.BuildRequest` and `BillogramClient.CreditOverloadIsCredit` |
| `BillogramClient.SendTableAgrees` | Client/InvoicePart.cs:16-40 | this file's send table equals `APIClient`'s entry for entry, is never empty and reads back to the same variant |
| `BillogramClient.ResendAndReminderTablesAgree` | Client/InvoicePart.cs:78-122 | its resend and reminder tables equal `APIClient`'s and map Email, SMS and Letter to the identically named tokens |
| `BillogramClient.CreditTablesAgree` | Client/InvoicePart.cs:182-222 | its credit-mode and credit-method tables agree with `APIClient`'s variant for variant |
| `BillogramClient.BuildRequest` | Client/InvoicePart.cs:14-239 | each of the 7 methods builds exactly the request of the corresponding `APIClient` command, on the same `/billogram/{id}/command/{action}` shape |
| `BillogramClient.CreditOverloadIsCredit` | Client/InvoicePart.cs:158-239 | the four-argument `RegisterPaymentToInvoice` posts a credit request (`command/credit`, fields amount, mode, method), and it never equals the two-argument overload's request (`command/payment`, field amount) |
| `BillogramClient.Invoke` | Client/InvoicePart.cs:45-56 | every method checks the status: a result implies a received success status and is the deserializer's answer for the body |
| `BillogramClient.ClientsDifferOnlyOnFailedStatus` | Client/InvoicePart.cs:45-56 | the two clients agree on every outcome except a non-success status. There, for every call but `SendInvoice`, `APIClient` returns what the deserializer accepts and `BillogramClient` returns nothing |
| `ReportsQuery.FilterTypeName` | Query/ReportsParamQuery.cs:21-32 | no contract; the `filter_type` values, constrained by `ReportsQuery.FilterTypeParam` and `ReportsQuery.FilterFragmentsDistinct` |
| `ReportsQuery.OrderFieldName` | Query/ReportsParamQuery.cs:49-54 | no contract; the `order_field` values, constrained by `ReportsQuery.OrderParam` and `ReportsQuery.OrderFragmentsDistinct` |
| `ReportsQuery.FilterTypeParam` | Query/ReportsParamQuery.cs:17-33 | the filter fragment starts with `&filter_type=` followed by field, field-prefix, field-search or special |
| `ReportsQuery.SearchFieldParam` | Query/ReportsParamQuery.cs:34-39 | the search-field fragment is `&filter_field=` followed by the field's name |
| `ReportsQuery.FilterParam` | Query/ReportsParamQuery.cs:14-41 | empty iff the filter type is `None`, whatever the search field; otherwise the filter type then `&filter_field=filename` |
| `ReportsQuery.OrderParam` | Query/ReportsParamQuery.cs:42-57 | empty iff the order field is `None`, and then the direction is dropped too; otherwise `&order_field=` plus filename or created_at, then the direction |
| `ReportsQuery.Param` | Query/ReportsParamQuery.cs:58-61 | the base parameters are a prefix of the result; with neither filter nor order the result is the base parameters |
| `ReportsQuery.FilterFragmentsDistinct` | Query/ReportsParamQuery.cs:21-32 | equal filter fragments come from the same filter type; the four non-empty fragments are distinct |
| `ReportsQuery.OrderFragmentsDistinct` | Query/ReportsParamQuery.cs:45-56 | equal order fragments come from the same order field and, when it is not `None`, the same direction |
| `ReportsQuery.ParamDeterminesSelection` | Query/ReportsParamQuery.cs:58-61 | over the same base parameters, equal query strings mean equal filter type, equal order field and, when ordering, equal direction |

## Left out

- The HTTP transport (`m_client.PostAsync`, `ReadAsStringAsync`, `async`/`await`, `StringContent`) is left out. A POST's outcome is a value: a transport failure, or a status and a body.
- JSON serialization and its `Formatting.Indented` layout are left out. A body is modelled as its ordered list of named fields, not as JSON text.
- JSON deserialization (`JsonConvert.DeserializeObject`) is a function parameter returning an optional value. The invoice result structure is a type parameter.
- `double` amounts are carried as their 64 raw bits. The model does not interpret them and does not model their rendering in JSON.
- `BillogramDate.Format()` is not part of this model. The respite date enters as the text it produces.
- The base class `QuerySearchParameter` is not part of this model. `base.Param()` and `GetOrderDirection` enter as given strings. `FilterType` is declared with the five values that `FilterParam` names.
- `null` strings (id, message, file name, content) are not modelled. Dafny strings are never null.
- C# enum values outside the declared members are not modelled, because the Dafny enums are closed. For such a value the invoice switches would keep `string.Empty`. In Query/ReportsParamQuery.cs an undeclared `Order_Field` makes `OrderParam` return the bare order direction (line 56), and an undeclared `Filter_Type` makes `FilterParam` return `&filter_field=filename` alone (lines 34-40).
- Structures/Reports/Unique.cs is a data holder with no behaviour, so it is not modelled.
- In Client/InvoicePart.cs:100, `ReSendInvoice` deserializes into an unbound type parameter `T`, which does not compile. The model does not copy that defect: this `ReSendInvoice` parses into the same result type as its siblings.
- Both client files declare the `InvoiceMethods` struct, which could not compile together. The model declares the enums once.
- The source method `AddMessageeToInvoice` appears here as `AddMessageToInvoice`. The two `RegisterPaymentToInvoice` overloads of `BillogramClient` become `RegisterPaymentToInvoice` and `RegisterPaymentToInvoiceWithCredit`.
- Concurrency, connection sharing, timeouts and cancellation are left out. The model has no state.
