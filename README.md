# WSFEv1 invoice-authorization request logic, in Dafny

This project models the request side of AFIP's WSFEv1 electronic-invoice
service client (RG 2485, "Proyecto FE v2.8") in `l10n_ar_api`. It covers:

- building one FECAEDetRequest per invoice: the assigned voucher number,
  the amounts, the service-period fields that depend on the concept code, and
  the optional VAT (`Iva`) and tribute (`Tributos`) arrays;
- assembling a batch: one voucher type per batch, the FECAECabRequest header,
  and consecutive numbers after the last authorized voucher;
- gating the service's responses on their `Errors` lists;
- interpreting the FEDummy health check;
- choosing the endpoint url.

Files:

- `wrappers.dfy` holds `Option`, `Result` and `Outcome`. A raised exception
  becomes a `Failure`/`Fail` value.
- `wsfe_types.dfy` holds the domain invoice, the wire records, the responses,
  and the error kinds (`WsfeError`).
- `wsfe_invoice_details.dfy` models the `WsfeInvoiceDetails` class. The pure
  function `BuildDetail` is the detail the source produces. The class
  `InvoiceDetails` fills its `detail` field step by step, as the source does,
  and is proved to produce `BuildDetail`.
- `wsfe.dfy` models the `Wsfe` class. A `Wsfe` object is never changed after
  `__init__`, so it is a `Session` value. The loop of `_set_FECAERequest` is
  the method `SetCaeRequest`, proved equal to the function `AssembleRequest`.

The remote operations are parameters:

- `lastNumberService(auth, pos, type)` is FECompUltimoAutorizado, called with the session's FEAuthRequest;
- `submit(auth, request)` is FECAESolicitar;
- the FEDummy answer is a `DummyResponse` value;
- the invoice validator is `isValid: Invoice -> bool`.

Three behaviours of the code that a reader might not expect, modelled as the code has them:

- `check_webservice_status` raises whenever the response *has* an `Errors`
  attribute (`hasattr`), even an empty one. `show_error` and `get_last_number`
  raise only when `Errors` is non-empty (truthiness).
- An empty batch is not rejected on purpose. `next(iter(set()))` raises, so
  it is the error `EmptyBatch`, raised after the mixed-type check.
- An explicit url that is the empty string counts as absent (`if not url`).

## Model

| member | source | states |
|---|---|---|
| WsfeInvoiceDetails.SerializeIva | l10n_ar_api/afip_webservices/wsfe/wsfe.py:79-84 | an AlicIva entry carries the VAT line's code, base and amount unchanged: reading it back gives the line |
| WsfeInvoiceDetails.SerializeTribute | l10n_ar_api/afip_webservices/wsfe/wsfe.py:63-69 | a Tributo entry carries the tribute line's code, base, aliquot and amount unchanged |
| WsfeInvoiceDetails.SerializeIvaArray | l10n_ar_api/afip_webservices/wsfe/wsfe.py:89-92 | the VAT array has one entry per VAT line, entry i reading back as line i (same order, no aggregation) |
| WsfeInvoiceDetails.SerializeTributeArray | l10n_ar_api/afip_webservices/wsfe/wsfe.py:74-77 | the tribute array has one entry per tribute line, entry i reading back as line i |
| WsfeInvoiceDetails.BlankDetail | l10n_ar_api/afip_webservices/wsfe/wsfe.py:94-95 | a fresh detail has no Iva and no Tributos |
| WsfeInvoiceDetails.BuildDetail | l10n_ar_api/afip_webservices/wsfe/wsfe.py:34-61 | CbteDesde == CbteHasta == last number + 1; the scalar fields are the invoice's; for concepts other than 2 and 3 the three service-period fields are empty, for 2 and 3 they are the invoice's service_from, service_to, payment_due_date; Iva (Tributos) is present iff the invoice has VAT (tribute) lines, and then holds them 1:1 in order |
| WsfeInvoiceDetails.InvoiceDetails.constructor | l10n_ar_api/afip_webservices/wsfe/wsfe.py:21-25 | a builder holds the invoice and the last number and has no detail yet |
| WsfeInvoiceDetails.InvoiceDetails.GetDetails | l10n_ar_api/afip_webservices/wsfe/wsfe.py:27-32 | returns the detail it stores, which is BuildDetail of its invoice and number |
| WsfeInvoiceDetails.InvoiceDetails.SetDetails | l10n_ar_api/afip_webservices/wsfe/wsfe.py:34-61 | setting the fields one by one and then the two arrays leaves exactly BuildDetail in `detail` |
| WsfeInvoiceDetails.InvoiceDetails.SetIva | l10n_ar_api/afip_webservices/wsfe/wsfe.py:86-92 | sets Iva to the serialized VAT array when there are VAT lines, else changes nothing |
| WsfeInvoiceDetails.InvoiceDetails.SetTributes | l10n_ar_api/afip_webservices/wsfe/wsfe.py:71-77 | sets Tributos to the serialized tribute array when there are tribute lines, else changes nothing |
| Wsfe.SelectServiceUrl | l10n_ar_api/afip_webservices/wsfe/wsfe.py:120-125 | a non-empty explicit url wins; otherwise the homologation or production table entry, absent if the table lacks the key |
| Wsfe.NewSession | l10n_ar_api/afip_webservices/wsfe/wsfe.py:120-129 | the session keeps the selected url and an auth request with the ticket's token and sign and the CUIT; homologation defaults to true and url to absent |
| Wsfe.DefaultSessionIsHomologation | l10n_ar_api/afip_webservices/wsfe/wsfe.py:120-123 | a session created without homologation and url arguments uses the homologation entry of the endpoint table |
| Wsfe.CheckWebserviceStatus | l10n_ar_api/afip_webservices/wsfe/wsfe.py:131-143 | an Errors attribute raises a protocol error with that list; otherwise it raises for the k-th subsystem in the order AppServer, DbServer, AuthServer iff that one is not "OK" and all before it are; it passes iff there is no Errors attribute and all three are "OK" |
| Wsfe.ShowError | l10n_ar_api/afip_webservices/wsfe/wsfe.py:161-163 | raises iff Errors is non-empty, with the full ordered error list |
| Wsfe.GetLastNumber | l10n_ar_api/afip_webservices/wsfe/wsfe.py:165-183 | asks under the given credentials for the given point of sale and type; raises with the error list iff it is non-empty, else returns exactly CbteNro |
| Wsfe.MixedTypesIffSeveralCodes | l10n_ar_api/afip_webservices/wsfe/wsfe.py:206-207 | the set of voucher types has more than one member iff two invoices of the batch differ in type |
| Wsfe.GetDocumentType | l10n_ar_api/afip_webservices/wsfe/wsfe.py:205-210 | fails with MixedDocumentTypes iff two invoices differ in type, with EmptyBatch iff the batch is empty, and otherwise returns the one type every invoice has (the set of types is exactly that one) |
| Wsfe.SetHeader | l10n_ar_api/afip_webservices/wsfe/wsfe.py:239-254 | succeeds iff the batch is non-empty and of one type, with CantReg == batch size, PtoVta == pos and CbteTipo the shared type; otherwise it fails as the type check does |
| Wsfe.Details | l10n_ar_api/afip_webservices/wsfe/wsfe.py:222-227 | the loop's reference definition: one detail per invoice, the first numbered last number + 1, each next invoice built with the number advanced by one |
| Wsfe.DetailsNumbering | l10n_ar_api/afip_webservices/wsfe/wsfe.py:222-227 | advancing the number once per invoice gives one detail per invoice, invoice i built with last number N + i |
| Wsfe.AssembleRequest | l10n_ar_api/afip_webservices/wsfe/wsfe.py:212-237 | a mixed or empty batch fails without consulting the last number; otherwise it asks for the last number under the given credentials, for pos and the shared type, and fails iff that response has errors, and on success the header is (size, pos, type), detail count == CantReg, and detail i is the invoice i built with number N + 1 + i |
| Wsfe.SetCaeRequest | l10n_ar_api/afip_webservices/wsfe/wsfe.py:212-237 | the loop that appends a detail and increments the last number produces exactly AssembleRequest |
| Wsfe.ValidateInvoices | l10n_ar_api/afip_webservices/wsfe/wsfe.py:185-194 | passes iff the validator accepts every invoice; otherwise fails naming the first invoice it rejects |
| Wsfe.GetCae | l10n_ar_api/afip_webservices/wsfe/wsfe.py:145-159 | a rejected invoice fails the batch before anything else, naming the first invoice the validator rejects; otherwise it fails as AssembleRequest (run under the session's credentials) fails, or returns that request together with the service's response to it, submitted under the same credentials |
| Wsfe.ConsecutiveNumbers | l10n_ar_api/afip_webservices/wsfe/wsfe.py:222-227 | in a built request, detail i covers the single voucher N + 1 + i, and numbers strictly increase |
| Wsfe.SequentialBatchesNeverReuse | l10n_ar_api/afip_webservices/wsfe/wsfe.py:223-227 | when a second batch starts from the first batch's last assigned number, every number of the second batch is above every number of the first |

## Left out

- The SOAP transport (zeep `Client`, `type_factory`/`get_type` lookups and `service.*` calls) is left out. Remote answers are inputs. The endpoint url is selected but not used by the modelled calls.
- `BlankDetail` holds `0`/`""` placeholders where a fresh zeep object holds `None`. `SetDetails` overwrites every one of them, so no placeholder can be observed.
- The invoice validator's rules are not part of this model. It is a parameter `isValid`. `ValidationError` carries the index of the rejected invoice, not the validator's message.
- `AfipError.parse_error` and its message table are not part of this model. A protocol error carries the response's error list unchanged.
- Invoice totals (`get_total_amount`, `get_total_iva`, `get_total_tributes`) are fields of the invoice. Amounts and the exchange rate are opaque integers that are copied, never computed (the source's floats are not modelled).
- The exception messages of `check_webservice_status` are not modelled. The failing subsystem is named by `ServerUnavailable`.
- The contents of the endpoint tables are a parameter. `wsaa.py` (the login call) is not part of this model.
- Integer widths of the wire schema (xsd:int, xsd:long) are not modelled. Numbers are unbounded.
- Concurrency is not modelled. `SequentialBatchesNeverReuse` states the serialized case only.
