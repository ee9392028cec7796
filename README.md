# HKA account connector, modelled in Dafny

This project models the core of the Odoo module `hka_account_connector`. The module sends
Peruvian electronic invoices (`account.move` records) to The Factory HKA, an OSE/PSE web
service, and downloads the resulting files: the signed XML, the PDF and the CDR receipt.
The model covers three parts:

- **Payload builders** (`payload.dfy`, module `HkaPayload`). The `_prepare_hka_*` methods
  are pure functions from an invoice's data to the nested "documentoElectronico" record.
  This includes the series and number split at the first hyphen of the invoice name,
  1-based item numbers, the per-line IGV and the three totals. The fixed codes are the
  SUNAT catalogue values `0101`, `10` and `NIU`.
- **HKA client** (`hka_client.dfy`, module `HkaClient`). `HKAConnector` is a class with a
  token and an expiry that it overwrites in place, plus the persisted token slot
  (`hka.connector.config`). The renewal rule of `_ensure_token` is the function
  `EnsureStep`; the methods are proved to follow it. The request bodies of the send and
  download calls are stated field by field.
- **Invoice integration** (`account_move.dfy`, module `AccountMove`). Each invoice's
  status, CPE number, sent date, error message, retry count and file flags are fields of
  the `Invoice` class. Each method is tied to a function of the old state:
  - `RetryStep` for `_handle_retry`;
  - `SendStep` for `_send_to_hka`;
  - `FetchStep` for `_download_and_attach`;
  - `CronSendStep` and `DownloadStep` for one iteration of each scheduled pass.

  The two passes are `while` loops over the selected invoices. They are proved to
  produce `SendPass` and `DownloadPass`, which fold the per-invoice steps over the
  selection and carry the token cache from one invoice to the next.

`text.dfy` (module `Text`) covers the Python text operations the builders use:
- `str()` of an integer;
- `int()` of a number, which truncates toward zero;
- `f"{x:.2f}"`, which rounds half to even and prints a minus sign for every negative
  value;
- `str.split('-', 1)`.

`wrappers.dfy` holds `Option`, `Result` and `Reply`:
- an unset Odoo field is `None`;
- a raised exception is `Failure` carrying `str(e)`;
- an HTTP exchange is either a decoded body or the exception it raised.

The network, the ORM and the clock are replaced by inputs:
- each call receives the reply it would get;
- each clock reading is an integer;
- each date the source formats with `strftime` arrives as text.

A few behaviours of the code that a reader might not expect, all of which the model keeps:
- The token is renewed also when it is empty, or when the expiry is missing.
- The operation type is always `0101`.
- The payment terms are always cash with nothing pending. No PDF customisation block is
  built.
- The send selection also requires the move type to be `out_invoice`.
- The downloaded document id is the company RUC, a hyphen, then the stored CPE number.
- An exception during a send counts a retry but leaves the status, so it is never capped
  by the retry limit.
- A token that the authentication reply gives as JSON `null` is accepted. It is stored as
  unset and sent as `null`, so the next call authenticates again.
- A reply that accepts the invoice but carries an XML that does not decode leaves the
  invoice `sent`. The decoder's error is stored and a retry is counted.

## Model

| member | source | states |
|---|---|---|
| Text.Trunc | models/account_move.py:121 | `int(x)` truncates toward zero: the result is the integer between 0 and `x` closest to `x` |
| Text.RoundHalfEven | models/account_move.py:124-131 | the nearest integer, within one half; on an exact tie the even neighbour |
| Text.Fixed2 | models/account_move.py:124-131 | `f"{x:.2f}"` is `[-]D+.DD`, with a leading minus exactly when `x` is negative |
| Text.Fixed2Denotes | models/account_move.py:124-131 | the text `Fixed2(x)` reads back as the absolute value of `x` rounded to the nearest hundredth |
| Text.NatToStringRoundTrip | models/account_move.py:119 | `str(n)` of a natural number reads back as `n` |
| Text.NatToStringInjective | models/account_move.py:119 | different numbers are written differently |
| Text.IntToStringRoundTrip | models/account_move.py:121 | `str(i)` of any integer, sign included, reads back as `i` |
| Text.SplitFirst | models/account_move.py:51 | `split(sep, 1)` gives two parts exactly when `sep` occurs; the parts joined with `sep` give the text back, and the first part has no `sep` |
| Text.SplitFirstOfJoin | models/account_move.py:51 | splitting `a + sep + b` at the first `sep` gives `(a, b)` when `a` has no `sep` |
| HkaPayload.PrepareHeader | models/account_move.py:41-64 | builds exactly when both dates are set and the name has a hyphen; otherwise it raises, a missing date taking precedence, with Python's message; series + "-" + number is the name and the series has no hyphen; the operation type is `0101` |
| HkaPayload.PrepareEmisor | models/account_move.py:66-86 | province and department are both the state name, or empty when it is unset; the place of issue is `0000`; the RUC is the company VAT, empty exactly when the VAT is unset or empty; the trade name is the company name and the district its city |
| HkaPayload.PrepareReceptor | models/account_move.py:88-102 | the document type is the customer's identification code, the document number its VAT, each empty when unset (so the type is empty exactly when the code is unset or empty); the company name is the customer's name; the customer is never notified |
| HkaPayload.TaxRate | models/account_move.py:114-115 | the rate is the first non-zero tax amount, and 0 exactly when every amount is zero |
| HkaPayload.ItemsFrom | models/account_move.py:111-135 | one item per line, the `i`-th item built from the `i`-th line at position `first + i` |
| HkaPayload.PrepareItems | models/account_move.py:104-135 | the items builder, numbering from 1; what it states is given by `ItemsFrom`, `ItemsFollowLines`, `ItemNumbersDistinct`, `ItemQuantity` and `ItemTaxAmounts` |
| HkaPayload.PrepareTotals | models/account_move.py:137-153 | the totals builder; `PayloadSections` states that each of the three invoice amounts appears in its two places |
| HkaPayload.PreparePayment | models/account_move.py:155-167 | the payment period builder; `PayloadSections` states that it starts and ends on the issue date |
| HkaPayload.PreparePayload | models/account_move.py:169-196 | the payload builds exactly when the header does; it fails with the header's error; its header is that header and it has one item per invoice line |
| HkaPayload.ItemsFollowLines | models/account_move.py:111-135 | items follow the lines one to one and in order: item `i` has the label of line `i`, the unit `NIU`, and a number that reads back as `i + 1` |
| HkaPayload.ItemNumbersDistinct | models/account_move.py:112-119 | no two items carry the same number |
| HkaPayload.ItemQuantity | models/account_move.py:121 | the quantity an item shows reads back as the line quantity truncated toward zero |
| HkaPayload.ItemTaxAmounts | models/account_move.py:114-133 | item tax = IGV amount = subtotal × rate / 100; taxable base = item sale value = subtotal; IGV type `10` |
| HkaPayload.PayloadNamesInvoice | models/account_move.py:51-59 | a built payload's series and number rejoin to the invoice name, and splitting the name gives them back |
| HkaPayload.PayloadSections | models/account_move.py:137-196 | total payable = total sale = amount total; total taxes = total IGV = amount tax; sale subtotal = IGV subtotal = amount untaxed; the payment period starts and ends on the issue date; the payment terms are cash with "0" pending |
| HkaPayload.AmountText | models/account_move.py:124-131 | every amount goes on the wire as `[-]D+.DD`, negative exactly when the value is, and reads back as the value's magnitude rounded to the nearest hundredth |
| HkaClient.ReadCredential | services/hka_connector.py:82-90 | a reply is accepted exactly when it has a `token` key and a well-formed expiry, whatever else it holds; a JSON `null` token is accepted as unset; the credential is those two values; otherwise the error names the missing key or is the parser's message |
| HkaClient.NeedsAuth | services/hka_connector.py:98 | the renewal condition: no truthy token, no expiry, or the clock has reached the expiry; `EnsureStep` authenticates exactly when it holds, and `FreshTokenReused`, `ExpiredTokenRenewed` and `NoAuthWhileValid` state its consequences |
| HkaClient.EnsureStep | services/hka_connector.py:94-100 | authenticates exactly when the token is empty, the expiry is missing or `now >= expiry`; otherwise nothing changes; a failed authentication leaves the cache; a successful one stores exactly the credential the reply gave; a step that raises nothing leaves an expiry |
| HkaClient.FreshTokenReused | services/hka_connector.py:94-100 | after a successful authentication, a later step before the new expiry does not authenticate and keeps the cache |
| HkaClient.ExpiredTokenRenewed | services/hka_connector.py:94-100 | a token past its expiry is renewed before use, and a successful renewal stores the new token and expiry |
| HkaClient.NoAuthWhileValid | services/hka_connector.py:94-100 | from a valid token, any number of steps before its expiry make no authentication call |
| HkaClient.OneAuthPerWindow | services/hka_connector.py:94-100 | steps within one validity window cost exactly one authentication |
| HkaClient.DocumentIdSplits | services/hka_connector.py:140 | the document id splits at its first hyphen back into the RUC and the document number when the RUC has no hyphen |
| HkaClient.ConnectorConfig.constructor | models/hka_connector_config.py:27-30 | the token slot, when first created, stores nothing |
| HkaClient.HkaConnector.constructor | services/hka_connector.py:27-55 | test mode selects `TEST_URL` and app type "I", otherwise `PROD_URL` and "P"; the credentials are the company's; token and expiry start from the stored slot, so client and slot agree |
| HkaClient.HkaConnector.Authenticate | services/hka_connector.py:57-92 | posts the credentials to `/Autenticacion`; on an accepted reply the client and the stored slot both hold the new token (unset for a `null` one) and expiry; on any raise both keep their previous values and the error is the exception text |
| HkaClient.HkaConnector.EnsureToken | services/hka_connector.py:94-100 | the client, the stored slot and the count of authentication calls follow `EnsureStep`; a client that agrees with its slot still does afterwards |
| HkaClient.HkaConnector.SendDocument | services/hka_connector.py:102-125 | ensures the token first; if that raised, nothing is posted; otherwise posts the payload, the RUC and the token as it stands after the step to `/Enviar`, and returns the reply |
| HkaClient.HkaConnector.DownloadFile | services/hka_connector.py:127-155 | ensures the token first; posts the RUC, the token after the step, the id `<ruc>-<number>` and the file type unchanged to `/DescargaArchivo` |
| HkaClient.TwoSendsOneAuth | services/hka_connector.py:94-125 | two sends within the validity window of a fresh client are both posted with the one token obtained |
| AccountMove.AttachmentNames | models/account_move.py:272-287 | a stored file is named after the invoice followed by a dot, with the MIME type of its extension; the three file types get three different names |
| AccountMove.PendingSend | models/account_move.py:243-253 | the send domain: status `to_send`, `out_invoice`, sale journal, `posted`; `SelectPendingSend` selects exactly the invoices it holds for, `PostingQueues` and `ThreeRejectionsExhaust` state when it holds |
| AccountMove.PendingDownload | models/account_move.py:255-269 | the download domain: status `sent`, `out_invoice`, sale journal, `posted`, a file missing; `SelectPendingDownload` selects exactly the invoices it holds for, and `DownloadCompletes` states when it stops holding |
| AccountMove.PendingDomainsDisjoint | models/account_move.py:243-269 | no invoice is in both domains, and one pending download misses at least one file type |
| AccountMove.PostStep | models/account_move.py:229-241 | `action_post` on one invoice; `PostingQueues` states that it queues exactly the sale-journal customer invoices and changes nothing but the status |
| AccountMove.PostingQueues | models/account_move.py:229-253 | after posting, an invoice is pending send exactly when it is a customer invoice in a sale journal; posting changes only its status, and nothing for other moves |
| AccountMove.RetryStep | models/account_move.py:289-303 | a failure adds exactly one retry and requeues while fewer than 3 are counted, otherwise it keeps the status; a success resets the count and keeps the status; nothing else changes |
| AccountMove.ApplyReply | models/account_move.py:316-339 | what `_send_to_hka` does with a received reply; stated by `RejectedSend`, `AcceptedSend` and `UndecodableXmlSend` |
| AccountMove.SendStep | models/account_move.py:305-339 | `_send_to_hka` with its build, token and transport raises; stated by `RejectedSend`, `AcceptedSend`, `RaisingSend` and `UndecodableXmlSend` |
| AccountMove.CronSendStep | models/account_move.py:350-357 | one iteration of the send pass; stated by `RejectedSend`, `AcceptedSend`, `RaisingSend`, `UndecodableXmlSend` and, over a pass, `SendPassProcessesAll` |
| AccountMove.RejectedSend | models/account_move.py:316-321 | a falsy `estatus` sets `rejected` and the message and returns False; the CPE number, sent date and XML flag stay; the pass then counts a retry and requeues below the cap, which is one `Rejection`, so `RejectionsCount` and `ThreeRejectionsExhaust` apply to repeated rejected sends |
| AccountMove.AcceptedSend | models/account_move.py:324-339 | a truthy `estatus` sets `sent`, the CPE number from `numeracion`, the sent date, and clears the error; returns True; stores the XML and sets its flag exactly when the reply carries one; the retry count is reset |
| AccountMove.RaisingSend | models/account_move.py:350-358 | a send that raises stores the error text and counts a retry, and changes nothing else, status included; the text is the build error when the payload does not build, else the token step's error, else the transport's exception text |
| AccountMove.UndecodableXmlSend | models/account_move.py:324-358 | an accepted reply whose XML does not decode raises after the invoice was marked `sent` with the CPE number and sent date; no file is stored; the pass keeps `sent`, stores the decoder's error and counts a retry |
| AccountMove.RejectionsCount | models/account_move.py:289-303 | after `n` rejections the count grew by `n`; the invoice is requeued exactly while the count is below 3, and `rejected` from then on |
| AccountMove.ThreeRejectionsExhaust | models/account_move.py:289-301 | three rejections of a fresh invoice leave it `rejected` with 3 retries, outside the send selection |
| AccountMove.FailuresKeepQueued | models/account_move.py:355-357 | raising sends never change the status, so an invoice pending send stays pending however often it fails; each adds one retry |
| AccountMove.SendPass | models/account_move.py:350-358 | the send pass yields one final state per selected invoice |
| AccountMove.SendPassProcessesAll | models/account_move.py:350-358 | every invoice of the pass ends in its own step's result, from the token left by the previous one, whatever the others did |
| AccountMove.DownloadPass | models/account_move.py:392-400 | the download pass yields one final state per selected invoice |
| AccountMove.DownloadPassProcessesAll | models/account_move.py:392-400 | every invoice of the pass ends in its own download step's result, from the token left by the previous one, whatever the others did |
| AccountMove.FetchStep | models/account_move.py:360-381 | `_download_and_attach`; `FetchGainsOnlyWhenDelivered` states that a flag is gained only from a delivered reply, and `DownloadCompletes` the converse |
| AccountMove.DownloadStep | models/account_move.py:392-400 | one iteration of the download pass; `DownloadStepAddsFiles`, `DownloadCompletes` and `MissingTypesExact` state what it does |
| AccountMove.FetchGainsOnlyWhenDelivered | models/account_move.py:368-381 | a download that sets its type's flag did so only because the token step raised nothing, the reply arrived with code 0 and a non-empty decodable file, and the file was stored |
| AccountMove.DownloadStepAddsFiles | models/account_move.py:360-400 | downloading an invoice's files never clears a flag and changes nothing but the flags |
| AccountMove.DownloadPassAddsFiles | models/account_move.py:383-400 | over a whole download pass, every invoice only gains files |
| AccountMove.DownloadCompletes | models/account_move.py:372-400 | when every needed download delivers with a valid token, the invoice has all three files and leaves the download selection |
| AccountMove.MissingTypesExact | models/account_move.py:392-400 | a file type is requested exactly when its flag is unset; nothing is requested exactly when all three are present |
| AccountMove.ButtonSendHka | models/account_move.py:198-207 | a move that is neither an invoice nor a credit note is refused with "Solo facturas o notas de crédito"; otherwise the payload is built exactly when the header can be, and otherwise fails with the build error |
| AccountMove.Invoice.constructor | models/account_move.py:20-32 | a new invoice has no status, no CPE number, no dates, no retries and no files |
| AccountMove.Invoice.HandleRetry | models/account_move.py:289-303 | the integration fields become `RetryStep` of the old ones; accounting state and files stay |
| AccountMove.Invoice.AttachFile | models/account_move.py:272-287 | appends exactly one attachment, named after the invoice with the type's extension and MIME type |
| AccountMove.Invoice.ApplySendResponse | models/account_move.py:316-339 | fields, result and stored XML follow `ApplyReply`; a bad XML raises after the invoice was marked sent |
| AccountMove.Invoice.SendToHka | models/account_move.py:305-339 | fields, client token, result and stored XML follow `SendStep` (see `RejectedSend`, `AcceptedSend`, `RaisingSend`); a request is posted exactly when the payload builds and the token step raises nothing, and it carries this invoice's payload, the RUC and the token after the step to `/Enviar`; a client that agrees with its slot still does afterwards |
| AccountMove.Invoice.DownloadAndAttach | models/account_move.py:360-381 | fields, client token and stored file follow `FetchStep`: the flag is set only for code 0 with a non-empty file; a request is made exactly when the token step raises nothing, and it goes to `/DescargaArchivo` with the RUC, the token after the step, the id `<ruc>-<cpe number>` and the type's name; a client that agrees with its slot still does afterwards |
| AccountMove.Invoice.CronSend | models/account_move.py:350-357 | fields and client token follow `CronSendStep`: the send, then the retry bookkeeping or the `except` branch; one XML attachment is added exactly when the send stored one, and no other; the client and its slot stay in agreement |
| AccountMove.Invoice.DownloadIfMissing | models/account_move.py:393-400 | one `if not invoice.hka_*_file` branch: nothing is requested when the flag is set; otherwise one download of that type; at most that type's flag is gained, and one attachment is added exactly when it is |
| AccountMove.Invoice.DownloadMissing | models/account_move.py:392-400 | fields and client token follow `DownloadStep`; the requests are those for exactly the missing types, in the order XML, PDF, CDR, each for this invoice's CPE number; the attachments added are exactly those of the newly gained files, in that order; the client and its slot stay in agreement |
| AccountMove.SelectPendingSend | models/account_move.py:243-253 | selects exactly the invoices with status `to_send`, move type `out_invoice`, a sale journal and state `posted`, each once |
| AccountMove.SelectPendingDownload | models/account_move.py:255-269 | selects exactly the invoices with status `sent`, `out_invoice`, sale journal, `posted`, and at least one file missing, each once |
| AccountMove.ActionPost | models/account_move.py:229-241 | every move is posted; customer invoices in sale journals become `to_send`, and others keep their integration fields |
| AccountMove.SendInPass | models/account_move.py:350-357 | one iteration of the send loop: the pass over the invoices so far gains exactly one entry, this invoice's new state, and the token moves on as `SendPass` says; the XML file is attached exactly when the send stored it; the accounting state stays; the client and its slot stay in agreement |
| AccountMove.SendEach | models/account_move.py:350-358 | the loop leaves each selected invoice and the client token as `SendPass` says; the client and its slot stay in agreement |
| AccountMove.CronSendHka | models/account_move.py:341-358 | the selected invoices and the token end as `SendPass` of the selection; unselected invoices keep their integration fields; the client and its slot stay in agreement |
| AccountMove.DownloadInPass | models/account_move.py:392-400 | one iteration of the download loop: the pass over the invoices so far gains exactly one entry, this invoice's new state, and the token moves on as `DownloadPass` says; the attachments gained are exactly the newly set files; the accounting state stays; the client and its slot stay in agreement |
| AccountMove.DownloadEach | models/account_move.py:392-400 | the loop leaves each selected invoice and the client token as `DownloadPass` says; the client and its slot stay in agreement |
| AccountMove.CronDownloadDocuments | models/account_move.py:383-400 | the selected invoices and the token end as `DownloadPass` of the selection; unselected invoices keep their integration fields; the client and its slot stay in agreement |

## Left out

- HTTP transport is not modelled: `requests.post`, `raise_for_status`, JSON decoding and timeouts. Each call receives its reply as an input, or the text of the exception it raised.
- A `token` that is neither a JSON string nor `null` (a number, say) is not modelled: the token is absent, `null` or a text.
- A reply body that is not a JSON object is not modelled (`.get` would raise on a list). `codigo` is modelled as an integer or absent, so Python's `False == 0` and `0.0 == 0` are not distinguished.
- The Odoo ORM is not modelled: `search`, `write`, `ensure_one`, `filtered` and transactions. The search result is the order of the given sequence, and its invoices are distinct.
- `ir.attachment` records are a ghost list of (name, MIME type) on each invoice. Their content and the base64 round trip are not modelled.
- Whether a base64 text decodes is an input (`Blob.defect`).
- Clocks and time zones are inputs: `datetime.now`, `context_timestamp`, `fields.Datetime.now`, and the `strftime`/`strptime` formats. Dates arrive already formatted. The expiry arrives already parsed, or as the parser's error.
- Binary floating point is not modelled. Amounts are exact reals, so a value whose float representation rounds differently at the second decimal is not captured.
- Concurrency is not modelled. Overlapping passes could race on the unguarded check-then-refresh of the token; the model runs sequentially.
- Logging is not modelled.
- The commented-out `get_cdr` is not part of this model.
- `button_send_hka` also creates a client and sends nothing; creating the client is not modelled.
- `super().action_post()` is reduced to setting the state to posted; the name it assigns to an invoice is an input.
- The declaration-only files (settings, product, company and unit-of-measure extensions) and the one-line `get_client` factory are not part of this model.
- `get_singleton` is one shared `ConnectorConfig` object given to the client.
- AccountMove.CronSendHka: does not state that the pass leaves each invoice's accounting state and stored files as they were. The reason is that the loop invariant would have to carry those fields of every selected invoice, and only the integration fields and the token are stated. The per-invoice methods state both.
- AccountMove.CronDownloadDocuments: does not state the downloads asked for across the whole pass, nor that accounting state and stored files outside the new downloads stay. `Invoice.DownloadMissing` states the requests for each invoice.
- AccountMove.SelectPendingSend: states which invoices are selected, each once, but not that they keep their order in the given sequence. That order stands in for the ORM's search order, which is not modelled.
- AccountMove.SelectPendingDownload: the same as `SelectPendingSend`.
- AccountMove.SendEach: does not state accounting state or stored files, for the same reason as `CronSendHka`.
- AccountMove.DownloadEach: does not state accounting state or stored files, for the same reason as `CronDownloadDocuments`.
- AccountMove.SendPass: its own contract states only the length of the result. What each entry is comes from `SendPassProcessesAll` and the lemmas on `CronSendStep`.
- AccountMove.DownloadPass: its own contract states only the length of the result. What each entry is comes from `DownloadPassProcessesAll` and the lemmas on `DownloadStep`.
