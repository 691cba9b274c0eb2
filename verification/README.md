# CHIP for FluentCart: payment reconciliation, modelled in Dafny

This project models the payment core of the CHIP gateway plugin for FluentCart.
The plugin's bootstrap loads two files: the gateway class `Chip` in
`includes/class-chip.php` and the REST client `ChipFluentCartApi` in
`includes/class-chipfluentcartapi.php`. The model follows those two files.

- **API client** (`chip_api.dfy`). Requests go to the root URL, then `/v1`,
  then the route. They carry a JSON content type and a bearer secret key. `call`
  turns a response body into a result or null. Logging happens only when debug is
  exactly `yes`.
- **Webhook endpoint** (`webhook.dfy`, `signature.dfy`, `public_keys.dfy`).
  `handleIPN` runs a fixed ladder of checks on the raw request, each with its own
  status code. `verifySignature` fails closed. `getPublicKey` caches the brand's
  key in the option store.
- **The two reconciliation paths** (`reconciliation.dfy`, `store.dfy`,
  `race.dfy`). `processWebhook` is the server-to-server notification and
  `handleInitRedirect` is the shopper's browser coming back from the payment page.
  - Both take the order's lock, re-read the order, and skip the write when the
    order is already processing or completed.
  - Otherwise they save the `chip` transaction as succeeded and hand the order to
    the status-sync collaborator.
  - `race.dfy` proves that, in either order, the two paths save a paid order's
    transaction exactly once. This holds under an explicit assumption about the
    collaborator (`Store.SyncSound`), and only for serialized runs: one path's
    locked section finishes before the other's begins, as when the lock was
    obtained. Overlapping runs are not modelled (see "## Left out").
- **Payment-method labels** (`payment_methods.dfy`). `mapPaymentMethodType`
  renames the wallet codes. `extractFpxBuyerBankBranch` scans FPX's `extra` data
  for the bank branch.
- **Refunds and receipts** (`refunds.dfy`). The `processRefund` decision ladder
  and `getTransactionReceiptUrl`.
- **Starting a payment** (`checkout.dfy`). `processPayment` builds the
  create-purchase parameters: products, shipping line, default line, notes,
  client, redirect passphrase and whitelist. It then classifies CHIP's answer.

PHP's loose values are the datatype `PhpValues.Value`. It covers null, bools,
ints, strings and ordered arrays, together with the primitives the code applies
to them: `empty()`, `isset()`, `??`, strict `===`, string interpolation,
`stripslashes`, `trim` and `(int)`.

The outside world is a record of uninterpreted functions (`Platform.Env`):
- the HTTP transport;
- `json_decode` and `wp_json_encode`;
- `base64_decode` and `openssl_verify`;
- `sanitize_text_field`;
- `time()`.

The handlers are pure functions from a `Store.State` to a result record, so that
lemmas can compose them. `State` holds:
- orders;
- transactions;
- the `chip_purchase_id` order meta;
- the option store;
- the set of held locks;
- an audit trail of transaction saves, which the exactly-once theorems count.

Where the gateway's design description and its code differ, the model follows
the code:
- Both paths ignore the result of `acquireLock` (`includes/class-chip.php:347`,
  `:1177`), so a lock that cannot be taken does not stop them. Two runs can
  then overlap, and the race theorems do not cover that case.
- The "already paid" check reads only the order status (processing or
  completed), not the transaction status.
- The webhook releases the lock in `finally` (`includes/class-chip.php:1202-1205`).
  The redirect releases it before each exit and in `catch (\Exception)`
  (`:399-403`). A PHP `\Error` thrown by the status sync therefore leaves the
  redirect's lock held (`Reconciliation.LockedRedirect`).

## Model

| member | source | states |
|---|---|---|
| ChipApi.LogInfo | includes/class-chipfluentcartapi.php:392-396 | an info line is written exactly when debug is the string `yes`, and nothing otherwise |
| ChipApi.LogError | includes/class-chipfluentcartapi.php:406-415 | an error line is written exactly when debug is `yes`; any other setting returns before logging |
| ChipApi.BuildRequest | includes/class-chipfluentcartapi.php:300-315 | the verb is the one asked for; the URL is the root, then `/v1`, then the route; the headers are `Content-type: application/json` then `Authorization: Bearer <secret key>`; a body is sent exactly when the parameters are non-empty, and it is their JSON encoding |
| ChipApi.Classify | includes/class-chipfluentcartapi.php:319-331 | the result is null exactly when the decoded body is falsy or has a non-empty `errors` field; otherwise it is the decoded value, unchanged |
| ChipApi.Call | includes/class-chipfluentcartapi.php:300-332 | sends the request built for the route and returns the classified decoded body; with debug off it logs nothing, and with debug on a null result always leaves an error line |
| ChipApi.StatusCodeOnlyLogged | includes/class-chipfluentcartapi.php:371-382 | replacing every HTTP status code leaves every call's result unchanged: a non-200/201 code is only logged |
| ChipApi.CreatePayment | includes/class-chipfluentcartapi.php:94-97 | POSTs the parameters to `/purchases/?time=<now>` and returns the classified answer; silent without debug |
| ChipApi.GetPayment | includes/class-chipfluentcartapi.php:228-235 | GETs `/purchases/<id>/?time=<now>` without a body and returns the classified answer |
| ChipApi.RefundPayment | includes/class-chipfluentcartapi.php:245-251 | POSTs the refund parameters to `/purchases/<id>/refund/` and returns the classified answer |
| ChipApi.PublicKey | includes/class-chipfluentcartapi.php:259-265 | GETs `/public_key/` without parameters and returns the classified answer |
| ChipApi.RefundUrlIdentifiesPurchase | includes/class-chipfluentcartapi.php:247 | two refunds from one client share a URL only when their purchase ids print the same, so the route names the purchase |
| ChipApi.PollUrlIdentifiesPurchase | includes/class-chipfluentcartapi.php:231 | two polls made at the same time share a URL only when their purchase ids print the same |
| Config.ApiClient | includes/class-chip.php:1072-1074 | the client gets debug `yes` exactly when the gateway's debug setting is on, plus the configured secret key and the requested brand; its root is the site's `CHIP_FOR_FLUENTCART_ROOT_URL`, or `https://gate.chip-in.asia/api` when the site defines none |
| Signature.VerifySignature | includes/class-chip.php:1106-1124 | fails closed: a signature that does not base64-decode is rejected, and a signature is accepted exactly when OpenSSL returns 1 over the raw body |
| PublicKeys.ReplaceEscapedNewlines | includes/class-chip.php:1083 | unescaping never lengthens the key, and a non-empty key keeps a first character |
| PublicKeys.EscapeUndoesReplace | includes/class-chip.php:1083 | on text without real newlines, turning each newline back into the two characters `\n` recovers the original exactly, so unescaping loses nothing |
| PublicKeys.ReplaceLeavesNoEscapes | includes/class-chip.php:1083 | no backslash-n pair survives the replacement |
| PublicKeys.ReplaceIsIdempotent | includes/class-chip.php:1083 | unescaping an already unescaped key changes nothing |
| PublicKeys.ReplaceInValueKeepsTruthiness | includes/class-chip.php:1078-1094 | a truthy API answer stays truthy after the replacement, so a fetched key is never stored empty |
| PublicKeys.GetPublicKey | includes/class-chip.php:1055-1095 | a cache hit returns the stored key without fetching or writing; with no secret key it returns null and changes nothing; a fetched key is non-empty and stored as `{brand_id, public_key}`; otherwise the store is untouched; on a miss with a secret key the key is fetched, the answer is null when the API's answer is missing or empty, and otherwise it is the answer with each `\n` unescaped |
| PublicKeys.FetchedKeyIsServedFromCache | includes/class-chip.php:1057-1094 | after a successful fetch for a brand, the next lookup for that brand is a hit returning the same key without calling the API, whatever the settings and network do then |
| PaymentMethods.ScanExtra | includes/class-chip.php:1469-1480 | returns the branch of the first entry, in iteration order, that is an array holding `fpx_buyerBankBranch`, and "" when none does |
| PaymentMethods.ExtractFpxBuyerBankBranch | includes/class-chip.php:1463-1481 | "" for a non-array `extra`; otherwise the first holder's branch, taking element 0 of a list branch ("" when that is empty) |
| PaymentMethods.LaterEntriesIgnored | includes/class-chip.php:1469-1477 | appending entries after the first holder never changes the extracted branch |
| PaymentMethods.TableLabel | includes/class-chip.php:1445-1452 | the four Razer wallet codes map to `Atome`, `GrabPay`, `TnG` and `ShopeePay`; every other value is returned unchanged |
| PaymentMethods.MapPaymentMethodType | includes/class-chip.php:1436-1453 | FPX with a non-empty branch yields the branch and otherwise stays `fpx`; wallet codes are renamed; every other code passes through; a non-empty code never maps to an empty label |
| PaymentMethods.MappingIsIdempotentOffFpx | includes/class-chip.php:1445-1452 | mapping a non-FPX label a second time changes nothing |
| PaymentMethods.WalletAndUnknownExamples | includes/class-chip.php:1445-1452 | `razer_grabpay` maps to `GrabPay`, and an unknown code maps to itself |
| PaymentMethods.FpxBranchExample | includes/class-chip.php:1438-1476 | FPX finds a bank branch under any `extra` key, taking element 0 when the branch is a list |
| Store.OrderByUuid | includes/class-chip.php:1161 | finds the first order whose uuid equals the reference; a reference that is not a string matches no order |
| Store.OrderById | includes/class-chip.php:339 | finds an order with the id, or reports that none exists |
| Store.ChipTransactionOf | includes/class-chip.php:1168-1170 | finds a transaction of the order whose payment method is `chip`, with no such transaction before it, or reports that none exists |
| Store.TransactionByUuid | includes/class-chip.php:331 | finds a transaction with the uuid, with none before it carrying that uuid, or reports that none exists |
| Store.PurchaseIdOf | includes/class-chip.php:1272-1293 | the order's `chip_purchase_id` meta when the order id is non-zero and the meta is stored, else null |
| Store.Acquire | includes/class-chip.php:1177 | the lock is held afterwards whatever was held before, because the caller ignores failure; nothing else changes |
| Store.Release | includes/class-chip.php:1204 | the lock is free afterwards and no other lock or state changes |
| Store.MarkSucceeded | includes/class-chip.php:1190-1198 | the transaction is succeeded and has the purchase id as both `chip_purchase_id` and `vendor_charge_id` and the given label; its identity and every other transaction are kept; one save is recorded |
| Reconciliation.WebhookTarget | includes/class-chip.php:1133-1174 | a target exists exactly for a truthy payload that is a `purchase.paid` or `purchase.settled` event with status `paid`, a non-empty reference naming an order, and a `chip` transaction of that order |
| Reconciliation.ProcessWebhook | includes/class-chip.php:1133-1206 | an event with no target changes nothing; past the guards the order's lock is released on every exit, including a throwing sync; an order already paid is left exactly as it was |
| Reconciliation.Locate | includes/class-chip.php:302-344 | no redirect key or no stored passphrase means not handled; a mismatched passphrase gives 403; an empty uuid gives 400; no transaction with that uuid gives 404 `Transaction not found`; a transaction whose order id matches no order gives 404 `Order not found`; the request is found exactly when every check passes, and then it names the first transaction with that uuid and the first order with its order id |
| Reconciliation.CheckPaymentStatus | includes/class-chip.php:1302-1339 | the API is called exactly when there is a purchase id and both credentials; an answer exists exactly when the purchase came back with a status; the answer carries that status and the purchase's transaction data and method |
| Reconciliation.LockedRedirect | includes/class-chip.php:347-403 | a paid order goes to success without polling or writing; the API is polled exactly when the order is unpaid and has a purchase id and credentials; an unpaid order with no purchase id or a poll that does not say `paid` goes to cancel and writes nothing; a paid poll is saved and synced, then goes to success when the sync returns and propagates when it throws; every normal exit releases the lock, an `\Exception` from the sync releases it too, and an `\Error` leaves it as the sync left it |
| Reconciliation.HandleInitRedirect | includes/class-chip.php:302-404 | without the key or a stored passphrase nothing happens; every error page leaves the state alone; past the checks the lock is released on every normal exit; a paid order goes to success unpolled and unwritten; only unpaid orders are polled; an unpaid order whose poll does not say `paid` goes to cancel, which never writes; a paid poll goes to success exactly when the sync returns; only a throwing sync propagates, and after an `\Error` the lock is not released |
| Race.WebhookStep | includes/class-chip.php:1177-1205 | under a sound sync the webhook never raises; it saves exactly when its target order was unpaid, and that order is then paid |
| Race.WebhookWritesTransaction | includes/class-chip.php:1190-1198 | the webhook's save marks the target transaction succeeded with the webhook's purchase id and mapped label, and no other transaction changes |
| Race.WebhookIsIdempotent | includes/class-chip.php:1184-1187 | delivering the same webhook twice saves at most once |
| Race.WebhookTargetIsStable | includes/class-chip.php:1156-1174 | the webhook's guards read only row identities, so a save does not change which order and transaction a later webhook targets |
| Race.RedirectStep | includes/class-chip.php:347-397 | under a sound sync the redirect never raises; it saves exactly when its order was unpaid and the poll reported `paid` |
| Race.RedirectWritesTransaction | includes/class-chip.php:370-389 | a saving redirect goes to success after one poll; it writes the stored purchase id and the polled method's label into the named transaction and leaves the others alone |
| Race.LocateIsStable | includes/class-chip.php:305-344 | the redirect's checks read only the passphrase option and row identities, so a save does not change their outcome |
| Race.TwoStepsSaveEachOrderAtMostOnce | includes/class-chip.php:1184-1198 | two successive handler steps never both save for the same order, so no order gains more than one save |
| Race.WebhookThenRedirectSavesAtMostOnce | includes/class-chip.php:355-389 | webhook then redirect: no order's transaction is saved more than once |
| Race.RedirectThenWebhookSavesAtMostOnce | includes/class-chip.php:1184-1198 | redirect then webhook: no order's transaction is saved more than once |
| Race.WebhookFirstSavesExactlyOnce | includes/class-chip.php:355-363 | in the race for one unpaid order, a webhook first saves exactly once, and the redirect then goes to success without polling |
| Race.RedirectFirstSavesExactlyOnce | includes/class-chip.php:1184-1198 | in the race for one unpaid order, a redirect first still leads to exactly one save: by the redirect when its poll reports paid, otherwise by the webhook |
| Race.PayOrderIsSound | includes/class-chip.php:1201 | a sync that marks every row of the order processing and returns normally meets `Store.SyncSound`, so the assumption the race theorems rest on can be met |
| Race.SamePaymentRaceCanHappen | includes/class-chip.php:302-344 | the race those theorems cover occurs: for one pending order with its `chip` transaction and a stored passphrase, a paid webhook targets the order and the shopper's return locates the same order |
| Webhook.Payload | includes/class-chip.php:987-1000 | a payload exists exactly when the body is non-empty and decodes without error to a truthy value |
| Webhook.HandleIpn | includes/class-chip.php:984-1046 | the checks run in order, each with its own code and message (empty body, invalid JSON, missing brand, brand mismatch and missing signature give 400; no key gives 500; a bad signature gives 400, exactly when the request is well formed, a non-empty key is found and the signature does not verify); a request that is not well formed changes nothing; a rejected one changes at most the key cache; only an authentic request is processed, and it then answers 200 `OK` unless the sync threw |
| Webhook.ForgedSignatureChangesNothing | includes/class-chip.php:1037-1040 | a well-formed request whose signature the verifier rejects leaves every order, transaction and save as it was, and is not answered 200 |
| Webhook.AuthenticAnswersOk | includes/class-chip.php:1042-1045 | under a sound sync an authentic notification is always answered 200 `OK` |
| Refunds.ProcessRefund | includes/class-chip.php:898-964 | a zero amount, a missing charge id and missing credentials each give their own error before any request; the refund is sent exactly when they pass; an empty answer and an unaccepted status give their own errors; success exactly when the status is `success` or `refunded`, returning the answer's id or else the charge id |
| Refunds.RefundIdFallsBackToCharge | includes/class-chip.php:963 | an accepted refund answer without an `id` reports the charge id as the refund id |
| Refunds.RefundsReachTheirOwnCharge | includes/class-chip.php:942 | with credentials, a non-zero amount and a non-empty charge id, a refund request is sent; two such requests reach the same URL only when the charge ids print the same |
| Refunds.TransactionReceiptUrl | includes/class-chip.php:105-118 | refunds and charge-less transactions keep the given URL; every other transaction links to CHIP's `/p/<sanitised charge id>/receipt/` page |
| Refunds.ReceiptUrlIdentifiesCharge | includes/class-chip.php:117 | two receipt links are equal only for equal sanitised charge ids |
| Checkout.NatTextReadBack | includes/class-chip.php:453-454 | the `(int)` cast reads back every natural number as PHP prints it |
| Checkout.NegativeTextReadBack | includes/class-chip.php:453-454 | the `(int)` cast reads back every negative number as PHP prints it |
| Checkout.ItemProducts | includes/class-chip.php:445-464 | at most one product per item, each with a non-empty name; there are none exactly when no item has a title |
| Checkout.TitledItemsAreBilled | includes/class-chip.php:452-462 | every item with a non-empty title contributes its product |
| Checkout.BilledProductsAreTitledItems | includes/class-chip.php:452-462 | every product comes from an item with a non-empty title |
| Checkout.Products | includes/class-chip.php:440-483 | there is always at least one product; a positive shipping total bills every titled item's line, in order, then the `Shipping Fee` line; without shipping, the item lines are billed as they are when some item is titled; with no titled item and no shipping the only line is `Order #<order id>` for the whole amount |
| Checkout.Notes | includes/class-chip.php:516 | the notes are "" when the customer left none, and otherwise the trimmed notes cut to their first 1000 characters |
| Checkout.ClientEntries | includes/class-chip.php:525-576 | a present customer email is the first client entry |
| Checkout.ClientEntriesArePresentFields | includes/class-chip.php:525-576 | every client entry is a present payment-data field under its client name |
| Checkout.PresentFieldsAreSent | includes/class-chip.php:525-576 | every present payment-data field is sent under its client name |
| Checkout.ClientEntriesAvoid | includes/class-chip.php:525-576 | a client name that no present field maps to never appears among the entries |
| Checkout.EmailComesOnlyFromCustomer | includes/class-chip.php:525-527 | without a customer email, no client entry is named `email` |
| Checkout.Client | includes/class-chip.php:520-586 | a client is sent exactly when there is an email, a full name or a configured fallback; the customer email comes first; otherwise the fallback email is appended last; a customer with an email or a full name contributes all of their present fields first, in order; with neither, the fallback email is the only entry |
| Checkout.FallbackGuaranteesEmail | includes/class-chip.php:579-586 | with a fallback configured, the client always carries an email: the customer's when known, otherwise the fallback |
| Checkout.IssuePassphrase | includes/class-chip.php:277-283 | a stored truthy passphrase is reused and nothing is written; otherwise a fresh one is stored first; either way the store then holds the passphrase returned, which is non-empty whenever a fresh one would be |
| Checkout.CoreParamsReadBack | includes/class-chip.php:501-504 | whatever optional parameters follow, `brand_id`, `reference` and `success_redirect` read back as given |
| Checkout.CoreParamsReadBackPurchase | includes/class-chip.php:508-517 | whatever optional parameters follow, `send_receipt` reads back false and `purchase` as given |
| Checkout.PurchaseParams | includes/class-chip.php:501-591 | the parameters carry the configured brand, the order id as reference, the redirect with the passphrase and transaction uuid, `send_receipt` false, and the purchase object; `client` holds the client's fields exactly when there is a client and is absent otherwise; `payment_method_whitelist` holds the configured codes exactly when the list is non-empty and is absent otherwise |
| Checkout.ErrorMessages | includes/class-chip.php:606-616 | keeps only truthy messages; it is empty exactly when no validation error has a truthy `message` |
| Checkout.ClassifyCreation | includes/class-chip.php:597-639 | a null answer fails with the retry message; validation messages fail joined by spaces; success exactly when there are none and both `checkout_url` and `id` are set, returning them; an answer without messages that lacks either field fails with "Unexpected response from payment gateway" |
| Checkout.ProcessPayment | includes/class-chip.php:413-647 | an inactive gateway and missing credentials fail with their own messages and send nothing; parameters are sent exactly when both checks pass; they are the purchase parameters built with the issued passphrase, the option store afterwards is the one that issued it, and the result is the classification of CHIP's answer to them |
| Checkout.SentRedirectCarriesStoredPassphrase | includes/class-chip.php:485-504 | the redirect sent with a purchase carries the passphrase the option store holds afterwards, so the shopper's return is accepted |
| PhpValues.StripSlashesKeepsPlainText | includes/class-chip.php:1021 | a header without backslashes reaches the verifier unchanged by `wp_unslash` |

## Left out

- Database locks: `GET_LOCK`, `pg_advisory_lock`, the crc32 key and `isPostgreSQL` (`includes/class-chip.php:1350-1426`) are database I/O. The lock is a set of held order ids, and, as in the code, a failed acquisition is not surfaced.
- Race.WebhookFirstSavesExactlyOnce, Race.RedirectFirstSavesExactlyOnce and the other `Race` theorems cover serialized runs only: each locked section runs to completion before the other starts, which is what a lock that was obtained guarantees. On MySQL, `GET_LOCK` gives up after 15 seconds and `acquireLock` returns false (`includes/class-chip.php:1350-1370`). Both callers ignore that result and carry on, so a webhook and a redirect can run their locked sections at the same time. Both can then read the order as unpaid and both save. Such interleaved runs are not modelled, because the model treats each locked section as one atomic step.
- Cryptography, base64, JSON, HTTP transport, `sanitize_text_field` and the clock are foreign calls. They are uninterpreted fields of `Platform.Env`.
- `exit`, `status_header`, `http_response_code` and `wp_safe_redirect` are I/O. Their outcomes are returned as response or outcome values.
- `StatusHelper::syncOrderStatuses` belongs to the platform. It is a parameter. The race theorems assume `Store.SyncSound`: it returns normally and leaves exactly that order's rows processing or completed.
- ORM queries are modelled as first-match lookups over sequences. Other ORM behaviour, including coercion of a non-string reference, is not.
- `getReturnUrl`, `getCancelUrl`, `add_query_arg`, `site_url` and `md5` are opaque. The redirect outcome names the transaction uuid, and the fresh passphrase and `add_query_arg` are `Checkout.Site` fields.
- `makePaymentFromPaymentInstance`, `storePurchaseId`, `handlePaymentPaid`, `maybeUpdateSubscription` and `maybeUpdatePayments` are FluentCart glue outside the reconciliation core.
- Settings forms, scripts, i18n, the logger, the activator and the bootstrap are UI and wiring. Translated strings are their English text.
- The unused API methods `turnover`, `balance`, and the client and token endpoints are never called by the core.
- `includes/Chip.php`, `includes/ChipHandler.php`, `includes/ChipSettingsBase.php`, `includes/class-chip-fluent-cart-api.php` and `chip-for-fluentcart.php` are an older revision or duplicates. The bootstrap does not load them.
- The handlers are functions rather than methods. This lets lemmas run them one after the other: the webhook then the redirect, and the reverse.
- Exceptions from collaborators inside `processPayment`, `checkPaymentStatus` and the redirect's `try` are not modelled. The redirect re-throws only what the sync throws. The sync reports whether it threw an `\Exception` or a PHP `\Error`. The webhook's `finally` releases the lock after either. The redirect's `catch (\Exception)` releases it only after an `\Exception`.
- PaymentMethods.TableLabel: an array-valued payment method code is returned unchanged. Under PHP 8 the lookup `$mapping[$payment_method] ?? $payment_method` throws a `TypeError` for an array offset. In the redirect, that error would escape `catch (\Exception)` with the lock held. The model assumes CHIP reports payment method codes as scalars, so the mapping never throws.
- Floats are not represented. Log text that embeds a `print_r` dump keeps only its fixed prefix.
- The `Collection` objects that `is_iterable` also accepts for order items are not modelled. Order items are arrays read with `??`, not objects read with `->`.
- Checkout.StringToInt: reads only an optionally signed run of leading digits after leading whitespace. Exponent and decimal forms such as "1e3" and 64-bit saturation are not modelled.
- Refunds.ProcessRefund: the amount is an integer. `(int)` of a string or float amount is not modelled.
- Checkout.ProcessPayment: `FLUENTCART_VERSION` is a `Checkout.Site` field.
- Config.ApiClient: a site's own `CHIP_FOR_FLUENTCART_ROOT_URL` is an optional settings field, because it is defined outside the plugin; the plugin's own default is `ChipApi.DefaultRootUrl`.
- Webhook.HandleIpn: `json_last_error` is folded into `jsonDecode` returning `None`.
