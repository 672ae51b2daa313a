# Billplz client: a verified model of its request and response logic

This project models the core of a Go client for the Billplz payment API in
Dafny. The client is a thin binding over HTTP. Its logic falls into two parts,
and both are modelled here as pure functions with proved contracts:

- **Payload validators.** Before a collection, open collection, bill or bank
  account is sent, a per-entity validator runs a list of rules on each field.
  The rules are: required, byte-length bounds, membership in a fixed set, one
  unanchored regular expression, and the opaque e-mail, URL and date checks.
  The outcomes are gathered into an error map keyed by field, and the
  entries that passed are filtered out. An empty map is Go's nil error.
  `Validation.JsonName` gives each field's JSON name, and
  `Validation.JsonKeyed` re-keys an error map by those names, as the library
  reports it.
- **Endpoint logic.** Each of the eighteen endpoints builds a request from its
  arguments and turns the observed response into a result or an error. The
  arguments are normalised first:
  - page defaulting;
  - status-filter whitelisting;
  - the ten-number cap on account numbers;
  - the payment-method list;
  - a default split payment.

  The response is mapped through the transport error, the HTTP status code
  (→ the sentinel errors) and the JSON decoder's error.

Modules, one per source file, plus shared support:

| module | file | models |
|---|---|---|
| `Wrappers` | wrappers.dfy | `Option` (nil pointer / nil error) and `Result` |
| `Errors` | errors.dfy | the sentinel errors and their messages (errors.go) |
| `Regex` | regex.dfy | the fragment of RE2 needed for the bill's mobile-number rule |
| `Validation` | validation.dfy | the ozzo-validation rules and the filtered error map |
| `Collections` | collection.dfy | collection, open collection, split payment (collection.go) |
| `Bills` | bill.dfy | the bill and its validator (bill.go) |
| `BankAccounts` | bank_account.dfy | the bank account and its validator (bank-account.go) |
| `PaymentMethods`, `Transactions` | payment_method.dfy, transaction.dfy | plain records used by the client |
| `Client` | client.dfy | the eighteen endpoints of client.go |

How the exchange is represented:

- **The exchange itself is a parameter.** `Client.Response<T>` is either a
  transport failure or a received response. A received response carries a
  status code, the value the decoder produced, and the decoder's error, if
  any.
- **Each endpoint returns a `Call<T>`.** A `Call` pairs the request that was
  sent (`None` when validation rejected the payload, so nothing was sent) with
  the outcome.
- **The library's format checks are a parameter too.** The e-mail, URL and
  date checks enter as the function fields of `Validation.Formats`, and every
  validator takes a `Formats` value.

Two places where the code differs from what one might read into it, and the
model follows the code:

- **Length bounds count bytes.** The validators use the library's `Length`
  rule, which measures a Go string with `len`, i.e. in UTF-8 bytes, not in
  characters. `Validation.Utf8Length` models this and bounds it by the
  character count, and `Validation.AsciiUtf8Length` shows the two agree on
  ASCII text.
- **The method name differs.** `Bill` and `BankAccount` define `Validate`
  (bill.go:34, bank-account.go:21), while the client calls `validate`
  (client.go:227, client.go:427). Both are taken to be the same operation.

## Model

| member | source | states |
|---|---|---|
| Errors.Message | errors.go:7-34 | every sentinel error's text starts with the package prefix "billplz: " |
| Errors.MessageRoundTrip | errors.go:7-34 | no two sentinel errors share a message, so a message identifies its error |
| Validation.JsonNameInjective | collection.go:53-61 | distinct fields have distinct JSON names, so keying errors by field is keying by JSON name |
| Validation.JsonKeyed | collection.go:53-61 | re-keyed by JSON name, the error has an entry under a field's name exactly when it has one for the field, with the same entry, and no other names |
| Validation.Apply | bill.go:36-48 | every rule except `Required` accepts the empty string; `Required` fails exactly on it; a failing rule reports its own error |
| Validation.Validate | bill.go:41-42 | a field with several rules reports the first failing rule's error, and nothing only when every rule passes |
| Validation.Filter | collection.go:20-23 | the aggregated error keeps exactly the fields whose check failed, with their errors |
| Validation.Utf8Length | collection.go:54-57 | the byte length the `Length` rule measures lies between the character count and four times that, and is 0 only for "" |
| Validation.Utf8LengthAppend | collection.go:54-57 | the byte length of a concatenation is the sum of the parts' byte lengths |
| Validation.AsciiUtf8Length | bill.go:45-48 | for ASCII text the byte length bounds are character bounds |
| Validation.CheckRequired | bank-account.go:23-26 | `Required` alone fails exactly on an empty value, reporting blank |
| Validation.CheckOptional | bill.go:43-44 | a single rule other than `Required` fails exactly on a non-empty value the rule rejects, reporting that rule's error; an empty value passes |
| Validation.CheckRequiredLength | collection.go:54-55 | `Required` then `Length(1, max)` fails exactly on an empty value or more than `max` bytes, reporting blank first |
| Validation.CheckMaxLength | collection.go:56-57 | `Length(0, max)` alone fails exactly on more than `max` bytes; an empty value passes |
| Validation.CheckRequiredThen | bill.go:41 | `Required` then a format rule fails on an empty value (blank) or a value the format rejects |
| Validation.RequireAmount | bill.go:40 | `Required` on an unsigned amount fails exactly on 0 |
| Regex.MobileMatchString | bill.go:38 | the unanchored pattern `\+?60\d{8,10}` matches exactly the strings that contain "60" followed by eight ASCII digits |
| Regex.DigitRunMatches | bill.go:38 | after k digits of `\d{8,10}`, the run can complete exactly when k is already 8 or more, or the next 8 - k characters are ASCII digits |
| Regex.PlainMobileMatches | bill.go:38 | "60123456789" matches the mobile pattern |
| Regex.EmbeddedMobileMatches | bill.go:38 | the pattern is not anchored: a number inside other text matches |
| Regex.LongMobileMatches | bill.go:38 | more than ten digits after "60" still match |
| Regex.ShortMobileFails | bill.go:38 | "601234567", with seven digits after "60", does not match |
| Collections.SplitPaymentValidate | collection.go:92-96 | a split payment is rejected, under "email" only, exactly when its e-mail is non-empty and malformed |
| Collections.SplitPaymentChecksOnlyEmail | collection.go:92-96 | fixed cut, variable cut and split header never affect the result |
| Collections.EmptySplitPaymentPasses | collection.go:92-96 | the zero-valued split payment always passes |
| Collections.CollectionValidate | collection.go:19-25 | "title" is reported exactly when the title is empty; "split_payment" exactly when the nested check fails, carrying its errors; nothing else is reported |
| Collections.CollectionIgnoresUnlistedFields | collection.go:19-25 | the id, logo and status never change a collection's result |
| Collections.CollectionValidIff | collection.go:19-25 | a collection passes exactly when its title is set and its split payment's e-mail is empty or well-formed |
| Collections.OpenCollectionRuleMeaning | collection.go:54-60 | each listed field's rules fail exactly under its stated condition, with the stated entry |
| Collections.OpenCollectionValidate | collection.go:52-63 | the error map has an entry for exactly the fields that fail: title outside 1..50 bytes, description outside 1..200, a reference label over 20, a malformed non-empty e-mail link, a non-empty payment button outside {"buy","pay"}, a failing split payment |
| Collections.OpenCollectionValidIff | collection.go:52-63 | an open collection passes exactly when every listed rule passes |
| Collections.OpenCollectionIgnoresUnlistedFields | collection.go:52-63 | id, amount, tax, the fixed-amount and fixed-quantity flags, photo, URL and status never change the result |
| Bills.BillRuleMeaning | bill.go:36-48 | each listed bill field's rules fail exactly under its stated condition, with the stated error |
| Bills.BillValidate | bill.go:34-51 | the error map has an entry for exactly the fields that fail, each keyed by its JSON name with the error of the rule that failed |
| Bills.BillValidIff | bill.go:34-51 | a bill passes exactly when every listed rule passes |
| Bills.BillPassImpliesRequired | bill.go:36-42 | a passing bill has collection id, name, callback URL and description set, and a non-zero amount |
| Bills.BillPassImpliesFormats | bill.go:37-44 | a passing bill's e-mail, mobile, callback URL, due date and redirect URL each satisfy their format or are empty |
| Bills.BillPassImpliesLengths | bill.go:42-48 | a passing bill's description has at most 200 bytes, labels at most 20, references at most 120 |
| Bills.BillIgnoresUnlistedFields | bill.go:34-51 | id, paid flag, state, paid amount, URL and deliver flag never change the result |
| Bills.SampleBillPasses | bill.go:34-51 | a bill with the required fields set and mobile "60123456789" passes when its callback URL is well-formed |
| BankAccounts.BankAccountValidate | bank-account.go:21-29 | the error map's keys are exactly the empty fields among name, id_no, acc_no and code, each reported as blank |
| BankAccounts.BankAccountValidIff | bank-account.go:21-29 | a bank account passes exactly when all four required fields are non-empty |
| BankAccounts.BankAccountJsonKeys | bank-account.go:22-27 | keyed by JSON name, the error names "name", "id_no", "acc_no" and "code" each exactly when that field is empty |
| BankAccounts.BankAccountJsonKeysOnly | bank-account.go:22-27 | no JSON name other than those four ever appears in a bank account's error |
| BankAccounts.AnyBankCodeAccepted | bank-account.go:26 | any non-empty bank code passes; it is never compared with the known bank codes |
| BankAccounts.BankAccountIgnoresUnlistedFields | bank-account.go:21-29 | organisation flag, authorisation date, status, processing time and rejection reason never change the result |
| Client.Delivered | client.go:469-477 | an unchecked exchange yields the decoded value exactly when transport and decoding both succeeded, else the transport's or decoder's error |
| Client.StatusChecked | client.go:79-83 | a status among the listed codes yields the sentinel error even when decoding failed; any other status yields the unchecked outcome |
| Client.NormalisePage | client.go:95-97 | the page sent is at least 1, a positive page is kept, and any page up to 0 becomes 1 |
| Client.NormaliseOpenCollectionPage | client.go:167-169 | only page 0 becomes 1; every other page, negative ones included, is kept |
| Client.PageRulesCompared | client.go:167-169 | the two page rules agree on non-negative pages and differ on every negative page |
| Client.NormalisePageIdempotent | client.go:95-97 | normalising a normalised page changes nothing, under either rule |
| Client.StatusFilter | client.go:98-100 | a status filter keeps an allowed status and otherwise yields "" |
| Client.CollectionStatusFilter | client.go:98-100 | the collection filter yields "", "active" or "inactive", and changes exactly the other values |
| Client.TransactionStatusFilter | client.go:313-315 | the transaction filter yields "", "pending", "completed" or "failed", and changes exactly the other values |
| Client.StatusFilterIdempotent | client.go:170-172 | filtering a filtered status changes nothing |
| Client.StatusQuery | client.go:109-111 | the status parameter is set exactly when the filtered status is non-empty |
| Client.AddAccountNumbers | client.go:385-390 | the loop that stops after index 9 adds exactly the first min(n, 10) account numbers |
| Client.AccountNumbersSent | client.go:385-390 | at most ten account numbers are sent, and they are a prefix of the input |
| Client.AppendMethods | client.go:353-358 | appending one method per remaining code yields one method per code, in order, each with only its code set |
| Client.MethodsFor | client.go:353-358 | the update list has as many methods as codes; method i has code i, an empty name and is inactive |
| Client.MethodsForCodes | client.go:353-358 | the codes of the update list are exactly the given codes |
| Client.WithDefaultSplitPayment | client.go:51-53 | a missing split payment becomes the empty one; a present one is kept |
| Client.OpenWithDefaultSplitPayment | client.go:123-125 | as above, for open collections |
| Client.CreateCollection | client.go:50-67 | nothing is sent exactly when the defaulted collection fails validation, whose errors are returned; otherwise the defaulted collection is POSTed to /collections |
| Client.CreateCollectionWithoutSplitPayment | client.go:50-57 | a collection without a split payment is sent exactly when its title is set |
| Client.GetCollection | client.go:72-84 | 404 yields the collection-not-found error, and only 404 does; otherwise the exchange's outcome |
| Client.GetCollectionIndex | client.go:94-117 | the request carries the normalised page and, only when allowed, the status; the outcome is the exchange's |
| Client.CreateOpenCollection | client.go:122-139 | nothing is sent exactly when the defaulted open collection fails validation; otherwise it is POSTed to /open_collections |
| Client.CreateOpenCollectionWithoutSplitPayment | client.go:123-129 | an open collection without a split payment is never rejected on "split_payment" |
| Client.GetOpenCollection | client.go:144-156 | 404 yields the collection-not-found error, and only 404 does |
| Client.GetOpenCollectionIndex | client.go:166-189 | page 0 becomes 1 and any other page, negative ones included, is sent as given; the status is filtered as for collections |
| Client.DeactivateCollection | client.go:194-205 | 422 yields the cannot-deactivate error; every other status yields success |
| Client.ActivateCollection | client.go:210-221 | 422 yields the cannot-activate error; every other status yields success |
| Client.ActivationIgnoresDecodeErrors | client.go:200-204 | a decoding error never changes the outcome of activation or deactivation |
| Client.CreateBill | client.go:226-240 | nothing is sent exactly when some bill rule fails, and the bill's errors are returned; otherwise the bill is POSTed to /bills |
| Client.GetBill | client.go:245-257 | 404 yields the bill-not-found error, and only 404 does |
| Client.DeleteBill | client.go:262-273 | a DELETE is sent; 404 yields the bill-not-found error, and only 404 does; otherwise the exchange's error, if any |
| Client.GetBillTransactions | client.go:309-332 | the request carries the normalised page and, only when pending, completed or failed, the status |
| Client.CheckRegistration | client.go:280-299 | a failed exchange passes its error on; "verified" yields true, "unverified" false, and any other name the bank-account-not-found error |
| Client.CheckRegistrationIgnoresStatus | client.go:286-298 | the registration check's outcome never depends on the status code |
| Client.GetBankAccountIndex | client.go:378-399 | exactly the first min(n, 10) account numbers are sent, in order; 422 or 401 yields the admin-privilege error, and only those do |
| Client.GetBankAccount | client.go:405-418 | only 422 yields the admin-privilege error |
| Client.CreateBankAccount | client.go:426-443 | nothing is sent exactly when a required field is empty; otherwise 422 or 401 yields the admin-privilege error |
| Client.GetPaymentMethodIndex | client.go:337-346 | the outcome is the decoded, possibly absent, method list, or the exchange's error |
| Client.UpdatePaymentMethods | client.go:352-372 | a PUT carries one method per code, in order, each with only its code set; the outcome is the decoded list or the exchange's error |
| Client.CollectionEndpointsNeverUnauthorized | errors.go:24-25 | no collection or open-collection endpoint reports the declared invalid-key error |
| Client.BillEndpointsNeverUnauthorized | errors.go:24-25 | no bill, transaction or payment-method endpoint reports it |
| Client.BankAccountEndpointsNeverUnauthorized | errors.go:24-25 | no bank-account endpoint reports it; a 401 there is reported as the admin-privilege error |

## Left out

- HTTP transport, `newRequest` and `do`: the exchange is the `Response` parameter.
  `newRequest` is taken never to fail. The model does not construct URLs, set
  headers or perform authentication.
- Base-path mutation: `newRequest` copies the client's `*url.URL` pointer and
  appends to its path (client.go:446-447), so each call lengthens the client's
  base path. Base URLs are not modelled, so this effect is absent.
- JSON encoding and decoding: request bodies are kept as values (`Body`), and
  the decoder's work is the `decoded`/`decodeError` part of `Response`. Go's
  `encoding/json` is not modelled, so there is no encoding round trip.
- `json.Number` pages are kept as their text.
- Transport failure where an endpoint reads `res.StatusCode` from a nil
  response: in Go this panics. The model returns `Err(Transport(reason))`
  instead. This affects GetCollection, GetOpenCollection, DeactivateCollection,
  ActivateCollection, GetBill, DeleteBill, GetBankAccountIndex, GetBankAccount
  and CreateBankAccount.
- Collections.CollectionValidate, Collections.OpenCollectionValidate: require a
  split payment. The source dereferences the split-payment pointer
  (collection.go:22, collection.go:60) and would panic on nil. Both callers
  substitute an empty split payment first (client.go:51-53,
  client.go:123-125), so no reachable case is excluded.
- Value returned alongside an error: Go returns `(&result, err)`, a
  half-decoded value together with the error. The model's `Result` keeps only
  the error.
- Activation and deactivation decode into a non-pointer value
  (client.go:200, client.go:216), which Go's decoder always rejects. The model
  lets the decoder's error be anything, and it is ignored either way.
- The e-mail, URL and date checks are opaque (`Validation.Formats`). The date
  layout "2018-04-19" (bill.go:43) is not Go's reference layout
  ("2006-01-02"), so the real check rejects most real dates. The model passes
  the layout to the opaque predicate unchanged and does not analyse it.
- Regex compilation and the rest of RE2: `Regex` interprets only literal
  characters, `\d` and bounded repetition, which the mobile rule uses.
- `NewClient` and constants.go (bank codes, endpoint URLs): configuration data
  with no logic.
- Integer widths: Go's `int` page and `uint` amounts are unbounded `int`/`nat`.
  Their wrap-around is outside the modelled behaviour.
- Strings that are not valid UTF-8: Dafny strings are sequences of characters,
  so byte strings that are not valid UTF-8 cannot be represented.
- Query encoding: `url.Values.Encode` sorts the parameters. The model keeps
  them as structured fields.
