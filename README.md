# cetustek-invoice: field validator and response decoder

This project models the two pieces of logic in the Cetustek InvoiceAPI v3 client.

**Field validator.** A validator wraps one record and checks a field three ways:
- presence, meaning the key is an own property;
- kind: one of the listed kinds, string or number;
- length: the field's text is at most a given number of characters.

**Invoice creation.** `create` does the following, in order:
- normalises OrderDate;
- applies a fixed, ordered table of 20 header rules;
- applies five item rules to each line item, item after item. The first failing rule aborts everything;
- wraps the items as `Details`;
- calls the remote `CreateInvoiceV3`.

**Response decoder.** It classifies the one string the service returns:
- a chain of sixteen classifiers runs in order, and the first match wins;
- when none matches, a ten-character token is the invoice number;
- anything else is an unknown error.

Modules:

- `Validation` (`validation.dfy`): the value and record types, and the kind table.
  - `Validated` and `RequiredChecked` say what `validate` and `required` decide.
  - The class `Validator` implements them with methods. `Validate` keeps the source's count-down loop over the kinds, with its `break`.
  - The wrapped record is a `const`, so the validator cannot change it.
- `Responses` (`responses.dfy`): the outcome type and the sixteen classifiers as functions. It states the regular expressions' semantics explicitly:
  - `.` stops at a line terminator;
  - `\d` is ASCII;
  - `.+` and `\d+` capture greedily;
  - `/i` folds ASCII case.

  It also holds the `||` chain `Classify`, `Decode`, and the token encoder `Encode` as the decoder's inverse.
- `Invoices` (`invoice.dfy`): the rule tables and the specification functions `RuleCheck`, `RulesCheck`, `ItemsCheck` and `RequestCheck`.
  - The methods `ApplyRule`, `ApplyRules` and `ApplyItemRules` loop over the rules and items as the code does, and are proved equal to those functions.
  - `Invoice.Create` mutates the caller's record (class `InvoiceData`) and calls a recording stub of the remote port (class `Service`).
- `Scenarios` (`scenarios.dfy`): the invoice of example.js run through the model.

The `BuyerAddress` call at invoice.js:63 invokes `v.require`, which the validator does not define (see "## Findings"). `Reading` therefore has two values:
- `AsWritten` means a record whose `DonateMark` is the number 2 always fails with the resulting TypeError. `Create` uses this reading.
- `Intended` reads the call as `v.required`.

The code has no step that derives or clears CarrierId1 or CarrierId2, and neither does the model.

## Model

| member | source | states |
|---|---|---|
| Validation.HasKindIsTextual | lib/validator.js:3-6 | a value that some listed kind accepts is a string or a number |
| Validation.AcceptsOneType | lib/validator.js:3-6 | the kind table `Accepts`, through `IsString` and `IsNumber` (lines 47-53), accepts only strings and numbers, and no value under both kind names |
| Validation.Text | lib/validator.js:35 | `'' + value`: a string is its own text; a number's text is non-empty, begins with `-` exactly when negative, and is digits after that |
| Validation.NatText | lib/validator.js:35 | the text of a natural number is a non-empty run of decimal digits |
| Validation.NatTextLength | lib/validator.js:35 | a natural number's text has at most k characters exactly when the number is below 10^k |
| Validation.NumberTextLength | lib/validator.js:35 | a number's text has at most k characters exactly when a non-negative number is below 10^k, or a negative one's digits fit in k - 1 characters beside the minus sign |
| Validation.NumberTextFitsOne | lib/validator.js:35 | a number's text fits in one character exactly when it is a digit 0 .. 9 |
| Validation.Validator.constructor | lib/validator.js:8-14 | the validator holds the given record |
| Validation.Validator.Validate | lib/validator.js:16-38 | the count-down search over the kinds and the length check decide exactly `Validated`: absent passes; no accepting kind gives WrongKind; text longer than the limit gives TooLong |
| Validation.Validator.Required | lib/validator.js:40-45 | decides exactly `RequiredChecked`: absent gives Missing, present is validated |
| Validation.AbsentFieldPasses | lib/validator.js:16-19 | `validate` on a field that is not an own property passes, whatever the kinds or length |
| Validation.AbsentFieldMissing | lib/validator.js:40-43 | `required` on an absent field fails with Missing naming that field |
| Validation.RequiredOnPresentIsValidate | lib/validator.js:40-45 | `required` on a present field decides as `validate` does |
| Validation.KindFailureIff | lib/validator.js:21-33 | a present value fails on kind if and only if no listed kind accepts it, whatever the length: a wrong kind is reported before any length |
| Validation.KindOrderIrrelevant | lib/validator.js:21-33 | two kind lists with the same members decide every field alike, so any single accepting kind passes wherever it sits |
| Validation.EmptyKindsFail | lib/validator.js:22-33 | with no kinds listed every present field fails on kind |
| Validation.LengthBoundary | lib/validator.js:31-37 | a value of an accepted kind passes if and only if its text has at most `length` characters, otherwise it fails as too long |
| Responses.ItemDigit | lib/invoice.js:175-213 | the five item fields are named by the digits 0 .. 4 |
| Responses.ServiceCode | lib/invoice.js:215-255 | each service error is a two-character token `S1` .. `S7` |
| Responses.LeadingRun | lib/invoice.js:156 | the greedy capture is a prefix whose characters all qualify and that cannot be extended |
| Responses.LeadingRunUnique | lib/invoice.js:176 | those three properties determine the greedy capture |
| Responses.EmptyOrFormatError | lib/invoice.js:155-161 | a match starts with `M:` and has at least one more character, and yields a field-empty error with a non-empty one-line name |
| Responses.XmlFormatError | lib/invoice.js:163-167 | a match is a two-character token starting with M |
| Responses.NoDetailError | lib/invoice.js:169-173 | a match is a two-character token starting with D |
| Responses.LineItemError | lib/invoice.js:175-213 | a match starts `D<k>_` with k the field's digit and at least one digit after it; the index is a non-empty digit string |
| Responses.ServiceFailure | lib/invoice.js:215-255 | a match is exactly the service error's token |
| Responses.IpBlockedError | lib/invoice.js:257-261 | a match has seven characters and starts with I or i |
| Responses.ItemErrors | lib/invoice.js:121-125 | the five line-item classifiers in chain order only yield line-item errors of tokens starting `D<c>_` |
| Responses.ServiceErrors | lib/invoice.js:126-132 | the seven service classifiers in chain order only yield service errors of two-character `S` tokens |
| Responses.Classify | lib/invoice.js:118-133 | the chain only ever yields an error outcome |
| Responses.Decode | lib/invoice.js:118-143 | a success or unknown outcome occurs only when no classifier matches; a success carries the ten-character reply unchanged, an unknown outcome the reply of any other length |
| Responses.FieldEmptyToken | lib/invoice.js:155-161 | `M:` + name, then nothing or a line terminator, decodes to a field-empty error naming exactly that name |
| Responses.ItemErrorToken | lib/invoice.js:175-213 | `D<k>_` + digits, then nothing or a non-digit, decodes to the k-th line-item error carrying exactly those digits as text |
| Responses.ServiceToken | lib/invoice.js:215-255 | each of `S1` .. `S7` decodes to its own service error |
| Responses.ServiceCodeInjective | lib/invoice.js:215-255 | distinct service errors have distinct tokens |
| Responses.ExactTokens | lib/invoice.js:163-173 | `M0` and `M1` decode to the XML-format error, `D0` to no-detail |
| Responses.XmlFormatIff | lib/invoice.js:163-167 | a reply decodes to the XML-format error if and only if it is exactly `M0` or `M1` |
| Responses.NoDetailIff | lib/invoice.js:169-173 | a reply decodes to no-detail if and only if it is exactly `D0` |
| Responses.ServiceIff | lib/invoice.js:215-255 | a reply decodes to the k-th service error if and only if it is exactly `S<k>` |
| Responses.NearMisses | lib/invoice.js:163-255 | `M2`, `M0x`, `D0x`, `s7` and `d2_3` match no classifier and are unknown errors |
| Responses.NoMatch | lib/invoice.js:118-133 | no classifier matches those near misses |
| Responses.QuantityErrorExample | lib/invoice.js:191-197 | `D2_3` is a quantity error at index "3" |
| Responses.TenCharacterErrorIsNotSuccess | lib/invoice.js:118-143 | the ten-character `M:12345678` is a field-empty error, never an invoice number |
| Responses.IpBlockedIff | lib/invoice.js:257-261 | a token is the blocked-IP error if and only if it is `InValid` in some mixture of ASCII letter cases |
| Responses.SuccessIff | lib/invoice.js:135-143 | success if and only if no classifier matches and the token has ten characters, with the token unchanged as the number; unknown if and only if no classifier matches and the length differs, carrying the token |
| Responses.DecodeEncode | lib/invoice.js:118-143 | decoding the token of a well-formed outcome gives that outcome back |
| Responses.DecodeWellFormed | lib/invoice.js:118-143 | every decoded outcome is well formed |
| Invoices.FirstFailingRule | lib/invoice.js:58-80 | the rules pass if and only if each rule passes; a failure is the first failing rule's, every earlier rule having passed |
| Invoices.HeaderTable | lib/invoice.js:58-80 | the header table `HeaderRules` has twenty rules, each with at least one kind; the fifth is BuyerAddress and is the only rule that depends on another field |
| Invoices.ItemTable | lib/invoice.js:87-91 | the item table `ItemRules` checks five distinct fields, each with at least one kind and decided by the item alone; Quantity and UnitPrice must be numbers |
| Invoices.NormalizeOrderDate | lib/invoice.js:51-54 | only OrderDate may change: the keys and every other field are kept, a truthy OrderDate becomes the text `formatDate` gives for its old value, and an absent or falsy one leaves the record unchanged |
| Invoices.RulesCheckFrom | lib/invoice.js:58-80 | once the rules before i pass, a failing rule i decides the outcome |
| Invoices.FirstFailingItem | lib/invoice.js:84-95 | the items pass if and only if each item passes the rules; a failure is the first failing item's |
| Invoices.ItemsCheckFrom | lib/invoice.js:84-95 | once the items before i pass, a failing item i decides the outcome |
| Invoices.HeaderBeforeItems | lib/invoice.js:58-95 | a failing header decides the outcome whatever the items; the items are checked only after the whole header passed |
| Invoices.MissingRequiredField | lib/invoice.js:58-80 | an absent required header field, reached with every earlier rule passing, fails the request as missing |
| Invoices.BuyerAddressOptional | lib/invoice.js:63-64 | unless DonateMark is the number 2, an absent BuyerAddress passes and a present one is kind- and length-checked |
| Invoices.DonateMarkIsOneDigit | lib/invoice.js:71 | a numeric DonateMark passes its rule if and only if it is a single digit 0 .. 9 |
| Invoices.DonateMarkTwoAsWritten | lib/invoice.js:63-64 | with DonateMark 2 and the first four rules passing, the request fails with the TypeError whatever BuyerAddress holds |
| Invoices.DonateMarkTwoIntended | lib/invoice.js:63-64 | read as `required`, DonateMark 2 makes BuyerAddress required, and its absence is reported as missing |
| Invoices.PresentFieldPasses | lib/invoice.js:58-91 | a present string or number of an accepted kind whose text fits passes its rule |
| Invoices.RuleReadsOnlyItsField | lib/invoice.js:58-91 | every rule but BuyerAddress's depends only on its own field |
| Invoices.WrapAll | lib/invoice.js:94-98 | `Details` has one element per item |
| Invoices.UnwrapWrapAll | lib/invoice.js:84-98 | unwrapping `Details` gives back exactly the items, in order |
| Invoices.WrapAllSnoc | lib/invoice.js:84-95 | wrapping one more item appends its wrapper |
| Invoices.SettleResolvedIff | lib/invoice.js:109-143 | the promise resolves with a number if and only if the reply is that ten-character token and no classifier matches it |
| Invoices.Settle | lib/invoice.js:109-143 | a failed call rejects as a transport error; a resolution carries a ten-character reply unchanged; any other returned reply rejects with exactly the outcome the decoder gives it, which is well formed |
| Invoices.Service.constructor | lib/invoice.js:105 | the stub port starts with no recorded requests |
| Invoices.Service.CreateInvoiceV3 | lib/invoice.js:105-109 | one call appends its request to the record of calls and returns the fixed reply |
| Invoices.InvoiceData.constructor | lib/invoice.js:48 | the caller's record holds the given fields |
| Invoices.ApplyRule | lib/invoice.js:58-80 | one validator call decides exactly `RuleCheck` under the given reading: a donated record's BuyerAddress call throws the TypeError as written, and is `required` as intended |
| Invoices.ApplyRules | lib/invoice.js:56-80 | the rules applied in order, stopping at the first throw, decide exactly `RulesCheck` |
| Invoices.ApplyItemRules | lib/invoice.js:84-95 | the items checked in order, each by a fresh validator, decide exactly `ItemsCheck`; on success the result is the wrapped items, in order |
| Invoices.Invoice.constructor | lib/invoice.js:28 | the client keeps its rental id |
| Invoices.Invoice.Create | lib/invoice.js:48-152 | a failed validation rejects with that error, keeps only the normalised OrderDate and makes no call; otherwise `Details` is set, exactly one request is sent (record, rental id, tax flag), and the reply settles the promise |
| Scenarios.HeaderPassesOrder | example.js:12-15 | rules 0 .. 3 pass on the example header |
| Scenarios.HeaderPassesAddress | example.js:16-19 | rules 4 .. 7 pass on the example header |
| Scenarios.HeaderPassesDonation | example.js:20-23 | rules 8 .. 11 pass on the example header |
| Scenarios.HeaderPassesCarrier | example.js:24 | rules 12 .. 15 pass on the example header |
| Scenarios.HeaderPassesTax | example.js:25-28 | rules 16 .. 19 pass on the example header |
| Scenarios.ExampleHeaderPasses | example.js:11-28 | the example header passes the whole header table |
| Scenarios.ExampleItemPasses | example.js:30-36 | the example line item passes the item rules |
| Scenarios.ExampleRequestPasses | example.js:10-37 | the example request passes validation under either reading |
| Scenarios.DonatedExampleAsWritten | lib/invoice.js:63-64 | the example header with DonateMark 2 is rejected with the TypeError although its BuyerAddress is valid |
| Scenarios.DonatedExampleIntended | lib/invoice.js:63-64 | read as intended, that BuyerAddress passes its rule |
| Scenarios.InvoiceNumberResolves | lib/invoice.js:139-143 | the reply `1234567890` resolves the promise with that number |
| Scenarios.DuplicateIsRefused | lib/invoice.js:251-255 | the reply `S7` rejects the promise as an already-invoiced order |
| Scenarios.SubmitExample | example.js:10-43 | creating the example invoice sends exactly one request, the header with its wrapped item, no rental id and tax flag `0` (no `hastax` given), and settles as the reply says |

## Findings

| source | as written | input that shows it | evidently intended | confidence | as-written member | corrected member |
|---|---|---|---|---|---|---|
| lib/invoice.js:63 | calls `v.require`, which the validator does not define, so the call throws a TypeError | the example.js header with DonateMark 2, which has a valid BuyerAddress | `v.required`: BuyerAddress required when DonateMark is 2 | not executed | Scenarios.DonatedExampleAsWritten | Scenarios.DonatedExampleIntended |

`Invoices.DonateMarkTwoAsWritten` and `Invoices.DonateMarkTwoIntended` state the two behaviours for every record. The corrected reading is executable: `Invoices.ApplyRule`, `Invoices.ApplyRules` and `Invoices.ApplyItemRules` take the reading and are proved against `RuleCheck`, `RulesCheck` and `ItemsCheck` under either one. `Invoices.Invoice.Create` passes `AsWritten`, as the code does.

## Left out

- The SOAP client, its lazy creation in `getClient`, and its credentials (lib/invoice.js:17-45). These are network set-up. `getClient` failing and `CreateInvoiceV3` reporting an error are both the reply `CallFailed`.
- Invoices.Service: the remote port is a stub that records each request and answers a fixed reply. The real service's behaviour is outside the client.
- XML serialisation with `data2xml`. A request carries the record itself, and the XML text is not modelled.
- The date library `moment`. OrderDate formatting is the parameter `formatDate`, applied to a truthy OrderDate. Its output, including an "Invalid date" text, is whatever that function returns.
- Numbers are integers rendered in decimal. JavaScript's text for fractional, exponent-form, NaN or infinite numbers is not modelled, so example.js's `TaxRate: 0.05` is left out of the example header.
- String lengths count Dafny characters, where JavaScript counts UTF-16 code units. They differ only for characters outside the Basic Multilingual Plane.
- Invoices.Invoice.Create: `hastax` is a boolean, not an arbitrary truthy value. `items` is either absent or a list, and other values of `items` are not modelled.
- The error message texts are not modelled. Errors carry their kind and the field name or item index.
- Responses.Decode: a reply whose `result.return` is missing or not a string array is not modelled. The decoder's input is the first returned string.
- Invoices.Invoice.Create: when `getClient` fails the source makes no `CreateInvoiceV3` call (lib/invoice.js:38-41, 148-151). The model folds that failure into the reply `CallFailed`, so the stub still records one request in that case.
- Promise scheduling and asynchrony: `Create` returns the settlement directly.
