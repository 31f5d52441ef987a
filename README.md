# Payment field resolution for the Contact Form 7 payment extension

This project models, in Dafny, how the Pronamic Pay extension for Contact Form 7 turns a submitted form
into a payment request. It covers these parts:

- how form tags are selected by name, base type or option;
- how their posted values are read: hidden conditional fields are skipped, the option label is stripped
  from a free-text answer, and several values are joined with ", ";
- the older scan-loop resolver (`Pronamic::get_submission_value`), which applies PHP `empty()`
  semantics, pipe label-to-value substitution, and "a tag with the prefixed option wins, else the last
  match";
- the payment assembler's defaults: the iDEAL fallback, the default description and the billing/shipping
  fallback to the shared `address_*` fields;
- the validators, option lists and message registrations of both generations of form tags (the current
  `AmountTag` and `PaymentMethodTag`, and the legacy `Tags\*` classes).

The form engine, the money parser and the gateway are inputs:

- A form tag is a `Form.FormTag` record. Its pipes are `None` when the tag has no pipes object.
- The POST data read through `filter_input` or `$_POST` is a map from field name to string. A missing
  field reads as "".
- The form engine's posted data is a map from field name to a flattened list of strings.
- The money parser is a function that either returns an amount or fails, where failing stands for the
  exception it throws.
- The gateway is an optional record: its method list, its `payment_method_is_required` flag, its payment
  method field options and its transient issuer groups.
- The form engine's validation result is a `Form.Validation` object that keeps the invalidations it
  receives, in order.

Each validator is split in two. A pure verdict function says which message, if any, a field earns. The
`Validate` method updates the result in place, and its contract ties the update to that verdict.

Facts about the code that the model keeps as they are:

- Amounts from several fields are not summed. The first amount field that holds a value decides the
  amount (src/Pronamic.php:91-95).
- The resolved payment method is not checked against the gateway's methods at all
  (src/Pronamic.php:157-167). There is no case-insensitive retry and no early exit for an unknown
  method: whatever resolved is stored on the payment, with only the iDEAL fallback for an `empty()` one.
- There is no check that the total is non-zero. Any parsed amount, zero included, yields a payment
  once a gateway is configured (src/Pronamic.php:120-130).
- Each resolver of the submission helper has its own fixed order of sources (name, option, base type in
  different orders, src/SubmissionHelper.php:219-268), and the model follows each as written.

## Model

| member | source | states |
|---|---|---|
| `Seqs.FilterMembers` | src/SubmissionHelper.php:42-47 | `filter_tags` keeps exactly the scanned tags that satisfy the callback |
| `Seqs.FilterConcat` | src/SubmissionHelper.php:44-46 | filtering keeps the scanned tags in scan order (it distributes over concatenation) |
| `SubmissionHelper.TagsWithBasetypeOrNameOrOption` | src/SubmissionHelper.php:55-67 | a tag is selected iff it is scanned and its name, its base type, or one of its options equals the value |
| `SubmissionHelper.CombinedFilterIsUnion` | src/SubmissionHelper.php:55-109 | the combined filter selects exactly the union of the name, base-type and option filters |
| `SubmissionHelper.TagsWithBasetype` | src/SubmissionHelper.php:75-81 | a tag is selected iff it is scanned and has that base type |
| `SubmissionHelper.TagsWithName` | src/SubmissionHelper.php:89-95 | a tag is selected iff it is scanned and has that name |
| `SubmissionHelper.TagsWithOption` | src/SubmissionHelper.php:103-109 | a tag is selected iff it is scanned and carries that option |
| `SubmissionHelper.HiddenFields` | src/SubmissionHelper.php:120-136 | no hidden fields without the plugin's POST field or when it does not decode to a list; a non-empty list is exactly the decoded one |
| `SubmissionHelper.ValuesByTag` | src/SubmissionHelper.php:144-183 | a hidden field yields nothing, whatever was posted; a field with no posted data yields nothing; without free-text support the posted list comes back unchanged; with it, only the last value changes, losing "<last tag value> " in front when it starts with that and staying as it is otherwise; the number of values is kept, and an empty list becomes one empty value |
| `SubmissionHelper.GetValuesByTag` | src/SubmissionHelper.php:144-183 | the pop, strip and push on the local list computes exactly `ValuesByTag` |
| `SubmissionHelper.ValueByTag` | src/SubmissionHelper.php:191-195 | a hidden field or a field without values reads as ""; a single value reads as itself |
| `Php.JoinConcat` | src/SubmissionHelper.php:194 | joining two non-empty value lists puts exactly one ", " between their joins |
| `SubmissionHelper.ValueByTags` | src/SubmissionHelper.php:203-211 | "" for no tags; otherwise only the first tag's value |
| `SubmissionHelper.ValueByTagNameOrOption` | src/SubmissionHelper.php:219-227 | the first tag in form order with that name; only when there is none, the first with that option; "" when neither exists |
| `SubmissionHelper.ValueByTagBasetypeOrNameOrOption` | src/SubmissionHelper.php:235-247 | base type first, then name, then option, each tried only when every earlier source matched no tag |
| `SubmissionHelper.ValueByTagNameOrOptionOrBasetype` | src/SubmissionHelper.php:256-268 | name first, then option, then the given base type, each tried only when every earlier source matched no tag |
| `Form.CombineKeys` | src/PaymentMethodTag.php:95-101 | the keys of `array_combine(afters, befores)` are exactly the pipes' values ("afters") |
| `Form.CombineDistinct` | src/Pronamic.php:82 | when no two pipes share a value, `array_combine` keeps every pipe, in order |
| `Form.SearchBefore` | src/Pronamic.php:84 | `array_search` finds an entry iff some entry has that label, and what it returns is the value of an entry with that label |
| `Pronamic.Substituted` | src/Pronamic.php:81-89 | without pipes, or when no pipe has the posted value as its label, the value is unchanged; otherwise it is either unchanged (two pipes sharing a value keep only the last label after `array_combine`) or the value of a pipe whose label is the posted value; it is always replaced when pipe values are distinct (`SubstitutedDistinct`) |
| `Pronamic.SubstitutedDistinct` | src/Pronamic.php:81-89 | when pipe values are distinct, the posted label is replaced by the value of the first pipe with that label |
| `Pronamic.SubmissionValue` | src/Pronamic.php:53-106 | the amount never resolves to text, and other types never resolve to an amount |
| `Pronamic.GetSubmissionValue` | src/Pronamic.php:53-106 | the scan loop, with its `continue`s and early returns, computes exactly `SubmissionValue` |
| `Pronamic.LastValueSnoc` | src/Pronamic.php:61-74 | each considered tag overrides the value kept so far: `null` when its trimmed value is `empty()`, else its value after pipes; any other tag leaves the value as it is |
| `Pronamic.ScanExhausted` | src/Pronamic.php:61-105 | when no tag stops the scan, the amount resolves to `null`, and any other type resolves to the value of the last considered tag |
| `Pronamic.IgnoredTag` | src/Pronamic.php:61-65 | a tag whose base type is neither `type` nor `pronamic_pay_<type>` and that lacks option `pronamic_pay_<type>` can stand anywhere without changing the result |
| `Pronamic.NothingConsidered` | src/Pronamic.php:54-105 | with no considered tag the result is `null` |
| `Pronamic.EmptyLastTagResets` | src/Pronamic.php:67-105 | for types other than the amount, an `empty()` value ("" or "0") on the last considered tag resets the result to `null`, even when earlier tags had values (as long as none of them carried the prefixed option) |
| `Pronamic.AmountFirstLiveDecides` | src/Pronamic.php:92-97 | for the amount, the first considered tag with a non-empty value decides the result: the parsed amount, or `null` when the parser fails; nothing after it is consulted |
| `Pronamic.OptionTagWins` | src/Pronamic.php:99-102 | for other types, the first considered tag with a value that carries the prefixed option wins, whatever follows |
| `Pronamic.AmountValueAsWritten` | src/Pronamic.php:92-97 | as written, a considered amount tag with a value reaches a call to a method that does not exist (fatal); otherwise the scan ends with `null` |
| `Pronamic.AmountCallCounterexample` | src/Pronamic.php:94 | one amount field holding "10": the as-written resolution is fatal, while the intended one yields the parsed amount |
| `Pronamic.DescriptionOr` | src/Pronamic.php:146-154 | the resolved description when there is one, else "Payment <id>" |
| `Pronamic.MethodFor` | src/Pronamic.php:157-162 | the method becomes iDEAL iff the resolved method is `empty()` and either an issuer resolved or the gateway requires a method; otherwise the resolved method is kept |
| `Pronamic.AddressValue` | src/Pronamic.php:215-221 | an address field is set iff its own value or the shared `address_` value is non-empty; its own value wins, and the shared one is the fallback |
| `Pronamic.AddressMapLookup` | src/Pronamic.php:200-223 | after the loop, each listed field holds exactly its resolved value, and no other field is set |
| `Pronamic.ResolveAddressField` | src/Pronamic.php:212-222 | one pass of the loop sets billing and shipping independently, each by the fallback rule |
| `Pronamic.ResolveAddresses` | src/Pronamic.php:188-223 | both addresses carry the contact name, and their fields are filled, in order, as `AddressMap` describes |
| `Pronamic.GetSubmissionPayment` | src/Pronamic.php:115-232 | no payment iff the amount resolves to `null` or there is no gateway; otherwise every field is given: the title, the description or its default, the source `contact-form-7`, the method with the iDEAL fallback, the issuer, the total from the amount's value, the customer's name and e-mail, and both addresses |
| `AmountTag.Handler` | src/AmountTag.php:45-85 | nothing is rendered iff the tag name is `empty()`; the legacy tag (src/Tags/AmountTag.php:51-88) does the same |
| `AmountTag.ParseValue` | src/AmountTag.php:93-103 | `null` exactly when the parser throws; otherwise the parsed amount |
| `AmountTag.Verdict` | src/AmountTag.php:112-133 | a required field left empty earns `invalid_required` and is never parsed; otherwise a value the parser rejects, including an empty value on an optional field, earns `invalid_pronamic_pay_amount`; no message iff the field is not required-and-empty and the value parses |
| `AmountTag.Validate` | src/AmountTag.php:112-133 | reads the missing field as "", trims it, and adds exactly the verdict's message, if any, to the result |
| `AmountTag.Messages` | src/AmountTag.php:142-152 | registers `invalid_pronamic_pay_amount` with its description and default text, and keeps every other entry; the legacy `messages` (src/Tags/AmountTag.php:139-149) is the same |
| `PaymentMethodTag.Handler` | src/PaymentMethodTag.php:49-134 | nothing is rendered iff the name is `empty()` or there is no gateway; otherwise the select's options are those of the listed methods, built one by one in the loop |
| `PaymentMethodTag.OptionsMembers` | src/PaymentMethodTag.php:109-115 | an option is offered iff a gateway method with that id and name exists and is listed: always when the tag has no values, otherwise only when its id is a pipe value |
| `PaymentMethodTag.OptionsConcat` | src/PaymentMethodTag.php:109-123 | one option per listed method, in the gateway's order |
| `PaymentMethodTag.NoValuesListsAll` | src/PaymentMethodTag.php:113 | a tag without values lists every method the gateway returns |
| `PaymentMethodTag.NoPipesListsNothing` | src/PaymentMethodTag.php:93-115 | a tag with values but without pipes lists nothing |
| `PaymentMethodTag.OfferedArePipeValues` | src/PaymentMethodTag.php:95-115 | for a tag with values, every offered id is one of its pipes' values |
| `Form.RequiredVerdict` | src/PaymentMethodTag.php:143-157 | a message is added iff the field is required and its trimmed value is `empty()`, and it is `invalid_required`; the legacy issuer tag (src/Tags/IssuerTag.php:139-150) uses the same rule |
| `PaymentMethodTag.Validate` | src/PaymentMethodTag.php:143-157 | adds exactly the required-field verdict's message, if any |
| `PaymentMethodTag.Messages` | src/PaymentMethodTag.php:166-176 | registers `invalid_pronamic_pay_method_required` and keeps every other entry; the legacy `messages` (src/Tags/PaymentMethodTag.php:186-196) is the same |
| `TagsAmountTag.GetValue` | src/Tags/AmountTag.php:90-102 | `null` exactly when the parser throws on the trimmed POST value; otherwise the parsed amount |
| `TagsAmountTag.Validate` | src/Tags/AmountTag.php:112-130 | adds exactly the current amount tag's verdict for the trimmed POST value |
| `TagsPaymentMethodTag.Handler` | src/Tags/PaymentMethodTag.php:53-133 | nothing is rendered iff the name is `empty()` or there is no gateway; otherwise the select keeps, in order, the gateway's field options that are not direct debit and that the tag lists |
| `TagsPaymentMethodTag.HandlerOffers` | src/Tags/PaymentMethodTag.php:107-114 | an option is offered iff it is one of the gateway's options, it is not direct debit, and the tag lists it; so direct debit is never offered |
| `Form.OptionalInput` | src/Tags/PaymentMethodTag.php:141-149 | `null` iff the trimmed POST value is `empty()`, otherwise the trimmed value; the legacy issuer tag's `get_value` (src/Tags/IssuerTag.php:122-130) is the same code |
| `TagsPaymentMethodTag.Verdict` | src/Tags/PaymentMethodTag.php:158-178 | a message is added iff the value is `empty()` and the field is required or the gateway requires a method; it is `invalid_required` iff the field is required; a non-empty value is never rejected |
| `TagsPaymentMethodTag.VerdictExtendsRequired` | src/Tags/PaymentMethodTag.php:162-175 | the legacy verdict only adds the gateway rule on top of the required check |
| `TagsPaymentMethodTag.Validate` | src/Tags/PaymentMethodTag.php:158-178 | adds exactly the verdict's message, if any |
| `TagsIssuerTag.Handler` | src/Tags/IssuerTag.php:51-114 | nothing is rendered iff the name is `empty()`, there is no gateway, or it has no issuers; otherwise the options are one blank option followed by the first issuer group's options, in order |
| `TagsIssuerTag.Validate` | src/Tags/IssuerTag.php:139-150 | only a required field left empty is rejected, with `invalid_required` |

## Left out

- Sanitising the POST data is not modelled. This covers `FILTER_SANITIZE_STRING`, `sanitize_text_field`
  and `wp_unslash`. The POST map holds values after sanitising. Array-valued POST fields are not modelled.
- `json_decode` of the hidden-group field is the `decode` parameter of `HiddenFields`. The decoded list
  is taken to hold strings, so the strict `in_array` test becomes string membership.
- `wpcf7_array_flatten` is taken as already applied: posted data is a flat list per field.
- Everything about HTML is not modelled: markup, escaping, attributes, CSS classes, `selected()`,
  hangover and default values, and validation error display. A handler's result records only whether
  it renders and which option values and texts it emits, in order.
- Translation (`__`) is not modelled; message texts and the payment title are the untranslated strings.
- The payment's unique id comes from `time()`. It is the `uniqueId` parameter.
- Looking up the default gateway (`get_option`, `Plugin::get_gateway`) is not modelled. The gateway is
  a parameter.
- The payment library's direct-debit classification is the `isDirectDebit` parameter.
- The money parser's internals are not modelled, and neither are the `TaxedMoney`, `Payment`,
  `Customer`, `ContactName` and `Address` classes.
- The payment total records only the amount's value. `new TaxedMoney($amount->get_value())` drops the
  parsed currency, and the library's default currency is not modelled.
- Contact Form 7's `WPCF7_Validation::invalidate` is not part of this model. The result keeps a log of
  (field, message key) pairs, and a message's text lookup (`wpcf7_get_message`) is left out.
- `array_merge` on the message table is modelled as a map update. The order of the table's entries is
  not modelled.
- `HasOption`: Contact Form 7's `has_option` is not part of this model. It is modelled as plain set
  membership of the option string; the engine's own matching of `name:value` options and its case
  handling are not captured.
- `WPCF7_USE_PIPE` in `get_values_by_tag` is identified with the tag having a pipes object.
- `array_combine` always gets lists of equal length here, so its `false` result does not arise.
- PHP's loose comparison in `array_search` is replaced by string equality. The same goes for PHP's
  conversion of numeric-string array keys to integers.
- src/Extension.php is not part of this model: hook registration, starting the payment, and the
  redirect. It calls `Pronamic::get_payment`, which src/Pronamic.php does not declare.
- Pronamic.php:94 calls `Tags\AmountTag::parse_value`, which src/Tags/AmountTag.php does not declare.
  `SubmissionValue` binds the call to the current tag's `parse_value`, and
  `AmountValueAsWritten` models the call as written (see Findings).

## Findings

| source | as written | input that shows it | evidently intended | confidence | as-written member | corrected member |
|---|---|---|---|---|---|---|
| src/Pronamic.php:94 | the amount branch calls `Tags\AmountTag::parse_value`, which the legacy amount tag class does not declare, so PHP stops with a fatal error and no payment is ever built | a form with one `pronamic_pay_amount` field named `amount` that holds "10" | parse the value with the current amount tag's `parse_value` and return the amount | high, not executed | `Pronamic.AmountValueAsWritten` | `Pronamic.AmountFirstLiveDecides` |
