/**
 * The legacy `pronamic_pay_method` tag (the `Tags` generation): a select over the gateway's payment
 * method field options, and validation that honours a gateway that requires a method. Its `get_value`
 * is `Form.OptionalInput`.
 */
module TagsPaymentMethodTag {
  import opened Wrappers
  import opened Php
  import opened Seqs
  import opened Form
  import PaymentMethodTag

  /**
   * Whether the select offers an option: never a direct-debit method (`isDirectDebit` stands for the
   * payment library's classification, which is not part of this model), and otherwise as the current
   * tag decides from its values and pipes.
   */
  predicate Offered(tag: FormTag, isDirectDebit: string -> bool, option: SelectOption) {
    !isDirectDebit(option.value) && PaymentMethodTag.Listed(tag, option.value)
  }

  function OfferedFor(tag: FormTag, isDirectDebit: string -> bool): SelectOption -> bool {
    (o: SelectOption) => Offered(tag, isDirectDebit, o)
  }

  /**
   * `handler`: nothing for a tag whose name `empty()` rejects or when no gateway is configured;
   * otherwise a select with the gateway's field options it offers, in the gateway's order.
   */
  method Handler(tag: FormTag, gateway: Option<Gateway>, isDirectDebit: string -> bool) returns (r: Markup)
    ensures r.NoMarkup? <==> Empty(tag.name) || gateway.None?
    ensures !r.NoMarkup? ==>
      r == Select(tag.name, Filter(gateway.value.paymentMethodFieldOptions, OfferedFor(tag, isDirectDebit)))
  {
    if Empty(tag.name) {
      return NoMarkup;
    }
    if gateway.None? {
      return NoMarkup;
    }
    var methodOptions := gateway.value.paymentMethodFieldOptions;
    var options: seq<SelectOption> := [];
    var i := 0;
    while i < |methodOptions|
      invariant 0 <= i <= |methodOptions|
      invariant options == Filter(methodOptions[..i], OfferedFor(tag, isDirectDebit))
    {
      var option := methodOptions[i];
      FilterSnoc(methodOptions, i, OfferedFor(tag, isDirectDebit));
      if isDirectDebit(option.value) {
        i := i + 1;
        continue;
      }
      if |tag.values| != 0 && !IsPipeKey(tag.pipes, option.value) {
        i := i + 1;
        continue;
      }
      options := options + [option];
      i := i + 1;
    }
    assert methodOptions[..i] == methodOptions;
    return Select(tag.name, options);
  }

  /**
   * What the select offers: exactly the gateway's options that are not direct debit and that the tag
   * lists; so no direct-debit method is ever offered.
   */
  lemma HandlerOffers(tag: FormTag, options: seq<SelectOption>, isDirectDebit: string -> bool, o: SelectOption)
    ensures o in Filter(options, OfferedFor(tag, isDirectDebit)) <==>
      o in options && !isDirectDebit(o.value) && PaymentMethodTag.Listed(tag, o.value)
  {
    FilterMembers(options, OfferedFor(tag, isDirectDebit), o);
  }

  /**
   * The message `validate` adds for the trimmed POST value, if any: a required field left empty is
   * rejected as required; an optional one left empty is rejected when a gateway is configured that
   * requires a payment method; a non-empty value is always accepted.
   */
  function Verdict(required: bool, value: string, gateway: Option<Gateway>): (r: Option<MessageKey>)
    ensures r.Some? <==> Empty(value) && (required || (gateway.Some? && gateway.value.paymentMethodIsRequired))
    ensures r == Some(InvalidRequired) <==> required && Empty(value)
    ensures r != Some(InvalidAmount)
  {
    if required && Empty(value) then Some(InvalidRequired)
    else if gateway.Some? && gateway.value.paymentMethodIsRequired && Empty(value) then Some(InvalidMethodRequired)
    else None
  }

  /** The legacy verdict only adds the gateway rule to the current tag's required check. */
  lemma VerdictExtendsRequired(required: bool, value: string, gateway: Option<Gateway>)
    ensures RequiredVerdict(required, value).Some? ==> Verdict(required, value, gateway) == RequiredVerdict(required, value)
    ensures gateway.None? ==> Verdict(required, value, gateway) == RequiredVerdict(required, value)
  {
  }

  /** `validate`: adds the verdict's message to the result, and nothing else. */
  method Validate(result: Validation, tag: FormTag, post: map<string, string>, gateway: Option<Gateway>)
    modifies result
    ensures result.invalid == old(result.invalid) + Issued(tag, Verdict(tag.required, Input(post, tag.name), gateway))
  {
    var value := Trim(PostedText(post, tag.name));
    if tag.required && Empty(value) {
      result.Invalidate(tag, InvalidRequired);
      return;
    }
    if gateway.Some? && gateway.value.paymentMethodIsRequired && Empty(value) {
      result.Invalidate(tag, InvalidMethodRequired);
      return;
    }
  }
}
