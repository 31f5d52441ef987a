/**
 * The legacy `pronamic_pay_amount` tag (the `Tags` generation). It renders and registers its message as
 * the current tag does; what it adds is a `get_value` that reads and parses the POST field itself.
 */
module TagsAmountTag {
  import opened Wrappers
  import opened Php
  import opened Form
  import AmountTag

  /** `get_value`: the trimmed POST field parsed, or `null` exactly when the parser throws. */
  function GetValue(post: map<string, string>, name: string, parse: Parser): (r: Option<Money>)
    ensures r.None? <==> parse(Input(post, name)).Failure?
    ensures r.Some? ==> parse(Input(post, name)) == Success(r.value)
  {
    match parse(Trim(PostedText(post, name)))
    case Success(amount) => Some(amount)
    case Failure(_) => None
  }

  /** The legacy reader agrees with the current tag's parser applied to the same trimmed value. */
  lemma GetValueAgrees(post: map<string, string>, name: string, parse: Parser)
    ensures GetValue(post, name, parse) == AmountTag.ParseValue(parse, Input(post, name))
  {
  }

  /**
   * `validate`: a required, empty field is rejected as required; otherwise a field `get_value` cannot
   * parse is an invalid amount. This is the current tag's verdict.
   */
  method Validate(result: Validation, tag: FormTag, post: map<string, string>, parse: Parser)
    modifies result
    ensures result.invalid == old(result.invalid) + Issued(tag, AmountTag.Verdict(tag.required, Input(post, tag.name), parse))
  {
    var value := Trim(PostedText(post, tag.name));
    if tag.required && Empty(value) {
      result.Invalidate(tag, InvalidRequired);
      return;
    }
    var amount := GetValue(post, tag.name, parse);
    if amount.None? {
      result.Invalidate(tag, InvalidAmount);
    }
  }
}
