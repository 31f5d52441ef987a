/** The `pronamic_pay_amount` form tag (current generation): parsing, validation and its message. */
module AmountTag {
  import opened Wrappers
  import opened Php
  import opened Form

  const Tag := "pronamic_pay_amount"

  /** `handler`, reduced to whether it renders: a tag whose name `empty()` rejects renders nothing. */
  function Handler(tag: FormTag): (r: Markup)
    ensures r.NoMarkup? <==> Empty(tag.name)
    ensures !r.NoMarkup? ==> r == TextInput(tag.name)
  {
    if Empty(tag.name) then NoMarkup else TextInput(tag.name)
  }

  /** `parse_value`: the parsed amount, or `null` exactly when the parser throws. */
  function ParseValue(parse: Parser, value: string): (r: Option<Money>)
    ensures r.None? <==> parse(value).Failure?
    ensures r.Some? ==> parse(value) == Success(r.value)
  {
    match parse(value)
    case Success(amount) => Some(amount)
    case Failure(_) => None
  }

  /**
   * The message `validate` adds, if any, for the trimmed POST value `value` ("" when the field is missing).
   * A required tag with an empty value is rejected as required and never parsed; otherwise a value
   * the parser rejects, the empty value included, is an invalid amount.
   */
  function Verdict(required: bool, value: string, parse: Parser): (r: Option<MessageKey>)
    ensures required && Empty(value) ==> r == Some(InvalidRequired)
    ensures !required ==> (r.Some? <==> parse(value).Failure?)
    ensures !Empty(value) ==> (r.Some? <==> parse(value).Failure?)
    ensures !(required && Empty(value)) ==> (r == Some(InvalidAmount) <==> parse(value).Failure?)
    ensures r == Some(InvalidAmount) ==> parse(value).Failure?
    ensures r != Some(InvalidMethodRequired)
    ensures r.None? <==> !(required && Empty(value)) && parse(value).Success?
  {
    if required && Empty(value) then Some(InvalidRequired)
    else if ParseValue(parse, value).None? then Some(InvalidAmount)
    else None
  }

  /** `validate`: adds the verdict's message to the result, and nothing else. */
  method Validate(result: Validation, tag: FormTag, post: map<string, string>, parse: Parser)
    modifies result
    ensures result.invalid == old(result.invalid) + Issued(tag, Verdict(tag.required, Input(post, tag.name), parse))
  {
    var value := PostedText(post, tag.name);
    value := Trim(value);
    if tag.required && Empty(value) {
      result.Invalidate(tag, InvalidRequired);
      return;
    }
    var amount := ParseValue(parse, value);
    if amount.None? {
      result.Invalidate(tag, InvalidAmount);
    }
  }

  /** `messages`: registers the invalid-amount message and keeps every other message. */
  function Messages(messages: map<string, MessageEntry>): (r: map<string, MessageEntry>)
    ensures InvalidAmount.Key() in r && r[InvalidAmount.Key()] == MessageEntry("Input amount is invalid.", "The input amount is invalid.")
    ensures forall k :: k != InvalidAmount.Key() ==> (k in r <==> k in messages)
    ensures forall k :: k in messages && k != InvalidAmount.Key() ==> r[k] == messages[k]
  {
    MergeMessage(messages, InvalidAmount.Key(), MessageEntry("Input amount is invalid.", "The input amount is invalid."))
  }
}
