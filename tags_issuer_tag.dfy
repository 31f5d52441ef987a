/** The legacy `pronamic_pay_issuer` tag (the `Tags` generation): the issuer select and its required check. */
module TagsIssuerTag {
  import opened Wrappers
  import opened Php
  import opened Form

  /** The leading `<option></option>`: no value, no text. */
  const Blank := SelectOption("", "")

  /** The options of the first issuer group, or none when the gateway returned no group. */
  function FirstGroupOptions(groups: seq<IssuerGroup>): seq<SelectOption> {
    if |groups| == 0 then [] else groups[0].options
  }

  /**
   * `handler`: nothing for a tag whose name `empty()` rejects, without a gateway, or when the gateway
   * has no issuers; otherwise a select that starts with a blank option followed by the first issuer
   * group's options, in order.
   */
  method Handler(tag: FormTag, gateway: Option<Gateway>) returns (r: Markup)
    ensures r.NoMarkup? <==> Empty(tag.name) || gateway.None? || gateway.value.transientIssuers.None?
    ensures !r.NoMarkup? ==> r == Select(tag.name, [Blank] + FirstGroupOptions(gateway.value.transientIssuers.value))
  {
    if Empty(tag.name) {
      return NoMarkup;
    }
    if gateway.None? {
      return NoMarkup;
    }
    var issuerOptions := gateway.value.transientIssuers;
    if issuerOptions.None? {
      return NoMarkup;
    }
    var options := [Blank];
    var first := FirstGroupOptions(issuerOptions.value);
    var i := 0;
    while i < |first|
      invariant 0 <= i <= |first|
      invariant options == [Blank] + first[..i]
    {
      options := options + [first[i]];
      assert first[..i + 1] == first[..i] + [first[i]];
      i := i + 1;
    }
    assert first[..i] == first;
    return Select(tag.name, options);
  }

  /** `validate`: only a required field left empty is rejected; nothing else changes. */
  method Validate(result: Validation, tag: FormTag, post: map<string, string>)
    modifies result
    ensures result.invalid == old(result.invalid) + Issued(tag, RequiredVerdict(tag.required, Input(post, tag.name)))
  {
    var value := Trim(PostedText(post, tag.name));
    if tag.required && Empty(value) {
      result.Invalidate(tag, InvalidRequired);
      return;
    }
  }
}
