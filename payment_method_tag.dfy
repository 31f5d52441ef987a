/** The `pronamic_pay_method` form tag (current generation): the payment method select, its validation and message. */
module PaymentMethodTag {
  import opened Wrappers
  import opened Php
  import opened Seqs
  import opened Form

  const Tag := "pronamic_pay_method"

  /**
   * Whether the select lists a payment method: always when the tag declares no values, otherwise only
   * when the method's id is the value of one of the tag's pipes.
   */
  predicate Listed(tag: FormTag, id: string) {
    |tag.values| == 0 || IsPipeKey(tag.pipes, id)
  }

  function ListedFor(tag: FormTag): PaymentMethod -> bool {
    (m: PaymentMethod) => Listed(tag, m.id)
  }

  /** The `<option>` of one payment method: its id as value, its name as text. */
  function AsOption(m: PaymentMethod): SelectOption {
    SelectOption(m.id, m.name)
  }

  /** The options `handler` renders: the gateway's methods it lists, in the gateway's order. */
  function Options(tag: FormTag, methods: seq<PaymentMethod>): seq<SelectOption> {
    Map(Filter(methods, ListedFor(tag)), AsOption)
  }

  /**
   * `handler`: nothing for a tag whose name `empty()` rejects or when no gateway is configured;
   * otherwise a select offering, one by one, the gateway's payment methods the tag lists.
   */
  method Handler(tag: FormTag, gateway: Option<Gateway>) returns (r: Markup)
    ensures r.NoMarkup? <==> Empty(tag.name) || gateway.None?
    ensures !r.NoMarkup? ==> r == Select(tag.name, Options(tag, gateway.value.paymentMethods))
  {
    if Empty(tag.name) {
      return NoMarkup;
    }
    if gateway.None? {
      return NoMarkup;
    }
    var methods := gateway.value.paymentMethods;
    var options: seq<SelectOption> := [];
    var i := 0;
    while i < |methods|
      invariant 0 <= i <= |methods|
      invariant options == Options(tag, methods[..i])
    {
      var m := methods[i];
      FilterSnoc(methods, i, ListedFor(tag));
      MapSnoc(Filter(methods[..i], ListedFor(tag)), m, AsOption);
      if |tag.values| != 0 && !IsPipeKey(tag.pipes, m.id) {
        i := i + 1;
        continue;
      }
      options := options + [SelectOption(m.id, m.name)];
      i := i + 1;
    }
    assert methods[..i] == methods;
    return Select(tag.name, options);
  }

  /** An option is offered exactly when a method the tag lists carries its id and name. */
  lemma OptionsMembers(tag: FormTag, methods: seq<PaymentMethod>, o: SelectOption)
    ensures o in Options(tag, methods) <==> PaymentMethod(o.value, o.text) in methods && Listed(tag, o.value)
  {
    var kept := Filter(methods, ListedFor(tag));
    FilterMembers(methods, ListedFor(tag), PaymentMethod(o.value, o.text));
    if o in Options(tag, methods) {
      var i :| 0 <= i < |kept| && Options(tag, methods)[i] == o;
      assert kept[i] == PaymentMethod(o.value, o.text);
    }
    if PaymentMethod(o.value, o.text) in kept {
      var i :| 0 <= i < |kept| && kept[i] == PaymentMethod(o.value, o.text);
      assert Options(tag, methods)[i] == o;
    }
  }

  /** The options of two runs of methods are the options of each, in order: one option per listed method, in the gateway's order. */
  lemma OptionsConcat(tag: FormTag, a: seq<PaymentMethod>, b: seq<PaymentMethod>)
    ensures Options(tag, a + b) == Options(tag, a) + Options(tag, b)
  {
    FilterConcat(a, b, ListedFor(tag));
    MapConcat(Filter(a, ListedFor(tag)), Filter(b, ListedFor(tag)), AsOption);
  }

  /** A single method yields its own option when listed and nothing otherwise. */
  lemma OptionsSingle(tag: FormTag, m: PaymentMethod)
    ensures Options(tag, [m]) == if Listed(tag, m.id) then [SelectOption(m.id, m.name)] else []
  {
    FilterSingle(m, ListedFor(tag));
  }

  /** With no values declared, every method of the gateway is offered, in order. */
  lemma {:induction false} NoValuesListsAll(tag: FormTag, methods: seq<PaymentMethod>)
    requires |tag.values| == 0
    ensures Options(tag, methods) == Map(methods, AsOption)
  {
    if |methods| > 0 {
      NoValuesListsAll(tag, methods[..|methods| - 1]);
    }
  }

  /** With values declared but no pipes, nothing is offered. */
  lemma NoPipesListsNothing(tag: FormTag, methods: seq<PaymentMethod>)
    requires |tag.values| != 0 && tag.pipes.None?
    ensures Options(tag, methods) == []
  {
    FilterNone(methods, ListedFor(tag));
  }

  /** With values declared, every offered option's value is the value of one of the tag's pipes. */
  lemma OfferedArePipeValues(tag: FormTag, methods: seq<PaymentMethod>, o: SelectOption)
    requires |tag.values| != 0 && o in Options(tag, methods)
    ensures tag.pipes.Some? && o.value in Afters(tag.pipes.value)
  {
    OptionsMembers(tag, methods, o);
    CombineKeys(tag.pipes.value, o.value);
  }

  /** `validate`: only a required field left empty is rejected; nothing else changes. */
  method Validate(result: Validation, tag: FormTag, post: map<string, string>)
    modifies result
    ensures result.invalid == old(result.invalid) + Issued(tag, RequiredVerdict(tag.required, Input(post, tag.name)))
  {
    var value := PostedText(post, tag.name);
    value := Trim(value);
    if tag.required && Empty(value) {
      result.Invalidate(tag, InvalidRequired);
      return;
    }
  }

  /** `messages`: registers the method-required message and keeps every other message. */
  function Messages(messages: map<string, MessageEntry>): (r: map<string, MessageEntry>)
    ensures InvalidMethodRequired.Key() in r
    ensures r[InvalidMethodRequired.Key()] == MessageEntry("Payment method required.", "The payment method is invalid.")
    ensures forall k :: k != InvalidMethodRequired.Key() ==> (k in r <==> k in messages)
    ensures forall k :: k in messages && k != InvalidMethodRequired.Key() ==> r[k] == messages[k]
  {
    MergeMessage(messages, InvalidMethodRequired.Key(), MessageEntry("Payment method required.", "The payment method is invalid."))
  }
}
