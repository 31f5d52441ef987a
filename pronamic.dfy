/**
 * The payment assembler: resolves payment fields from the scanned form tags and the POST data, and
 * builds the payment request (amount, description, method, issuer, customer, addresses).
 */
module Pronamic {
  import opened Wrappers
  import opened Php
  import opened Seqs
  import opened Form
  import AmountTag

  const Prefix := "pronamic_pay_"
  const Ideal := "ideal"
  const Source := "contact-form-7"

  /** What `get_submission_value` returns: `null`, a string, or a parsed amount. */
  datatype Value = Null | Text(s: string) | Amount(money: Money)

  /** A tag is consulted for `typ` when its base type is `typ` or `pronamic_pay_<typ>`, or it has option `pronamic_pay_<typ>`. */
  predicate Considered(tag: FormTag, typ: string) {
    tag.basetype == typ || tag.basetype == Prefix + typ || HasOption(tag, Prefix + typ)
  }

  function ConsideredFor(typ: string): FormTag -> bool {
    (t: FormTag) => Considered(t, typ)
  }

  /** A considered tag whose trimmed POST value is not `empty()`. */
  predicate IsLive(post: map<string, string>, typ: string, t: FormTag) {
    Considered(t, typ) && !Empty(Input(post, t.name))
  }

  function Live(post: map<string, string>, typ: string): FormTag -> bool {
    (t: FormTag) => IsLive(post, typ, t)
  }

  /** A live tag that also carries the prefixed option: for types other than the amount it ends the scan. */
  predicate IsDecisive(post: map<string, string>, typ: string, t: FormTag) {
    IsLive(post, typ, t) && HasOption(t, Prefix + typ)
  }

  function Decisive(post: map<string, string>, typ: string): FormTag -> bool {
    (t: FormTag) => IsDecisive(post, typ, t)
  }

  /**
   * A posted pipe label replaced by its pipe's value. A value that is no pipe's label stays as it is;
   * a replacement always comes from a pipe labelled with the posted value.
   */
  function Substituted(tag: FormTag, value: string): (r: string)
    ensures tag.pipes.None? ==> r == value
    ensures tag.pipes.Some? && (forall i :: 0 <= i < |tag.pipes.value| ==> tag.pipes.value[i].before != value) ==> r == value
    ensures r == value || (tag.pipes.Some? && Pipe(value, r) in tag.pipes.value)
  {
    if tag.pipes.None? then value
    else
      var found := SearchBefore(Combine(tag.pipes.value), value);
      if found.Some? then found.value else value
  }

  /** With no two pipes sharing a value, a posted label is replaced by the value of the first pipe with that label. */
  lemma SubstitutedDistinct(tag: FormTag, value: string, k: nat)
    requires tag.pipes.Some? && k < |tag.pipes.value|
    requires forall i, j :: 0 <= i < j < |tag.pipes.value| ==> tag.pipes.value[i].after != tag.pipes.value[j].after
    requires tag.pipes.value[k].before == value
    requires forall j :: 0 <= j < k ==> tag.pipes.value[j].before != value
    ensures Substituted(tag, value) == tag.pipes.value[k].after
  {
    CombineDistinct(tag.pipes.value);
    SearchFirst(tag.pipes.value, value, k);
  }

  lemma {:induction false} SearchFirst(assoc: seq<Pipe>, value: string, k: nat)
    requires k < |assoc| && assoc[k].before == value
    requires forall j :: 0 <= j < k ==> assoc[j].before != value
    ensures SearchBefore(assoc, value) == Some(assoc[k].after)
  {
    if k > 0 {
      SearchFirst(assoc[1..], value, k - 1);
    }
  }

  /** The value a tag yields once it is read: its trimmed POST value with pipes applied. */
  function Resolved(post: map<string, string>, tag: FormTag): string {
    Substituted(tag, Input(post, tag.name))
  }

  function AmountOf(amount: Option<Money>): Value {
    if amount.Some? then Amount(amount.value) else Null
  }

  /** The value left by the last considered tag: `null` when there is none or its value is empty. */
  function LastValue(tags: seq<FormTag>, post: map<string, string>, typ: string): (r: Value)
    ensures !r.Amount?
  {
    var m := LastIndex(tags, ConsideredFor(typ));
    if m < 0 || Empty(Input(post, tags[m].name)) then Null else Text(Resolved(post, tags[m]))
  }

  /**
   * What `get_submission_value(typ)` resolves to. For the amount, the first live tag decides: its value
   * parsed, or `null` when the parser throws. For other types, the first live tag carrying the
   * prefixed option decides; failing that, the last considered tag does.
   */
  function SubmissionValue(tags: seq<FormTag>, post: map<string, string>, typ: string, parse: Parser): (r: Value)
    ensures typ == "amount" ==> !r.Text?
    ensures typ != "amount" ==> !r.Amount?
  {
    if typ == "amount" then
      var k := FirstIndex(tags, Live(post, typ));
      if k == |tags| then Null else AmountOf(AmountTag.ParseValue(parse, Resolved(post, tags[k])))
    else
      var k := FirstIndex(tags, Decisive(post, typ));
      if k < |tags| then Text(Resolved(post, tags[k])) else LastValue(tags, post, typ)
  }

  /**
   * How a call to `get_submission_value` ends: with a value, or with the fatal error PHP raises when a
   * static method that does not exist is called.
   */
  datatype Outcome = Returns(value: Value) | Fatal

  /**
   * The amount branch as written: the first live amount tag reaches the call to
   * `Tags\AmountTag::parse_value`, a method the legacy amount tag class does not declare, so the call is
   * fatal; without a live tag the scan ends with `null`.
   */
  function AmountValueAsWritten(tags: seq<FormTag>, post: map<string, string>): (r: Outcome)
    ensures r.Fatal? <==> exists j :: 0 <= j < |tags| && Live(post, "amount")(tags[j])
    ensures r.Returns? ==> r.value == Null
  {
    if FirstIndex(tags, Live(post, "amount")) < |tags| then Fatal else Returns(Null)
  }

  /**
   * A form with one amount field holding "10": as written the resolution is fatal, so no payment is ever
   * started, while the intended resolution yields the parsed amount.
   */
  lemma AmountCallCounterexample()
    ensures var tag := FormTag("amount", "pronamic_pay_amount", "pronamic_pay_amount", {}, [], None, false, true);
      var post := map["amount" := "10"];
      var parse: Parser := (s: string) => Success(Money(10.0, "EUR"));
      && AmountValueAsWritten([tag], post).Fatal?
      && SubmissionValue([tag], post, "amount", parse) == Amount(Money(10.0, "EUR"))
  {
    var tag := FormTag("amount", "pronamic_pay_amount", "pronamic_pay_amount", {}, [], None, false, true);
    var post := map["amount" := "10"];
    var parse: Parser := (s: string) => Success(Money(10.0, "EUR"));
    assert PostedText(post, "amount") == "10";
    TrimKeeps("10");
    assert Live(post, "amount")(tag);
    FirstIndexIs([tag], Live(post, "amount"), 0);
  }

  /** One more tag in the scan: a considered tag overrides the value so far, any other tag leaves it. */
  lemma LastValueSnoc(tags: seq<FormTag>, post: map<string, string>, typ: string, i: nat)
    requires i < |tags|
    ensures LastValue(tags[..i + 1], post, typ) ==
      if !Considered(tags[i], typ) then LastValue(tags[..i], post, typ)
      else if Empty(Input(post, tags[i].name)) then Null
      else Text(Resolved(post, tags[i]))
  {
    LastIndexSnoc(tags, i, ConsideredFor(typ));
    assert tags[..i + 1][i] == tags[i];
  }

  /** The first live amount tag decides the amount. */
  lemma AmountDecidedAt(tags: seq<FormTag>, post: map<string, string>, parse: Parser, i: nat)
    requires i < |tags| && IsLive(post, "amount", tags[i])
    requires forall j :: 0 <= j < i ==> !IsLive(post, "amount", tags[j])
    ensures SubmissionValue(tags, post, "amount", parse) == AmountOf(AmountTag.ParseValue(parse, Resolved(post, tags[i])))
  {
    FirstIndexIs(tags, Live(post, "amount"), i);
  }

  /** For other types, the first decisive tag decides. */
  lemma DecidedAt(tags: seq<FormTag>, post: map<string, string>, typ: string, parse: Parser, i: nat)
    requires typ != "amount"
    requires i < |tags| && IsDecisive(post, typ, tags[i])
    requires forall j :: 0 <= j < i ==> !IsDecisive(post, typ, tags[j])
    ensures SubmissionValue(tags, post, typ, parse) == Text(Resolved(post, tags[i]))
  {
    FirstIndexIs(tags, Decisive(post, typ), i);
  }

  /** A scan that never stops early ends with `null` for the amount and with the last considered tag's value otherwise. */
  lemma ScanExhausted(tags: seq<FormTag>, post: map<string, string>, typ: string, parse: Parser)
    requires typ == "amount" ==> forall j :: 0 <= j < |tags| ==> !IsLive(post, typ, tags[j])
    requires typ != "amount" ==> forall j :: 0 <= j < |tags| ==> !IsDecisive(post, typ, tags[j])
    ensures SubmissionValue(tags, post, typ, parse) == if typ == "amount" then Null else LastValue(tags, post, typ)
  {
    if typ == "amount" {
      FirstIndexIs(tags, Live(post, typ), |tags|);
    } else {
      FirstIndexIs(tags, Decisive(post, typ), |tags|);
    }
  }

  /** `get_submission_value`: one pass over the scanned tags that may stop early. */
  method GetSubmissionValue(tags: seq<FormTag>, post: map<string, string>, typ: string, parse: Parser) returns (v: Value)
    ensures v == SubmissionValue(tags, post, typ, parse)
  {
    var value := Null;
    var prefixedType := Prefix + typ;
    var i := 0;
    while i < |tags|
      invariant 0 <= i <= |tags|
      invariant typ == "amount" ==> value == Null && forall j :: 0 <= j < i ==> !IsLive(post, typ, tags[j])
      invariant typ != "amount" ==> value == LastValue(tags[..i], post, typ)
      invariant typ != "amount" ==> forall j :: 0 <= j < i ==> !IsDecisive(post, typ, tags[j])
    {
      var tag := tags[i];
      LastValueSnoc(tags, post, typ, i);
      if tag.basetype != typ && tag.basetype != prefixedType && !HasOption(tag, prefixedType) {
        i := i + 1;
        continue;
      }
      var text := Trim(PostedText(post, tag.name));
      if Empty(text) {
        value := Null;
        i := i + 1;
        continue;
      }
      text := Substituted(tag, text);
      if typ == "amount" {
        AmountDecidedAt(tags, post, parse, i);
        v := AmountOf(AmountTag.ParseValue(parse, text));
        return;
      }
      value := Text(text);
      if HasOption(tag, prefixedType) {
        DecidedAt(tags, post, typ, parse, i);
        v := value;
        return;
      }
      i := i + 1;
    }
    assert tags[..i] == tags;
    ScanExhausted(tags, post, typ, parse);
    v := value;
  }

  /** A tag that is not considered for `typ` can stand anywhere without changing what `typ` resolves to. */
  lemma IgnoredTag(a: seq<FormTag>, t: FormTag, b: seq<FormTag>, post: map<string, string>, typ: string, parse: Parser)
    requires !Considered(t, typ)
    ensures SubmissionValue(a + [t] + b, post, typ, parse) == SubmissionValue(a + b, post, typ, parse)
  {
    if typ == "amount" {
      IgnoredFirst(a, t, b, Live(post, typ), post);
    } else {
      IgnoredFirst(a, t, b, Decisive(post, typ), post);
      IgnoredLast(a, t, b, post, typ);
    }
  }

  /** Skipping a tag that is not considered leaves the last considered tag unchanged. */
  lemma IgnoredLast(a: seq<FormTag>, t: FormTag, b: seq<FormTag>, post: map<string, string>, typ: string)
    requires !Considered(t, typ)
    ensures LastValue(a + [t] + b, post, typ) == LastValue(a + b, post, typ)
  {
    var s, s' := a + b, a + [t] + b;
    LastIndexSkip(a, t, b, ConsideredFor(typ));
    var m := LastIndex(s, ConsideredFor(typ));
    if m >= 0 {
      assert s'[if m < |a| then m else m + 1] == s[m];
    }
  }

  /** Skipping a tag the predicate rejects leaves the tag found first unchanged. */
  lemma IgnoredFirst(a: seq<FormTag>, t: FormTag, b: seq<FormTag>, p: FormTag -> bool, post: map<string, string>)
    requires !p(t)
    ensures var k, k' := FirstIndex(a + b, p), FirstIndex(a + [t] + b, p);
      (k == |a + b| <==> k' == |a + [t] + b|) && (k < |a + b| ==> (a + [t] + b)[k'] == (a + b)[k])
  {
    var s, s' := a + b, a + [t] + b;
    FirstIndexSkip(a, t, b, p);
    var k := FirstIndex(s, p);
    if k < |s| {
      assert s'[if k < |a| then k else k + 1] == s[k];
    }
  }

  /** For the amount, the first live tag decides; nothing after it is consulted. */
  lemma AmountFirstLiveDecides(a: seq<FormTag>, t: FormTag, b: seq<FormTag>, post: map<string, string>, parse: Parser)
    requires forall j :: 0 <= j < |a| ==> !Live(post, "amount")(a[j])
    requires Live(post, "amount")(t)
    ensures SubmissionValue(a + [t] + b, post, "amount", parse) == AmountOf(AmountTag.ParseValue(parse, Resolved(post, t)))
  {
    var s := a + [t] + b;
    assert s[|a|] == t;
    assert forall j :: 0 <= j < |a| ==> s[j] == a[j];
    FirstIndexIs(s, Live(post, "amount"), |a|);
  }

  /** For other types, the first live tag with the prefixed option wins, whatever follows it. */
  lemma OptionTagWins(a: seq<FormTag>, t: FormTag, b: seq<FormTag>, post: map<string, string>, typ: string, parse: Parser)
    requires typ != "amount"
    requires forall j :: 0 <= j < |a| ==> !Decisive(post, typ)(a[j])
    requires Decisive(post, typ)(t)
    ensures SubmissionValue(a + [t] + b, post, typ, parse) == Text(Resolved(post, t))
  {
    var s := a + [t] + b;
    assert s[|a|] == t;
    assert forall j :: 0 <= j < |a| ==> s[j] == a[j];
    FirstIndexIs(s, Decisive(post, typ), |a|);
  }

  /**
   * For other types, an empty value on the last considered tag resets the result to `null`, even when
   * earlier tags had values, as long as none of them carried the prefixed option.
   */
  lemma EmptyLastTagResets(a: seq<FormTag>, t: FormTag, b: seq<FormTag>, post: map<string, string>, typ: string, parse: Parser)
    requires typ != "amount"
    requires forall j :: 0 <= j < |a| ==> !Decisive(post, typ)(a[j])
    requires Considered(t, typ) && Empty(Input(post, t.name))
    requires forall j :: 0 <= j < |b| ==> !Considered(b[j], typ)
    ensures SubmissionValue(a + [t] + b, post, typ, parse) == Null
  {
    var s := a + [t] + b;
    assert s[|a|] == t;
    assert forall j :: 0 <= j < |a| ==> s[j] == a[j];
    assert forall j :: |a| < j < |s| ==> s[j] == b[j - |a| - 1];
    FirstIndexIs(s, Decisive(post, typ), |s|);
    LastIndexIs(s, ConsideredFor(typ), |a|);
  }

  /** No considered tag, no value. */
  lemma NothingConsidered(tags: seq<FormTag>, post: map<string, string>, typ: string, parse: Parser)
    requires forall j :: 0 <= j < |tags| ==> !Considered(tags[j], typ)
    ensures SubmissionValue(tags, post, typ, parse) == Null
  {
    FirstIndexIs(tags, Live(post, typ), |tags|);
    FirstIndexIs(tags, Decisive(post, typ), |tags|);
    LastIndexIs(tags, ConsideredFor(typ), -1);
  }

  /** PHP's `empty()` on a resolved value: `null`, "" and "0" are empty. */
  predicate IsEmptyValue(v: Value) {
    v.Null? || (v.Text? && Empty(v.s))
  }

  /** The argument a setter receives for a resolved value: `null` or the string. */
  function Setter(v: Value): Option<string>
    requires !v.Amount?
  {
    if v.Text? then Some(v.s) else None
  }

  /** The resolved description, or "Payment <id>" when none resolved. */
  function DescriptionOr(description: Value, uniqueId: string): (r: string)
    requires !description.Amount?
    ensures description.Text? ==> r == description.s
    ensures description.Null? ==> r == "Payment " + uniqueId
  {
    if description.Null? then "Payment " + uniqueId else description.s
  }

  /**
   * The payment method: iDEAL when none (or an empty one) resolved and an issuer resolved or the gateway
   * requires a method; otherwise whatever resolved.
   */
  function MethodFor(paymentMethod: Value, issuer: Value, methodIsRequired: bool): (r: Option<string>)
    requires !paymentMethod.Amount? && !issuer.Amount?
    ensures IsEmptyValue(paymentMethod) && (!issuer.Null? || methodIsRequired) ==> r == Some(Ideal)
    ensures !IsEmptyValue(paymentMethod) ==> r == Some(paymentMethod.s)
    ensures IsEmptyValue(paymentMethod) && issuer.Null? && !methodIsRequired ==> r == Setter(paymentMethod)
    ensures r.None? ==> paymentMethod.Null?
  {
    if IsEmptyValue(paymentMethod) && (!issuer.Null? || methodIsRequired) then Some(Ideal) else Setter(paymentMethod)
  }

  /**
   * One address field: the specific (billing or shipping) value when it is not empty, else the generic
   * `address_` value when that is not empty, else left unset.
   */
  function AddressValue(specific: Value, generic: Value): (r: Option<string>)
    requires !specific.Amount? && !generic.Amount?
    ensures r.None? <==> IsEmptyValue(specific) && IsEmptyValue(generic)
    ensures !IsEmptyValue(specific) ==> r == Some(specific.s)
    ensures IsEmptyValue(specific) && !IsEmptyValue(generic) ==> r == Some(generic.s)
  {
    if !IsEmptyValue(specific) || !IsEmptyValue(generic) then
      if IsEmptyValue(specific) then Setter(generic) else Setter(specific)
    else None
  }

  datatype ContactName = ContactName(firstName: Option<string>, lastName: Option<string>)
  datatype Customer = Customer(name: ContactName, email: Option<string>)
  datatype Address = Address(name: ContactName, fields: map<string, string>)

  /** The payment request handed to the gateway. `total` is the parsed amount's value. */
  datatype Payment = Payment(
    title: string,
    description: string,
    source: string,
    paymentMethod: Option<string>,
    issuer: Option<string>,
    total: real,
    customer: Customer,
    billingAddress: Address,
    shippingAddress: Address)

  const AddressFields: seq<string> :=
    ["line_1", "line_2", "city", "region", "postal_code", "country_code", "company_name", "coc_number"]

  function Lookup(fields: map<string, string>, field: string): Option<string> {
    if field in fields then Some(fields[field]) else None
  }

  /** Which of the two addresses a field belongs to, and so the prefix of its own submission type. */
  datatype AddressKind = Billing | Shipping {
    function Prefix(): (r: string)
      ensures |r| > |"amount"|
    {
      match this
      case Billing => "billing_address_"
      case Shipping => "shipping_address_"
    }
  }

  /**
   * The value set on one field of an address: its own resolved value when not empty, else the shared
   * `address_` value when not empty; `None` leaves the field unset.
   */
  function AddressFieldValue(tags: seq<FormTag>, post: map<string, string>, parse: Parser, kind: AddressKind, field: string): Option<string> {
    assert |kind.Prefix() + field| > |"amount"| && |"address_" + field| > |"amount"|;
    AddressValue(SubmissionValue(tags, post, kind.Prefix() + field, parse), SubmissionValue(tags, post, "address_" + field, parse))
  }

  /** Sets `field` when there is a value to set. */
  function SetField(fields: map<string, string>, field: string, value: Option<string>): (r: map<string, string>)
    ensures Lookup(r, field) == if value.Some? then value else Lookup(fields, field)
    ensures forall f :: f != field ==> Lookup(r, f) == Lookup(fields, f)
  {
    if value.Some? then fields[field := value.value] else fields
  }

  /** The fields of one address after the setters for `fields` have run, in order. */
  function AddressMap(tags: seq<FormTag>, post: map<string, string>, parse: Parser, kind: AddressKind, fields: seq<string>): map<string, string> {
    if fields == [] then map[]
    else
      var last := fields[|fields| - 1];
      SetField(AddressMap(tags, post, parse, kind, fields[..|fields| - 1]), last, AddressFieldValue(tags, post, parse, kind, last))
  }

  /** One more field in the list runs one more setter. */
  lemma AddressMapSnoc(tags: seq<FormTag>, post: map<string, string>, parse: Parser, kind: AddressKind, fields: seq<string>, i: nat)
    requires i < |fields|
    ensures AddressMap(tags, post, parse, kind, fields[..i + 1])
      == SetField(AddressMap(tags, post, parse, kind, fields[..i]), fields[i], AddressFieldValue(tags, post, parse, kind, fields[i]))
  {
    assert fields[..i + 1][..i] == fields[..i];
  }

  /** A listed field holds exactly its resolved value, and a field that is not listed is never set. */
  lemma {:induction false} AddressMapLookup(tags: seq<FormTag>, post: map<string, string>, parse: Parser, kind: AddressKind, fields: seq<string>, f: string)
    ensures f in fields ==> Lookup(AddressMap(tags, post, parse, kind, fields), f) == AddressFieldValue(tags, post, parse, kind, f)
    ensures f !in fields ==> Lookup(AddressMap(tags, post, parse, kind, fields), f) == None
  {
    if fields != [] {
      var init := fields[..|fields| - 1];
      assert fields == init + [fields[|fields| - 1]];
      AddressMapLookup(tags, post, parse, kind, init, f);
    }
  }

  /** One pass of the address loop: both addresses receive `field`, or keep it unset. */
  method ResolveAddressField(tags: seq<FormTag>, post: map<string, string>, parse: Parser, field: string,
                             billingFields: map<string, string>, shippingFields: map<string, string>)
    returns (billing: map<string, string>, shipping: map<string, string>)
    ensures billing == SetField(billingFields, field, AddressFieldValue(tags, post, parse, Billing, field))
    ensures shipping == SetField(shippingFields, field, AddressFieldValue(tags, post, parse, Shipping, field))
  {
    var billingValue := GetSubmissionValue(tags, post, Billing.Prefix() + field, parse);
    var shippingValue := GetSubmissionValue(tags, post, Shipping.Prefix() + field, parse);
    var addressValue := GetSubmissionValue(tags, post, "address_" + field, parse);
    assert |Billing.Prefix() + field| > |"amount"| && |Shipping.Prefix() + field| > |"amount"|;
    assert |"address_" + field| > |"amount"|;
    billing := SetField(billingFields, field, AddressValue(billingValue, addressValue));
    shipping := SetField(shippingFields, field, AddressValue(shippingValue, addressValue));
  }

  /**
   * The address loop of `get_submission_payment`: each address receives, field by field, the values
   * `AddressMap` describes.
   */
  method ResolveAddresses(tags: seq<FormTag>, post: map<string, string>, parse: Parser, name: ContactName)
    returns (billing: Address, shipping: Address)
    ensures billing == Address(name, AddressMap(tags, post, parse, Billing, AddressFields))
    ensures shipping == Address(name, AddressMap(tags, post, parse, Shipping, AddressFields))
  {
    var billingFields: map<string, string> := map[];
    var shippingFields: map<string, string> := map[];
    var i := 0;
    while i < |AddressFields|
      invariant 0 <= i <= |AddressFields|
      invariant billingFields == AddressMap(tags, post, parse, Billing, AddressFields[..i])
      invariant shippingFields == AddressMap(tags, post, parse, Shipping, AddressFields[..i])
    {
      billingFields, shippingFields := ResolveAddressField(tags, post, parse, AddressFields[i], billingFields, shippingFields);
      AddressMapSnoc(tags, post, parse, Billing, AddressFields, i);
      AddressMapSnoc(tags, post, parse, Shipping, AddressFields, i);
      i := i + 1;
    }
    assert AddressFields[..i] == AddressFields;
    billing := Address(name, billingFields);
    shipping := Address(name, shippingFields);
  }

  /**
   * `get_submission_payment`: no payment without a parsed amount or without a gateway; otherwise the
   * request built from the resolved fields. `uniqueId` is the time stamp the source takes from the clock.
   */
  method GetSubmissionPayment(tags: seq<FormTag>, post: map<string, string>, parse: Parser, gateway: Option<Gateway>, uniqueId: string)
    returns (payment: Option<Payment>)
    ensures payment.None? <==> SubmissionValue(tags, post, "amount", parse).Null? || gateway.None?
    ensures payment.Some? ==>
      var p := payment.value;
      var paymentMethod := SubmissionValue(tags, post, "method", parse);
      var issuer := SubmissionValue(tags, post, "issuer", parse);
      var name := ContactName(Setter(SubmissionValue(tags, post, "first_name", parse)), Setter(SubmissionValue(tags, post, "last_name", parse)));
      && SubmissionValue(tags, post, "amount", parse).Amount?
      && p.total == SubmissionValue(tags, post, "amount", parse).money.value
      && p.title == "Payment for Contact Form 7 Entry @ " + uniqueId
      && p.description == DescriptionOr(SubmissionValue(tags, post, "description", parse), uniqueId)
      && p.source == Source
      && p.paymentMethod == MethodFor(paymentMethod, issuer, gateway.value.paymentMethodIsRequired)
      && p.issuer == Setter(issuer)
      && p.customer == Customer(name, Setter(SubmissionValue(tags, post, "email", parse)))
      && p.billingAddress == Address(name, AddressMap(tags, post, parse, Billing, AddressFields))
      && p.shippingAddress == Address(name, AddressMap(tags, post, parse, Shipping, AddressFields))
  {
    var amount := GetSubmissionValue(tags, post, "amount", parse);
    if amount.Null? {
      return None;
    }
    if gateway.None? {
      return None;
    }
    var title := "Payment for Contact Form 7 Entry @ " + uniqueId;
    var description := GetSubmissionValue(tags, post, "description", parse);
    var descriptionText := if description.Null? then "Payment " + uniqueId else description.s;
    var paymentMethod := GetSubmissionValue(tags, post, "method", parse);
    var issuer := GetSubmissionValue(tags, post, "issuer", parse);
    var methodText := Setter(paymentMethod);
    if IsEmptyValue(paymentMethod) && (!issuer.Null? || gateway.value.paymentMethodIsRequired) {
      methodText := Some(Ideal);
    }
    var firstName := GetSubmissionValue(tags, post, "first_name", parse);
    var lastName := GetSubmissionValue(tags, post, "last_name", parse);
    var contactName := ContactName(Setter(firstName), Setter(lastName));
    var email := GetSubmissionValue(tags, post, "email", parse);
    var customer := Customer(contactName, Setter(email));
    var billing, shipping := ResolveAddresses(tags, post, parse, contactName);
    payment := Some(Payment(title, descriptionText, Source, methodText, Setter(issuer), amount.money.value, customer, billing, shipping));
  }
}
