/**
 * What the form engine (Contact Form 7) and the payment plugin hand to this extension, as plain values:
 * scanned form tags with their pipes, the raw POST fields, the money parser, the configured gateway,
 * and the validation result that the tag validators add messages to.
 */
module Form {
  import opened Wrappers
  import opened Php

  /** A `label|value` pipe: `before` is shown to the visitor, `after` is what the form stores. */
  datatype Pipe = Pipe(before: string, after: string)

  /**
   * A scanned form tag. `pipes` is `None` when the tag carries no pipe object; `selectableValues`
   * says whether the engine declares the `selectable-values` feature for the tag's type.
   */
  datatype FormTag = FormTag(
    name: string,
    basetype: string,
    tagType: string,
    options: set<string>,
    values: seq<string>,
    pipes: Option<seq<Pipe>>,
    selectableValues: bool,
    required: bool)

  /** `$tag->has_option($option)`. */
  predicate HasOption(tag: FormTag, option: string) {
    option in tag.options
  }

  /** `$pipes->collect_afters()`. */
  function Afters(pipes: seq<Pipe>): (r: seq<string>)
    ensures |r| == |pipes|
    ensures forall i :: 0 <= i < |pipes| ==> r[i] == pipes[i].after
  {
    if |pipes| == 0 then [] else [pipes[0].after] + Afters(pipes[1..])
  }

  lemma {:induction false} AftersConcat(a: seq<Pipe>, b: seq<Pipe>)
    ensures Afters(a + b) == Afters(a) + Afters(b)
  {
    if |a| > 0 {
      assert (a + b)[1..] == a[1..] + b;
      AftersConcat(a[1..], b);
    } else {
      assert a + b == b;
    }
  }

  /**
   * One step of `array_combine($afters, $befores)`: a key already present keeps its position and
   * takes the new value; a new key is appended.
   */
  function Put(assoc: seq<Pipe>, after: string, before: string): (r: seq<Pipe>)
    ensures forall i :: 0 <= i < |r| ==> r[i] in assoc || r[i] == Pipe(before, after)
  {
    if |assoc| == 0 then [Pipe(before, after)]
    else if assoc[0].after == after then [Pipe(before, after)] + assoc[1..]
    else [assoc[0]] + Put(assoc[1..], after, before)
  }

  /** `array_combine($pipes->collect_afters(), $pipes->collect_befores())`, as an ordered association list keyed by `after`. */
  function Combine(pipes: seq<Pipe>): (r: seq<Pipe>)
    ensures forall i :: 0 <= i < |r| ==> r[i] in pipes
  {
    if |pipes| == 0 then []
    else
      var r := Put(Combine(pipes[..|pipes| - 1]), pipes[|pipes| - 1].after, pipes[|pipes| - 1].before);
      assert forall i :: 0 <= i < |r| ==> r[i] in pipes by {
        assert forall x :: x in pipes[..|pipes| - 1] ==> x in pipes;
      }
      r
  }

  /** `array_search($value, $combined)`: the key of the first entry whose value is `value`. */
  function SearchBefore(assoc: seq<Pipe>, value: string): (r: Option<string>)
    ensures r.Some? <==> exists i :: 0 <= i < |assoc| && assoc[i].before == value
    ensures r.Some? ==> exists i :: 0 <= i < |assoc| && assoc[i] == Pipe(value, r.value)
  {
    if |assoc| == 0 then None
    else if assoc[0].before == value then Some(assoc[0].after)
    else
      var r := SearchBefore(assoc[1..], value);
      assert r.Some? ==> assoc[1..][0..] == assoc[1..];
      r
  }

  /** `array_key_exists($key, $combined)` on the combined pipes of a tag; no pipe object, no keys. */
  predicate IsPipeKey(pipes: Option<seq<Pipe>>, key: string) {
    pipes.Some? && key in Afters(Combine(pipes.value))
  }

  /** Putting a key that is not yet present appends it. */
  lemma {:induction false} PutNew(assoc: seq<Pipe>, after: string, before: string)
    requires forall i :: 0 <= i < |assoc| ==> assoc[i].after != after
    ensures Put(assoc, after, before) == assoc + [Pipe(before, after)]
  {
    if |assoc| > 0 {
      PutNew(assoc[1..], after, before);
    }
  }

  /** Putting a key adds that key and no other. */
  lemma {:induction false} PutKeys(assoc: seq<Pipe>, after: string, before: string, key: string)
    ensures key in Afters(Put(assoc, after, before)) <==> key == after || key in Afters(assoc)
  {
    if |assoc| > 0 && assoc[0].after != after {
      PutKeys(assoc[1..], after, before, key);
      assert ([assoc[0]] + Put(assoc[1..], after, before))[1..] == Put(assoc[1..], after, before);
    } else if |assoc| > 0 {
      assert ([Pipe(before, after)] + assoc[1..])[1..] == assoc[1..];
    }
  }

  /** The keys of the combined pipes are exactly the pipes' `after` values. */
  lemma {:induction false} CombineKeys(pipes: seq<Pipe>, key: string)
    ensures key in Afters(Combine(pipes)) <==> key in Afters(pipes)
  {
    if |pipes| > 0 {
      var init, last := pipes[..|pipes| - 1], pipes[|pipes| - 1];
      CombineKeys(init, key);
      PutKeys(Combine(init), last.after, last.before, key);
      AftersConcat(init, [last]);
      assert init + [last] == pipes;
    }
  }

  /** When no two pipes share an `after` value, combining them loses nothing and reorders nothing. */
  lemma {:induction false} CombineDistinct(pipes: seq<Pipe>)
    requires forall i, j :: 0 <= i < j < |pipes| ==> pipes[i].after != pipes[j].after
    ensures Combine(pipes) == pipes
  {
    if |pipes| > 0 {
      var init, last := pipes[..|pipes| - 1], pipes[|pipes| - 1];
      CombineDistinct(init);
      PutNew(init, last.after, last.before);
      assert init + [last] == pipes;
    }
  }

  /** A raw POST field as the tag code reads it; a missing field reads as "". */
  function PostedText(post: map<string, string>, name: string): string {
    if name in post then post[name] else ""
  }

  /** The trimmed POST value of a field: what every validator and resolver compares against `empty()`. */
  function Input(post: map<string, string>, name: string): string {
    Trim(PostedText(post, name))
  }

  /**
   * The optional-field read of the legacy tags' `get_value`: `null` when the trimmed POST value is
   * `empty()`, the trimmed value otherwise.
   */
  function OptionalInput(post: map<string, string>, name: string): (r: Option<string>)
    ensures r.None? <==> Empty(Input(post, name))
    ensures r.Some? ==> r.value == Input(post, name) && !Empty(r.value)
  {
    var value := Input(post, name);
    if Empty(value) then None else Some(value)
  }

  /** A money amount as the parser returns it. */
  datatype Money = Money(value: real, currency: string)

  /** The money parser: `Failure` stands for the exception it throws on input it cannot read. */
  type Parser = string -> Result<Money, string>

  /** A payment method the gateway offers (`get_id()`, `get_name()`). */
  datatype PaymentMethod = PaymentMethod(id: string, name: string)

  /** A rendered `<option>`: its value attribute and its text. */
  datatype SelectOption = SelectOption(value: string, text: string)

  /** One group of `get_transient_issuers()`: its `options` map, in order. */
  datatype IssuerGroup = IssuerGroup(options: seq<SelectOption>)

  /** The configured gateway, reduced to what the tags and the payment assembler ask of it. */
  datatype Gateway = Gateway(
    paymentMethodIsRequired: bool,
    paymentMethods: seq<PaymentMethod>,
    paymentMethodFieldOptions: seq<SelectOption>,
    transientIssuers: Option<seq<IssuerGroup>>)

  /** What a tag handler renders, without the markup: nothing, a text input, or a select with its options. */
  datatype Markup = NoMarkup | TextInput(name: string) | Select(name: string, options: seq<SelectOption>)

  /** The validation messages the tags use: the form engine's own and this extension's two. */
  datatype MessageKey = InvalidRequired | InvalidAmount | InvalidMethodRequired {
    /** The key under which the form engine's message table holds the message. */
    function Key(): string {
      match this
      case InvalidRequired => "invalid_required"
      case InvalidAmount => "invalid_pronamic_pay_amount"
      case InvalidMethodRequired => "invalid_pronamic_pay_method_required"
    }
  }

  /** A message definition in the form engine's message table. */
  datatype MessageEntry = MessageEntry(description: string, defaultText: string)

  /** `array_merge($messages, [key => entry])` on string keys: adds or replaces `key`, keeps every other entry. */
  function MergeMessage(messages: map<string, MessageEntry>, key: string, entry: MessageEntry): (r: map<string, MessageEntry>)
    ensures key in r && r[key] == entry
    ensures forall k :: k != key ==> (k in r <==> k in messages)
    ensures forall k :: k in messages && k != key ==> r[k] == messages[k]
  {
    messages[key := entry]
  }

  /** One invalidation recorded on a validation result: the field and the message key. */
  datatype Invalidation = Invalidation(field: string, message: MessageKey)

  /** The form engine's validation result, which tag validators update in place. */
  class Validation {
    var invalid: seq<Invalidation>

    constructor ()
      ensures invalid == []
    {
      invalid := [];
    }

    /** `$result->invalidate($tag, $message)`. */
    method Invalidate(tag: FormTag, message: MessageKey)
      modifies this
      ensures invalid == old(invalid) + [Invalidation(tag.name, message)]
    {
      invalid := invalid + [Invalidation(tag.name, message)];
    }
  }

  /** The required-field check every validator starts with: a required field with an `empty()` value is rejected. */
  function RequiredVerdict(required: bool, value: string): (r: Option<MessageKey>)
    ensures r.Some? <==> required && Empty(value)
    ensures r.Some? ==> r.value == InvalidRequired
  {
    if required && Empty(value) then Some(InvalidRequired) else None
  }

  /** The invalidations a validator's verdict adds for `tag`: none, or exactly one. */
  function Issued(tag: FormTag, verdict: Option<MessageKey>): (r: seq<Invalidation>)
    ensures |r| <= 1
    ensures verdict.Some? ==> r == [Invalidation(tag.name, verdict.value)]
    ensures verdict.None? ==> r == []
  {
    if verdict.Some? then [Invalidation(tag.name, verdict.value)] else []
  }
}
