/**
 * The submission helper: finds the form tags that carry a payment field by name, base type or option,
 * reads their posted values (skipping fields the conditional-fields plugin hid), strips the selected
 * option label from a free-text value, and resolves a field through a fixed priority of sources.
 */
module SubmissionHelper {
  import opened Wrappers
  import opened Php
  import opened Seqs
  import opened Form

  /**
   * A submission: the form's scanned tags in form order, the posted data per field (already flattened),
   * and the field names the conditional-fields plugin reports as hidden.
   */
  datatype Submission = Submission(tags: seq<FormTag>, posted: map<string, seq<string>>, hiddenFields: seq<string>)

  /** The POST field in which the conditional-fields plugin lists the fields it hid. */
  const HiddenGroupFields := "_wpcf7cf_hidden_group_fields"

  /**
   * `get_hidden_fields`: the list decoded from the plugin's POST field; nothing when the field is absent
   * or does not decode to a list. `decode` stands for `json_decode` followed by the `is_array` test.
   */
  function HiddenFields(post: map<string, string>, decode: string -> Option<seq<string>>): (r: seq<string>)
    ensures HiddenGroupFields !in post ==> r == []
    ensures HiddenGroupFields in post && decode(post[HiddenGroupFields]).None? ==> r == []
    ensures HiddenGroupFields in post && decode(post[HiddenGroupFields]).Some? ==> r == decode(post[HiddenGroupFields]).value
    ensures r != [] ==> HiddenGroupFields in post && decode(post[HiddenGroupFields]) == Some(r)
  {
    if HiddenGroupFields !in post then []
    else
      var data := decode(post[HiddenGroupFields]);
      if data.Some? then data.value else []
  }

  /** The filter callbacks. */
  function NameIs(value: string): FormTag -> bool {
    (t: FormTag) => t.name == value
  }

  function BasetypeIs(value: string): FormTag -> bool {
    (t: FormTag) => t.basetype == value
  }

  function OptionIs(value: string): FormTag -> bool {
    (t: FormTag) => HasOption(t, value)
  }

  function NameOrBasetypeOrOption(value: string): FormTag -> bool {
    (t: FormTag) => t.name == value || t.basetype == value || HasOption(t, value)
  }

  /** Tags whose name, base type or an option equals `value`, in form order. */
  function TagsWithBasetypeOrNameOrOption(sub: Submission, value: string): (r: seq<FormTag>)
    ensures forall t :: t in r <==> t in sub.tags && (t.name == value || t.basetype == value || HasOption(t, value))
  {
    var r := Filter(sub.tags, NameOrBasetypeOrOption(value));
    assert forall t :: t in r <==> t in sub.tags && NameOrBasetypeOrOption(value)(t) by {
      forall t { FilterMembers(sub.tags, NameOrBasetypeOrOption(value), t); }
    }
    r
  }

  /** Tags with base type `basetype`, in form order. */
  function TagsWithBasetype(sub: Submission, basetype: string): (r: seq<FormTag>)
    ensures forall t :: t in r <==> t in sub.tags && t.basetype == basetype
  {
    var r := Filter(sub.tags, BasetypeIs(basetype));
    assert forall t :: t in r <==> t in sub.tags && BasetypeIs(basetype)(t) by {
      forall t { FilterMembers(sub.tags, BasetypeIs(basetype), t); }
    }
    r
  }

  /** Tags named `name`, in form order. */
  function TagsWithName(sub: Submission, name: string): (r: seq<FormTag>)
    ensures forall t :: t in r <==> t in sub.tags && t.name == name
  {
    var r := Filter(sub.tags, NameIs(name));
    assert forall t :: t in r <==> t in sub.tags && NameIs(name)(t) by {
      forall t { FilterMembers(sub.tags, NameIs(name), t); }
    }
    r
  }

  /** Tags that carry option `option`, in form order. */
  function TagsWithOption(sub: Submission, option: string): (r: seq<FormTag>)
    ensures forall t :: t in r <==> t in sub.tags && HasOption(t, option)
  {
    var r := Filter(sub.tags, OptionIs(option));
    assert forall t :: t in r <==> t in sub.tags && OptionIs(option)(t) by {
      forall t { FilterMembers(sub.tags, OptionIs(option), t); }
    }
    r
  }

  /** The combined filter selects a tag exactly when one of the three single filters does. */
  lemma CombinedFilterIsUnion(sub: Submission, value: string, t: FormTag)
    ensures t in TagsWithBasetypeOrNameOrOption(sub, value)
        <==> t in TagsWithName(sub, value) || t in TagsWithBasetype(sub, value) || t in TagsWithOption(sub, value)
  {
  }

  /** Free-text handling applies to a tag of a type with selectable values that has the `free_text` option. */
  predicate FreeText(tag: FormTag) {
    tag.selectableValues && HasOption(tag, "free_text")
  }

  /**
   * The last of the tag's own values (the pipes' `after` values when the tag has pipes);
   * `end()` of an empty list is `false`, which concatenates as "".
   */
  function LastTagValue(tag: FormTag): string {
    var values := if tag.pipes.Some? then Afters(tag.pipes.value) else tag.values;
    if |values| == 0 then "" else values[|values| - 1]
  }

  /** The values a tag contributes to the submission. */
  function ValuesByTag(sub: Submission, tag: FormTag): (r: seq<string>)
    ensures tag.name in sub.hiddenFields ==> r == []
    ensures tag.name !in sub.posted ==> r == []
    ensures tag.name !in sub.hiddenFields && tag.name in sub.posted && !FreeText(tag) ==> r == sub.posted[tag.name]
    ensures tag.name !in sub.hiddenFields && tag.name in sub.posted && FreeText(tag) ==>
      var data := sub.posted[tag.name];
      var prefix := LastTagValue(tag) + " ";
      && |r| == (if data == [] then 1 else |data|)
      && r[..|r| - 1] == (if data == [] then [] else data[..|data| - 1])
      && (if data != [] && StartsWith(data[|data| - 1], prefix)
          then prefix + r[|r| - 1] == data[|data| - 1]
          else r[|r| - 1] == (if data == [] then "" else data[|data| - 1]))
  {
    if tag.name in sub.hiddenFields || tag.name !in sub.posted then []
    else
      var data := sub.posted[tag.name];
      if !FreeText(tag) then data
      else
        var prefix := LastTagValue(tag) + " ";
        var last := if data == [] then "" else data[|data| - 1];
        var init := if data == [] then [] else data[..|data| - 1];
        init + [StripPrefix(last, prefix)]
  }

  /**
   * `get_values_by_tag`: pops the last posted value, strips the option label from it and pushes it back.
   * An empty posted list pops `null`, which comes back as one empty value.
   */
  method GetValuesByTag(sub: Submission, tag: FormTag) returns (data: seq<string>)
    ensures data == ValuesByTag(sub, tag)
  {
    if tag.name in sub.hiddenFields {
      return [];
    }
    if tag.name !in sub.posted {
      return [];
    }
    data := sub.posted[tag.name];
    if FreeText(tag) {
      var tagValues := if tag.pipes.Some? then Afters(tag.pipes.value) else tag.values;
      var tagValueLast := if |tagValues| == 0 then "" else tagValues[|tagValues| - 1];
      var value := "";
      if |data| > 0 {
        value := data[|data| - 1];
        data := data[..|data| - 1];
      }
      if StartsWith(value, tagValueLast + " ") {
        value := value[|tagValueLast + " "|..];
      }
      data := data + [value];
    }
  }

  /** A tag's values joined with ", ". */
  function ValueByTag(sub: Submission, tag: FormTag): (r: string)
    ensures tag.name in sub.hiddenFields ==> r == ""
    ensures ValuesByTag(sub, tag) == [] ==> r == ""
    ensures |ValuesByTag(sub, tag)| == 1 ==> r == ValuesByTag(sub, tag)[0]
  {
    Join(ValuesByTag(sub, tag), ", ")
  }

  /** The value of the first of `tags`, or "" when there is none. */
  function ValueByTags(sub: Submission, tags: seq<FormTag>): (r: string)
    ensures tags == [] ==> r == ""
    ensures tags != [] ==> r == ValueByTag(sub, tags[0])
  {
    if |tags| == 0 then "" else ValueByTag(sub, tags[0])
  }

  /** The value of the first tag in form order with this name; failing that, with this option; failing that, "". */
  function ValueByTagNameOrOption(sub: Submission, value: string): (r: string)
    ensures
      var n := FirstIndex(sub.tags, NameIs(value));
      var o := FirstIndex(sub.tags, OptionIs(value));
      r == if n < |sub.tags| then ValueByTag(sub, sub.tags[n])
           else if o < |sub.tags| then ValueByTag(sub, sub.tags[o])
           else ""
  {
    FilterHead(sub.tags, NameIs(value));
    FilterHead(sub.tags, OptionIs(value));
    var tags := TagsWithName(sub, value);
    var tags := if |tags| == 0 then TagsWithOption(sub, value) else tags;
    ValueByTags(sub, tags)
  }

  /** Base type first, then name, then option; the first tag in form order of the first source that matches any. */
  function ValueByTagBasetypeOrNameOrOption(sub: Submission, value: string): (r: string)
    ensures
      var b := FirstIndex(sub.tags, BasetypeIs(value));
      var n := FirstIndex(sub.tags, NameIs(value));
      var o := FirstIndex(sub.tags, OptionIs(value));
      r == if b < |sub.tags| then ValueByTag(sub, sub.tags[b])
           else if n < |sub.tags| then ValueByTag(sub, sub.tags[n])
           else if o < |sub.tags| then ValueByTag(sub, sub.tags[o])
           else ""
  {
    FilterHead(sub.tags, BasetypeIs(value));
    FilterHead(sub.tags, NameIs(value));
    FilterHead(sub.tags, OptionIs(value));
    var tags := TagsWithBasetype(sub, value);
    var tags := if |tags| == 0 then TagsWithName(sub, value) else tags;
    var tags := if |tags| == 0 then TagsWithOption(sub, value) else tags;
    ValueByTags(sub, tags)
  }

  /** Name, then option, then the given base type; the first tag in form order of the first source that matches any. */
  function ValueByTagNameOrOptionOrBasetype(sub: Submission, value: string, basetype: string): (r: string)
    ensures
      var n := FirstIndex(sub.tags, NameIs(value));
      var o := FirstIndex(sub.tags, OptionIs(value));
      var b := FirstIndex(sub.tags, BasetypeIs(basetype));
      r == if n < |sub.tags| then ValueByTag(sub, sub.tags[n])
           else if o < |sub.tags| then ValueByTag(sub, sub.tags[o])
           else if b < |sub.tags| then ValueByTag(sub, sub.tags[b])
           else ""
  {
    FilterHead(sub.tags, NameIs(value));
    FilterHead(sub.tags, OptionIs(value));
    FilterHead(sub.tags, BasetypeIs(basetype));
    var tags := TagsWithName(sub, value);
    var tags := if |tags| == 0 then TagsWithOption(sub, value) else tags;
    var tags := if |tags| == 0 then TagsWithBasetype(sub, basetype) else tags;
    ValueByTags(sub, tags)
  }
}
