/** Display-label extraction applied to every node of the initial map when the mind map is
    seeded (src/components/MindMap.tsx, the `initialNodes` mapping). */
module Labels {
  import opened Js

  /** The label stored for a raw node with payload `data` and id `id`: a truthy `data.label`;
      else `data` itself when it is a non-empty string; else the first element of an array
      whose first element is a string; else the first truthy of the `name`, `title`, `text`
      and `value` fields of an object; else the node id. The value is taken as it is, so a
      label may be a non-string (a truthy number found under `name`, say) or, from an array,
      the empty string. */
  function ExtractLabel(data: JsValue, id: string): (chosen: JsValue)
    ensures chosen == Str(id) || Truthy(chosen) || (data.Array? && |data.items| > 0 && chosen == data.items[0])
    ensures data.Str? ==> chosen == (if data.s == "" then Str(id) else data)
    ensures Nullish(data) || data.Bool? || data.Number? ==> chosen == Str(id)
  {
    if Truthy(data) && TypeOf(data) == "object" && Has(data, "label") && Truthy(Get(data, "label")) then
      Get(data, "label")
    else if TypeOf(data) == "string" && Truthy(data) then
      data
    else if data.Array? && |data.items| > 0 && TypeOf(data.items[0]) == "string" then
      data.items[0]
    else if Truthy(data) && TypeOf(data) == "object" then
      if Truthy(Get(data, "name")) then Get(data, "name")
      else if Truthy(Get(data, "title")) then Get(data, "title")
      else if Truthy(Get(data, "text")) then Get(data, "text")
      else if Truthy(Get(data, "value")) then Get(data, "value")
      else Str(id)
    else
      Str(id)
  }

  // An independent statement of the same rule: an ordered list of candidate sources, the
  // first one that yields a value wins.

  datatype Rule =
    | LabelField            // a truthy `label` property of an object
    | NonEmptyString        // the payload is a non-empty string
    | StringHead            // the payload is an array whose first element is a string
    | NamedField(key: string)  // a truthy property `key` of an object

  const Priority: seq<Rule> :=
    [LabelField, NonEmptyString, StringHead,
     NamedField("name"), NamedField("title"), NamedField("text"), NamedField("value")]

  /** What rule `r` yields for payload `data`, if it applies. */
  function Candidate(r: Rule, data: JsValue): Option<JsValue> {
    match r
    case LabelField =>
      if data.Object? && "label" in data.fields && Truthy(data.fields["label"])
      then Some(data.fields["label"]) else None
    case NonEmptyString =>
      if data.Str? && |data.s| > 0 then Some(data) else None
    case StringHead =>
      if data.Array? && data.items != [] && data.items[0].Str? then Some(data.items[0]) else None
    case NamedField(key) =>
      if data.Object? && key in data.fields && Truthy(data.fields[key])
      then Some(data.fields[key]) else None
  }

  /** The value of the first rule of `rules` that applies, or `fallback`. */
  function FirstMatch(rules: seq<Rule>, data: JsValue, fallback: JsValue): JsValue {
    if rules == [] then fallback
    else match Candidate(rules[0], data)
      case Some(v) => v
      case None => FirstMatch(rules[1..], data, fallback)
  }

  /** The first applicable rule decides: if rule `k` applies and no earlier one does, the
      result is what rule `k` yields. */
  lemma {:induction false} FirstMatchPicksFirst(rules: seq<Rule>, data: JsValue, fallback: JsValue, k: nat)
    requires k < |rules| && Candidate(rules[k], data).Some?
    requires forall j :: 0 <= j < k ==> Candidate(rules[j], data).None?
    ensures FirstMatch(rules, data, fallback) == Candidate(rules[k], data).value
    decreases k
  {
    if k > 0 {
      assert Candidate(rules[0], data).None?;
      forall j | 0 <= j < k - 1 ensures Candidate(rules[1..][j], data).None? {
        assert rules[1..][j] == rules[j + 1];
      }
      FirstMatchPicksFirst(rules[1..], data, fallback, k - 1);
    }
  }

  /** When no rule applies, the fallback is used. */
  lemma {:induction false} FirstMatchFallback(rules: seq<Rule>, data: JsValue, fallback: JsValue)
    requires forall j :: 0 <= j < |rules| ==> Candidate(rules[j], data).None?
    ensures FirstMatch(rules, data, fallback) == fallback
    decreases |rules|
  {
    if rules != [] {
      assert Candidate(rules[0], data).None?;
      forall j | 0 <= j < |rules| - 1 ensures Candidate(rules[1..][j], data).None? {
        assert rules[1..][j] == rules[j + 1];
      }
      FirstMatchFallback(rules[1..], data, fallback);
    }
  }

  /** The seeding code implements the priority list exactly, with the node id as fallback. */
  lemma ExtractLabelIsFirstMatch(data: JsValue, id: string)
    ensures ExtractLabel(data, id) == FirstMatch(Priority, data, Str(id))
  {
    var i := FirstApplicable(data);
    assert Priority[0] == LabelField && Priority[1] == NonEmptyString && Priority[2] == StringHead;
    assert Priority[3] == NamedField("name") && Priority[4] == NamedField("title");
    assert Priority[5] == NamedField("text") && Priority[6] == NamedField("value");
    if i < |Priority| {
      FirstMatchPicksFirst(Priority, data, Str(id), i);
    } else {
      FirstMatchFallback(Priority, data, Str(id));
    }
  }

  /** The position of the first applicable rule of the priority list (its length if none
      applies). */
  lemma FirstApplicable(data: JsValue) returns (i: nat)
    ensures i <= |Priority|
    ensures forall j :: 0 <= j < i ==> Candidate(Priority[j], data).None?
    ensures i < |Priority| ==> Candidate(Priority[i], data).Some?
  {
    i := 0;
    while i < |Priority| && Candidate(Priority[i], data).None?
      invariant 0 <= i <= |Priority|
      invariant forall j :: 0 <= j < i ==> Candidate(Priority[j], data).None?
    {
      i := i + 1;
    }
  }

  /** A `name` field is preferred to `title`, `text` and `value` when the object has no
      truthy `label`. */
  lemma NameBeatsLaterFields(fields: map<string, JsValue>, id: string)
    requires "name" in fields && Truthy(fields["name"])
    requires !("label" in fields && Truthy(fields["label"]))
    ensures ExtractLabel(Object(fields), id) == fields["name"]
  {
  }
}
