/**
 What the readers of `ResponseParsing` find in responses built from given texts, figures and models: the
 field names and shapes of the backend's JSON, spelled out (extractResponseContent,
 extractUsageFromResponse, detectModelFromResponseBody).
 */
module ResponseTexts {
  import opened Wrappers
  import opened Text
  import opened Json
  import opened ResponseParsing

  /** One choice of a response: with a text, among whatever other fields, or without one. */
  datatype Choice = Says(outer: Object, inner: Object, text: string) | Mute(value: Value)

  /** No string under "content" of an object under `part`. */
  predicate HasNoText(part: string, v: Value) {
    v.Obj? && part in v.fields && v.fields[part].Obj? && "content" in v.fields[part].fields ==>
      !v.fields[part].fields["content"].Str?
  }

  predicate WellMade(part: string, choices: seq<Choice>) {
    forall i :: 0 <= i < |choices| && choices[i].Mute? ==> HasNoText(part, choices[i].value)
  }

  function ChoiceValue(part: string, choice: Choice): Value {
    match choice
    case Says(outer, inner, text) => Obj(outer[part := Obj(inner["content" := Str(text)])])
    case Mute(value) => value
  }

  /** A response object with these choices, among whatever other fields. */
  function ResponseOf(part: string, other: Object, choices: seq<Choice>): Object {
    other["choices" := Arr(seq(|choices|, i requires 0 <= i < |choices| => ChoiceValue(part, choices[i])))]
  }

  function Said(choices: seq<Choice>): string {
    if choices == [] then ""
    else
      var most, last := choices[..|choices| - 1], choices[|choices| - 1];
      if last.Says? then Said(most) + last.text else Said(most)
  }

  lemma ChoiceSays(part: string, choice: Choice)
    requires choice.Mute? ==> HasNoText(part, choice.value)
    ensures ChoiceText(ChoiceValue(part, choice), part) == if choice.Says? then choice.text else ""
  {
  }

  lemma {:induction false} ChoicesSay(part: string, choices: seq<Choice>, values: seq<Value>)
    requires WellMade(part, choices) && |values| == |choices|
    requires forall i :: 0 <= i < |choices| ==> values[i] == ChoiceValue(part, choices[i])
    ensures ChoicesText(values, part) == Said(choices)
  {
    if choices != [] {
      var n := |choices| - 1;
      ChoicesSay(part, choices[..n], values[..n]);
      ChoiceSays(part, choices[n]);
    }
  }

  lemma ResponseSays(part: string, other: Object, choices: seq<Choice>)
    requires WellMade(part, choices)
    ensures ObjectText(ResponseOf(part, other, choices), part) == Said(choices)
  {
    ChoicesSay(part, choices, ResponseOf(part, other, choices)["choices"].items);
  }

  // ----- streams ----------------------------------------------------------------------------------

  /** A line of a stream: a chunk with choices, or a line that is no chunk at all. */
  datatype Item = Spoken(gap: string, other: Object, choices: seq<Choice>, crlf: bool) | Silent(line: StreamLine)

  predicate WellMadeItem(item: Item) {
    match item
    case Spoken(gap, _, choices, _) => AllSpaces(gap) && NEWLINE !in gap && WellMade("delta", choices)
    case Silent(line) => WellFormedLine(line) && !line.content.Chunk?
  }

  function LineOf(item: Item): StreamLine {
    match item
    case Spoken(gap, other, choices, crlf) => StreamLine(Chunk(gap, Obj(ResponseOf("delta", other, choices))), crlf)
    case Silent(line) => line
  }

  function LinesOf(items: seq<Item>): seq<StreamLine> {
    if items == [] then [] else LinesOf(items[..|items| - 1]) + [LineOf(items[|items| - 1])]
  }

  /** The texts of all choices of all chunks, in order. */
  function SaidIn(items: seq<Item>): string {
    if items == [] then ""
    else
      var most, last := items[..|items| - 1], items[|items| - 1];
      if last.Spoken? then SaidIn(most) + Said(last.choices) else SaidIn(most)
  }

  lemma {:induction false} ItemsSay(items: seq<Item>)
    requires forall i :: 0 <= i < |items| ==> WellMadeItem(items[i])
    ensures AllText(Objects(LinesOf(items))) == SaidIn(items)
    ensures AllWellFormed(LinesOf(items))
  {
    if items != [] {
      var most, last := items[..|items| - 1], items[|items| - 1];
      ItemsSay(most);
      var lines := LinesOf(most);
      assert WellMadeItem(last) && (lines + [LineOf(last)])[..|lines|] == lines;
      if last.Spoken? {
        ResponseSays("delta", last.other, last.choices);
        AllTextAppends(Objects(lines), ResponseOf("delta", last.other, last.choices));
      }
    }
  }

  /** From a stream of chunks the reader returns the texts they were built from, in order; the rest adds nothing. */
  lemma {:induction false} StreamedTextsReadBack(c: Codec, items: seq<Item>)
    requires Lawful(c) && forall i :: 0 <= i < |items| ==> WellMadeItem(items[i])
    requires exists i :: 0 <= i < |items| && items[i].Spoken?
    ensures ContentIn(c, Body(c, LinesOf(items))) == SaidIn(items)
  {
    ItemsSay(items);
    var i :| 0 <= i < |items| && items[i].Spoken?;
    LineAt(items, i);
    StreamContentReadBack(c, LinesOf(items));
  }

  lemma {:induction false} LineAt(items: seq<Item>, i: nat)
    requires i < |items|
    ensures |LinesOf(items)| == |items| && LinesOf(items)[i] == LineOf(items[i])
  {
    if i < |items| - 1 {
      LineAt(items[..|items| - 1], i);
    } else if i > 0 {
      LineAt(items[..|items| - 1], i - 1);
    }
  }

  /** From a plain response, those of its messages. */
  lemma PlainTextsReadBack(c: Codec, other: Object, choices: seq<Choice>, after: string)
    requires Lawful(c) && WellMade("message", choices) && AllSpaces(after)
    ensures ContentIn(c, c.encode(Obj(ResponseOf("message", other, choices))) + after) == Said(choices)
  {
    PlainReadBack(c, ResponseOf("message", other, choices), after);
    ResponseSays("message", other, choices);
  }

  // ----- figures and models -----------------------------------------------------------------------

  /** A response with usage, among whatever other fields on each level. */
  function WithUsage(other: Object, usage: Object, details: Object, prompt: int, completion: int, cached: int): Object {
    other["usage" := Obj(usage["prompt_tokens" := Integer(prompt)]["completion_tokens" := Integer(completion)]
                              ["prompt_tokens_details" := Obj(details["cached_tokens" := Integer(cached)])])]
  }

  /** The figures are read as given; two zero counts are no figures, whatever is cached. */
  lemma UsageReadsBack(other: Object, usage: Object, details: Object, prompt: int, completion: int, cached: int)
    ensures UsageOf(WithUsage(other, usage, details, prompt, completion, cached)) ==
      if prompt == 0 && completion == 0 then None else Some(Usage(prompt, completion, cached))
  {
    assert Pow10(0) == 1;
    var u := ObjOf(Field(WithUsage(other, usage, details, prompt, completion, cached), "usage"));
    assert ToInt(Field(u, "prompt_tokens")) == prompt && ToInt(Field(u, "completion_tokens")) == completion;
    assert ToInt(Field(ObjOf(Field(u, "prompt_tokens_details")), "cached_tokens")) == cached;
  }

  /** A count that is missing is zero, and a response without usage has no figures. */
  lemma MissingCounts(other: Object, prompt: int)
    requires prompt != 0
    ensures UsageOf(other["usage" := Obj(map["prompt_tokens" := Integer(prompt)])]) == Some(Usage(prompt, 0, 0))
    ensures UsageOf(other["usage" := Obj(map["completion_tokens" := Integer(prompt)])]) == Some(Usage(0, prompt, 0))
    ensures "usage" !in other ==> UsageOf(other) == None
  {
    assert Pow10(0) == 1;
    assert ToInt(Some(Integer(prompt))) == prompt;
  }

  /** The model is the non-empty string under "model". */
  lemma ModelReadsBack(other: Object, model: string)
    ensures ModelOf(other["model" := Str(model)]) == if model == "" then None else Some(model)
    ensures "model" !in other || !other["model"].Str? ==> ModelOf(other) == None
  {
  }
}
