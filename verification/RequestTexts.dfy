/**
 What the proxy reads from and writes to requests built from given texts: the field names and shapes of the
 client's JSON, spelled out (extractRequestMessageContent, detectModelFromRequestBody, injectRequestDefaults,
 injectStreamUsageOption).
 */
module RequestTexts {
  import opened Wrappers
  import opened Text
  import opened Json
  import opened RequestRewriting

  /** A content block: a text block, among whatever other fields, or any other value. */
  datatype Block = TextBlock(other: Object, text: string) | OtherBlock(value: Value)

  /** A message: a text, blocks, or any other value. */
  datatype Message =
    | Plain(other: Object, text: string)
    | Blocks(other: Object, blocks: seq<Block>)
    | Wordless(value: Value)

  /** Not an object of type "text" with a string under "text". */
  predicate IsOther(v: Value) {
    !(v.Obj? && Field(v.fields, "type") == Some(Str("text")) && "text" in v.fields && v.fields["text"].Str?)
  }

  /** Nothing under "content" that is a string or a list. */
  predicate IsWordless(v: Value) {
    v.Obj? && "content" in v.fields ==> !v.fields["content"].Str? && !v.fields["content"].Arr?
  }

  predicate WellMadeBlocks(blocks: seq<Block>) {
    forall i :: 0 <= i < |blocks| && blocks[i].OtherBlock? ==> IsOther(blocks[i].value)
  }

  predicate WellMade(messages: seq<Message>) {
    forall i :: 0 <= i < |messages| ==>
      match messages[i]
      case Plain(_, _) => true
      case Blocks(_, blocks) => WellMadeBlocks(blocks)
      case Wordless(value) => IsWordless(value)
  }

  function BlockValue(block: Block): Value {
    match block
    case TextBlock(other, text) => Obj(other["type" := Str("text")]["text" := Str(text)])
    case OtherBlock(value) => value
  }

  function MessageValue(message: Message): Value {
    match message
    case Plain(other, text) => Obj(other["content" := Str(text)])
    case Blocks(other, blocks) =>
      Obj(other["content" := Arr(seq(|blocks|, i requires 0 <= i < |blocks| => BlockValue(blocks[i])))])
    case Wordless(value) => value
  }

  function RequestOf(other: Object, messages: seq<Message>): Object {
    other["messages" := Arr(seq(|messages|, i requires 0 <= i < |messages| => MessageValue(messages[i])))]
  }

  function BlocksSay(blocks: seq<Block>): string {
    if blocks == [] then ""
    else
      var most, last := blocks[..|blocks| - 1], blocks[|blocks| - 1];
      if last.TextBlock? then BlocksSay(most) + (last.text + "\n") else BlocksSay(most)
  }

  /** Every text with a line break after it, in order. */
  function MessagesSay(messages: seq<Message>): string {
    if messages == [] then ""
    else
      var most, last := messages[..|messages| - 1], messages[|messages| - 1];
      match last
      case Plain(_, text) => MessagesSay(most) + (text + "\n")
      case Blocks(_, blocks) => MessagesSay(most) + BlocksSay(blocks)
      case Wordless(_) => MessagesSay(most)
  }

  lemma BlockSays(block: Block)
    requires block.OtherBlock? ==> IsOther(block.value)
    ensures BlockText(BlockValue(block)) == if block.TextBlock? then block.text + "\n" else ""
  {
  }

  lemma {:induction false} BlocksRead(blocks: seq<Block>, values: seq<Value>)
    requires WellMadeBlocks(blocks) && |values| == |blocks|
    requires forall i :: 0 <= i < |blocks| ==> values[i] == BlockValue(blocks[i])
    ensures BlocksText(values) == BlocksSay(blocks)
  {
    if blocks != [] {
      var n := |blocks| - 1;
      BlocksRead(blocks[..n], values[..n]);
      BlockSays(blocks[n]);
      assert BlocksSay(blocks[..n]) + "" == BlocksSay(blocks[..n]);
    }
  }

  lemma MessageReads(message: Message)
    requires message.Blocks? ==> WellMadeBlocks(message.blocks)
    requires message.Wordless? ==> IsWordless(message.value)
    ensures MessageText(MessageValue(message)) ==
      match message
      case Plain(_, text) => text + "\n"
      case Blocks(_, blocks) => BlocksSay(blocks)
      case Wordless(_) => ""
  {
    if message.Blocks? {
      BlocksRead(message.blocks, MessageValue(message).fields["content"].items);
    }
  }

  lemma {:induction false} MessagesRead(messages: seq<Message>, values: seq<Value>)
    requires WellMade(messages) && |values| == |messages|
    requires forall i :: 0 <= i < |messages| ==> values[i] == MessageValue(messages[i])
    ensures MessagesText(values) == MessagesSay(messages)
  {
    if messages != [] {
      var n := |messages| - 1;
      var last := messages[n];
      MessagesRead(messages[..n], values[..n]);
      MessageReads(last);
      assert MessagesSay(messages[..n]) + "" == MessagesSay(messages[..n]);
    }
  }

  /** The prompt read is every text of every message, a line each, and then the system text, trimmed. */
  lemma PromptReadsBack(c: Codec, other: Object, messages: seq<Message>, system: string)
    requires Lawful(c) && WellMade(messages)
    ensures MessagesIn(c, c.encode(Obj(RequestOf(other["system" := Str(system)], messages))))
         == TrimSpace(MessagesSay(messages) + system)
    ensures "system" !in other || !other["system"].Str? ==>
      MessagesIn(c, c.encode(Obj(RequestOf(other, messages)))) == TrimSpace(MessagesSay(messages))
  {
    PromptOf(other["system" := Str(system)], messages);
    PromptOf(other, messages);
    assert MessagesSay(messages) + "" == MessagesSay(messages);
    DecodesBack(c, RequestOf(other["system" := Str(system)], messages));
    DecodesBack(c, RequestOf(other, messages));
  }

  lemma DecodesBack(c: Codec, o: Object)
    requires Lawful(c)
    ensures DecodeObject(c, c.encode(Obj(o))) == Some(o)
  {
    assert c.decode(c.encode(Obj(o))) == Some(Obj(o));
  }

  lemma PromptOf(other: Object, messages: seq<Message>)
    requires WellMade(messages)
    ensures var system := Field(other, "system");
      MessagesOf(RequestOf(other, messages)) ==
      TrimSpace(MessagesSay(messages) + if system.Some? && system.value.Str? then system.value.s else "")
  {
    var o := RequestOf(other, messages);
    MessagesRead(messages, o["messages"].items);
    assert Field(o, "system") == Field(other, "system") && ArrOf(Field(o, "messages")) == o["messages"].items;
  }

  /** A request without a list of messages has none to read; neither has one that is no object. */
  lemma NoPrompt(c: Codec, o: Object, v: Value)
    requires Lawful(c) && "messages" !in o && "system" !in o && !v.Obj?
    ensures MessagesIn(c, c.encode(Obj(o))) == "" && MessagesIn(c, c.encode(v)) == ""
  {
    assert c.decode(c.encode(Obj(o))) == Some(Obj(o)) && c.decode(c.encode(v)) == Some(v);
    assert MessagesText([]) == "" && TrimSpace("") == "";
    assert MessagesOf(o) == "" && MessagesOf(map[]) == "";
  }

  /** A content type counts as JSON when it contains "application/json", in whatever case. */
  lemma JsonTypeIff(contentType: string)
    ensures IsJsonType(contentType) <==> exists a, b :: ToLower(contentType) == a + "application/json" + b
  {
    ContainsIff(ToLower(contentType), "application/json");
  }

  /** The model read is the non-empty string under "model" of a JSON object, and "unknown" otherwise. */
  lemma ModelReadsBack(c: Codec, other: Object, model: string, contentType: string)
    requires Lawful(c)
    ensures ModelIn(c, c.encode(Obj(other["model" := Str(model)])), contentType) ==
      if IsJsonType(contentType) && model != "" then model else "unknown"
    ensures "model" !in other || !other["model"].Str? ==>
      ModelIn(c, c.encode(Obj(other)), contentType) == "unknown"
  {
    DecodesBack(c, other["model" := Str(model)]);
    DecodesBack(c, other);
  }

  // ----- what is written --------------------------------------------------------------------------

  /** A body goes out as it came, to the letter, exactly when there is nothing to put in. */
  lemma SentAsCameIff(c: Codec, body: string, contentType: string, defaultThink: string, numPredict: int)
    requires Lawful(c) && IsObjectBody(c, body)
    ensures var o := c.decode(body).value.fields;
      Sent(c, body, contentType, defaultThink, numPredict) == Forwards(body) <==>
        || !IsJsonType(contentType)
        || (&& (defaultThink == "" || "think" in o)
            && (numPredict == 0 || "num_predict" in ObjOf(Field(o, "options")))
            && (Field(o, "stream") != Some(Bool(true)) || "include_usage" in ObjOf(Field(o, "stream_options"))))
  {
    RewrittenDecodes(c, body, contentType, defaultThink, numPredict);
    var o := c.decode(body).value.fields;
    var d := WithDefaults(o, defaultThink, numPredict);
    DefaultsChangeIff(o, defaultThink, numPredict);
    NestedChanges(o, "stream_options", "include_usage", Bool(true));
    if WithStreamUsage(d) == o {
      StreamAddsOnlyItsOwn(o, d, defaultThink, numPredict);
    }
  }

  /** The values put in where the client gave none, and that nothing is put in where it did, or by no setting. */
  lemma EditsWrite(o: Object, defaultThink: string, numPredict: int)
    ensures var o' := WithStreamUsage(WithDefaults(o, defaultThink, numPredict));
      && ("think" !in o ==>
            Field(o', "think") == if defaultThink == "" then None
                                  else if defaultThink == "off" then Some(Bool(false)) else Some(Str(defaultThink)))
      && (numPredict == 0 ==> Field(o', "options") == Field(o, "options"))
      && (numPredict != 0 && "num_predict" !in ObjOf(Field(o, "options")) ==>
            Field(o', "options") == Some(Obj(ObjOf(Field(o, "options"))["num_predict" := Num(Decimal(numPredict, 0))])))
      && (Field(o, "stream") != Some(Bool(true)) ==> Field(o', "stream_options") == Field(o, "stream_options"))
      && (Field(o, "stream") == Some(Bool(true)) && "include_usage" !in ObjOf(Field(o, "stream_options")) ==>
            Field(o', "stream_options") == Some(Obj(ObjOf(Field(o, "stream_options"))["include_usage" := Bool(true)])))
  {
    var t := WithThink(o, defaultThink);
    assert Field(t, "options") == Field(o, "options");
    var d := WithDefaults(o, defaultThink, numPredict);
    assert Field(d, "stream") == Field(o, "stream") && Field(d, "stream_options") == Field(o, "stream_options");
    assert Field(d, "think") == Field(t, "think");
    assert Field(WithStreamUsage(d), "think") == Field(d, "think");
    assert Field(WithStreamUsage(d), "options") == Field(d, "options");
  }
}
