/**
 Rewriting a request body on its way upstream, and what the rewriting leaves alone
 (injectRequestDefaults, injectStreamUsageOption, detectModelFromRequestBody,
 extractRequestMessageContent).

 The claims are about bodies that decode to an object. The literal `null` decodes to a nil map, which
 `injectRequestDefaults` writes to; that is the outcome `Panics`.
 */
module RequestRewriting {
  import opened Wrappers
  import opened Text
  import opened Json

  predicate IsJsonType(contentType: string) {
    Contains(ToLower(contentType), "application/json")
  }

  // ----- the edits, on decoded objects ------------------------------------------------------------

  function ThinkValue(defaultThink: string): Value {
    if defaultThink == "off" then Bool(false) else Str(defaultThink)
  }

  /** Adds `field` to the object under `name`, unless it has it; a value that is not an object is replaced. */
  function WithNested(o: Object, name: string, field: string, v: Value): Object {
    var inner := ObjOf(Field(o, name));
    if field in inner then o else o[name := Obj(inner[field := v])]
  }

  function WithThink(o: Object, defaultThink: string): Object {
    if defaultThink == "" || "think" in o then o else o["think" := ThinkValue(defaultThink)]
  }

  function WithDefaults(o: Object, defaultThink: string, numPredict: int): Object {
    var t := WithThink(o, defaultThink);
    if numPredict == 0 then t else WithNested(t, "options", "num_predict", Integer(numPredict))
  }

  predicate IsStreaming(o: Object) {
    Field(o, "stream") == Some(Bool(true))
  }

  function WithStreamUsage(o: Object): Object {
    if IsStreaming(o) then WithNested(o, "stream_options", "include_usage", Bool(true)) else o
  }

  // ----- the edits, on bodies ---------------------------------------------------------------------

  datatype Outcome = Forwards(body: string) | Panics

  /** The body is printed again only when the edit changed something. */
  function Reprinted(c: Codec, body: string, o: Object, o': Object): string {
    if o' == o then body else c.encode(Obj(o'))
  }

  function DefaultsInjected(c: Codec, body: string, contentType: string, defaultThink: string,
        numPredict: int): Outcome
  {
    if body == "" || !IsJsonType(contentType) || (defaultThink == "" && numPredict == 0) then Forwards(body)
    else
      match c.decode(body)
      case Some(Obj(o)) => Forwards(Reprinted(c, body, o, WithDefaults(o, defaultThink, numPredict)))
      case Some(Null) => Panics
      case _ => Forwards(body)
  }

  function StreamUsageInjected(c: Codec, body: string, contentType: string): string {
    if body == "" || !IsJsonType(contentType) then body
    else
      match c.decode(body)
      case Some(Obj(o)) => Reprinted(c, body, o, WithStreamUsage(o))
      case _ => body
  }

  method InjectRequestDefaults(c: Codec, body: string, contentType: string, defaultThink: string,
        defaultNumPredict: int)
    returns (r: Outcome)
    ensures r == DefaultsInjected(c, body, contentType, defaultThink, defaultNumPredict)
  {
    if body == "" || !IsJsonType(contentType) || (defaultThink == "" && defaultNumPredict == 0) {
      return Forwards(body);
    }
    var decoded := c.decode(body);
    if decoded.None? || !(decoded.value.Obj? || decoded.value.Null?) {
      return Forwards(body);
    }
    if decoded.value.Null? {
      return Panics;
    }
    var parsed := decoded.value.fields;
    var modified := false;
    if defaultThink != "" {
      if "think" !in parsed {
        parsed := parsed["think" := if defaultThink == "off" then Bool(false) else Str(defaultThink)];
        modified := true;
      }
    }
    if defaultNumPredict != 0 {
      var opts := ObjOf(Field(parsed, "options"));
      if "num_predict" !in opts {
        opts := opts["num_predict" := Integer(defaultNumPredict)];
        parsed := parsed["options" := Obj(opts)];
        modified := true;
      }
    }
    DefaultsChangeIff(decoded.value.fields, defaultThink, defaultNumPredict);
    if !modified {
      return Forwards(body);
    }
    r := Forwards(c.encode(Obj(parsed)));
  }

  method InjectStreamUsageOption(c: Codec, body: string, contentType: string) returns (r: string)
    ensures r == StreamUsageInjected(c, body, contentType)
  {
    if body == "" || !IsJsonType(contentType) {
      return body;
    }
    var decoded := DecodeObject(c, body);
    if decoded.None? {
      return body;
    }
    var parsed := decoded.value;
    if "stream" !in parsed || parsed["stream"] != Bool(true) {
      return body;
    }
    var opts := ObjOf(Field(parsed, "stream_options"));
    if "include_usage" in opts {
      return body;
    }
    NestedChanges(parsed, "stream_options", "include_usage", Bool(true));
    opts := opts["include_usage" := Bool(true)];
    parsed := parsed["stream_options" := Obj(opts)];
    r := c.encode(Obj(parsed));
  }

  lemma NestedChanges(o: Object, name: string, field: string, v: Value)
    ensures WithNested(o, name, field, v) == o <==> field in ObjOf(Field(o, name))
    ensures field in ObjOf(Field(WithNested(o, name, field, v), name))
  {
    var o' := WithNested(o, name, field, v);
    if field !in ObjOf(Field(o, name)) {
      assert field in ObjOf(Field(o', name));
    }
  }

  /** The edit changes nothing exactly when every default it would set is there or switched off. */
  lemma DefaultsChangeIff(o: Object, defaultThink: string, numPredict: int)
    ensures WithDefaults(o, defaultThink, numPredict) == o <==>
      && (defaultThink == "" || "think" in o)
      && (numPredict == 0 || "num_predict" in ObjOf(Field(o, "options")))
  {
    var t := WithThink(o, defaultThink);
    NestedChanges(t, "options", "num_predict", Integer(numPredict));
    assert Field(t, "options") == Field(o, "options");
    if t != o {
      assert "think" in WithDefaults(o, defaultThink, numPredict);
    }
  }

  // ----- what the proxy reads from a request ------------------------------------------------------

  function ModelIn(c: Codec, body: string, contentType: string): string {
    if !IsJsonType(contentType) then "unknown"
    else
      var o := DecodeObject(c, body);
      if o.None? then "unknown"
      else
        var m := Field(o.value, "model");
        if m.Some? && m.value.Str? && m.value.s != "" then m.value.s else "unknown"
  }

  function BlockText(block: Value): string {
    var b := ObjOf(Some(block));
    if Field(b, "type") == Some(Str("text")) && "text" in b && b["text"].Str? then b["text"].s + "\n" else ""
  }

  function BlocksText(blocks: seq<Value>): string {
    if blocks == [] then "" else BlocksText(blocks[..|blocks| - 1]) + BlockText(blocks[|blocks| - 1])
  }

  function MessageText(message: Value): string {
    match Field(ObjOf(Some(message)), "content")
    case Some(Str(s)) => s + "\n"
    case Some(Arr(blocks)) => BlocksText(blocks)
    case _ => ""
  }

  function MessagesText(messages: seq<Value>): string {
    if messages == [] then ""
    else MessagesText(messages[..|messages| - 1]) + MessageText(messages[|messages| - 1])
  }

  /** All message texts, then the system text. */
  function MessagesOf(o: Object): string {
    var system := Field(o, "system");
    TrimSpace(MessagesText(ArrOf(Field(o, "messages")))
              + if system.Some? && system.value.Str? then system.value.s else "")
  }

  function MessagesIn(c: Codec, body: string): string {
    var o := DecodeObject(c, body);
    if o.None? then "" else MessagesOf(o.value)
  }

  method ExtractRequestMessageContent(c: Codec, body: string) returns (content: string)
    ensures content == MessagesIn(c, body)
  {
    var decoded := DecodeObject(c, body);
    if decoded.None? {
      return "";
    }
    var obj, sb := decoded.value, "";
    var messages := ArrOf(Field(obj, "messages"));
    for i := 0 to |messages|
      invariant sb == MessagesText(messages[..i])
    {
      assert messages[..i + 1][..i] == messages[..i];
      var text := MessageContent(ObjOf(Some(messages[i])), messages[i]);
      sb := sb + text;
    }
    assert messages[..|messages|] == messages;
    var system := if "system" in obj && obj["system"].Str? then obj["system"].s else "";
    content := TrimSpace(sb + system);
  }

  /** The text of one message: its content, or the text blocks of its content. */
  method MessageContent(msg: Object, ghost message: Value) returns (sb: string)
    requires msg == ObjOf(Some(message))
    ensures sb == MessageText(message)
  {
    sb := "";
    if "content" in msg {
      if msg["content"].Str? {
        sb := msg["content"].s + "\n";
      } else if msg["content"].Arr? {
        sb := JoinBlocks(msg["content"].items);
      }
    }
  }

  method JoinBlocks(blocks: seq<Value>) returns (sb: string)
    ensures sb == BlocksText(blocks)
  {
    sb := "";
    for i := 0 to |blocks|
      invariant sb == BlocksText(blocks[..i])
    {
      assert blocks[..i + 1][..i] == blocks[..i];
      var b := ObjOf(Some(blocks[i]));
      if "type" in b && b["type"] == Str("text") && "text" in b && b["text"].Str? {
        sb := sb + b["text"].s;
        sb := sb + "\n";
      }
    }
    assert blocks[..|blocks|] == blocks;
  }

  // ----- meaning is preserved ---------------------------------------------------------------------

  /** Everything of `o` but what is under `names` is in `o'` unchanged, and nothing else is. */
  ghost predicate SameElsewhere(o: Object, o': Object, names: set<string>) {
    forall k :: k !in names ==> Field(o', k) == Field(o, k)
  }

  /** What the client put under `name` is kept: all of it, when it is an object. */
  ghost predicate Extends(o: Object, o': Object, name: string) {
    name in o && o[name].Obj? ==>
      name in o' && o'[name].Obj? && forall k :: k in o[name].fields ==>
          k in o'[name].fields && o'[name].fields[k] == o[name].fields[k]
  }

  /** No field but the edited ones changes, and every value the client gave is kept, inside those too. */
  ghost predicate KeepsClientValues(o: Object, o': Object) {
    && SameElsewhere(o, o', {"think", "options", "stream_options"})
    && ("think" in o ==> Field(o', "think") == Field(o, "think"))
    && Extends(o, o', "options") && Extends(o, o', "stream_options")
  }

  lemma EditsKeepClientValues(o: Object, defaultThink: string, numPredict: int)
    ensures KeepsClientValues(o, WithStreamUsage(WithDefaults(o, defaultThink, numPredict)))
  {
  }

  /** Each edit applied twice is the edit applied once, and the two commute. */
  lemma EditsAreIdempotentAndCommute(o: Object, defaultThink: string, numPredict: int)
    ensures var d := WithDefaults(o, defaultThink, numPredict); WithDefaults(d, defaultThink, numPredict) == d
    ensures WithStreamUsage(WithStreamUsage(o)) == WithStreamUsage(o)
    ensures WithStreamUsage(WithDefaults(o, defaultThink, numPredict))
        == WithDefaults(WithStreamUsage(o), defaultThink, numPredict)
  {
    var d := WithDefaults(o, defaultThink, numPredict);
    DefaultsChangeIff(d, defaultThink, numPredict);
    assert Field(d, "stream") == Field(o, "stream") && Field(d, "stream_options") == Field(o, "stream_options");
    var s := WithStreamUsage(o);
    assert Field(s, "options") == Field(o, "options") && ("think" in s <==> "think" in o);
    assert WithStreamUsage(d) == WithDefaults(s, defaultThink, numPredict);
  }

  predicate IsObjectBody(c: Codec, body: string) {
    body != "" && c.decode(body).Some? && c.decode(body).value.Obj?
  }

  /** Both edits, in the order `ServeHTTP` makes them; with no defaults, the one edit `serveX402` makes. */
  function Sent(c: Codec, body: string, contentType: string, defaultThink: string, numPredict: int): Outcome {
    match DefaultsInjected(c, body, contentType, defaultThink, numPredict)
    case Panics => Panics
    case Forwards(mid) => Forwards(StreamUsageInjected(c, mid, contentType))
  }

  function Rewritten(c: Codec, body: string, contentType: string, defaultThink: string, numPredict: int): string
    requires IsObjectBody(c, body)
  {
    Sent(c, body, contentType, defaultThink, numPredict).body
  }

  lemma RewrittenDecodes(c: Codec, body: string, contentType: string, defaultThink: string, numPredict: int)
    requires Lawful(c) && IsObjectBody(c, body)
    ensures var o := c.decode(body).value.fields;
      var o' := if IsJsonType(contentType) then WithStreamUsage(WithDefaults(o, defaultThink, numPredict)) else o;
      && Rewritten(c, body, contentType, defaultThink, numPredict) == Reprinted(c, body, o, o')
      && c.decode(Rewritten(c, body, contentType, defaultThink, numPredict)) == Some(Obj(o'))
  {
    var o := c.decode(body).value.fields;
    var d := WithDefaults(o, defaultThink, numPredict);
    var mid := DefaultsInjected(c, body, contentType, defaultThink, numPredict).body;
    if IsJsonType(contentType) {
      assert c.decode(c.encode(Obj(d))) == Some(Obj(d));
      assert mid == Reprinted(c, body, o, d);
      var s := WithStreamUsage(d);
      assert c.decode(c.encode(Obj(s))) == Some(Obj(s));
      if s == o {
        StreamAddsOnlyItsOwn(o, d, defaultThink, numPredict);
      }
    }
  }

  /** If both edits together change nothing, the first alone changed nothing. */
  lemma StreamAddsOnlyItsOwn(o: Object, d: Object, defaultThink: string, numPredict: int)
    requires d == WithDefaults(o, defaultThink, numPredict) && WithStreamUsage(d) == o
    ensures d == o
  {
    DefaultsChangeIff(o, defaultThink, numPredict);
    assert Field(WithStreamUsage(d), "options") == Field(d, "options");
    assert "think" in WithStreamUsage(d) <==> "think" in d;
  }

  /** What is sent differs in no field but the edited ones, and loses nothing the client put into those. */
  lemma {:induction false} RewritingKeepsClientValues(c: Codec, body: string, contentType: string,
        defaultThink: string, numPredict: int)
    requires Lawful(c) && IsObjectBody(c, body)
    ensures var r := Rewritten(c, body, contentType, defaultThink, numPredict);
      IsObjectBody(c, r) && KeepsClientValues(c.decode(body).value.fields, c.decode(r).value.fields)
  {
    RewrittenDecodes(c, body, contentType, defaultThink, numPredict);
    EditsKeepClientValues(c.decode(body).value.fields, defaultThink, numPredict);
  }

  /** Rewriting a rewritten body changes nothing more, to the letter. */
  lemma {:induction false} RewritingIsIdempotent(c: Codec, body: string, contentType: string, defaultThink: string,
        numPredict: int)
    requires Lawful(c) && IsObjectBody(c, body)
    ensures var r := Rewritten(c, body, contentType, defaultThink, numPredict);
      IsObjectBody(c, r) && Rewritten(c, r, contentType, defaultThink, numPredict) == r
  {
    RewrittenDecodes(c, body, contentType, defaultThink, numPredict);
    var r := Rewritten(c, body, contentType, defaultThink, numPredict);
    RewrittenDecodes(c, r, contentType, defaultThink, numPredict);
    var o := c.decode(body).value.fields;
    var d := WithDefaults(o, defaultThink, numPredict);
    EditsAreIdempotentAndCommute(o, defaultThink, numPredict);
    EditsAreIdempotentAndCommute(d, defaultThink, numPredict);
  }

  /** The order of the two injections does not matter, to the letter. */
  lemma {:induction false} InjectionsCommute(c: Codec, body: string, contentType: string, defaultThink: string,
        numPredict: int)
    requires Lawful(c) && IsObjectBody(c, body)
    ensures Forwards(Rewritten(c, body, contentType, defaultThink, numPredict))
         == DefaultsInjected(c, StreamUsageInjected(c, body, contentType), contentType, defaultThink, numPredict)
  {
    RewrittenDecodes(c, body, contentType, defaultThink, numPredict);
    var o := c.decode(body).value.fields;
    var s := WithStreamUsage(o);
    EditsAreIdempotentAndCommute(o, defaultThink, numPredict);
    assert c.decode(c.encode(Obj(s))) == Some(Obj(s));
    var both := WithDefaults(s, defaultThink, numPredict);
    if both == o {
      assert Field(both, "stream_options") == Field(s, "stream_options");
      NestedChanges(o, "stream_options", "include_usage", Bool(true));
    }
  }

  /** The proxy reads the same model and the same message text before and after. */
  lemma {:induction false} RewritingPreservesReadings(c: Codec, body: string, contentType: string,
        defaultThink: string, numPredict: int)
    requires Lawful(c) && IsObjectBody(c, body)
    ensures var r := Rewritten(c, body, contentType, defaultThink, numPredict);
      && ModelIn(c, r, contentType) == ModelIn(c, body, contentType)
      && MessagesIn(c, r) == MessagesIn(c, body)
  {
    RewrittenDecodes(c, body, contentType, defaultThink, numPredict);
    var o := c.decode(body).value.fields;
    var o' := WithStreamUsage(WithDefaults(o, defaultThink, numPredict));
    assert Field(o', "model") == Field(o, "model");
    assert Field(o', "messages") == Field(o, "messages");
    assert Field(o', "system") == Field(o, "system");
  }

  /** A streaming request reaches the backend with `include_usage` set, to the client's value if it gave one. */
  lemma StreamingAsksForUsage(c: Codec, body: string, contentType: string, defaultThink: string, numPredict: int)
    requires Lawful(c) && IsObjectBody(c, body) && IsJsonType(contentType)
    requires IsStreaming(c.decode(body).value.fields)
    ensures var sent := c.decode(Rewritten(c, body, contentType, defaultThink, numPredict));
      && sent.Some? && sent.value.Obj?
      && var mine, theirs := ObjOf(Field(sent.value.fields, "stream_options")),
        ObjOf(Field(c.decode(body).value.fields, "stream_options"));
         && "include_usage" in mine
         && mine["include_usage"] == if "include_usage" in theirs then theirs["include_usage"] else Bool(true)
  {
    RewrittenDecodes(c, body, contentType, defaultThink, numPredict);
    var o := c.decode(body).value.fields;
    var d := WithDefaults(o, defaultThink, numPredict);
    assert Field(d, "stream") == Field(o, "stream") && Field(d, "stream_options") == Field(o, "stream_options");
    NestedChanges(d, "stream_options", "include_usage", Bool(true));
  }

  /** A body a nil map is written for: the literal null, when a default is configured. */
  predicate IsNullToDefault(c: Codec, body: string, contentType: string, defaultThink: string, numPredict: int) {
    body != "" && IsJsonType(contentType) && (defaultThink != "" || numPredict != 0) && c.decode(body) == Some(Null)
  }

  /** That body alone cannot be rewritten; any other that is not an object is sent as it is. */
  lemma PanicsIff(c: Codec, body: string, contentType: string, defaultThink: string, numPredict: int)
    ensures var sent := Sent(c, body, contentType, defaultThink, numPredict);
      && (sent == Panics <==> IsNullToDefault(c, body, contentType, defaultThink, numPredict))
      && (!IsObjectBody(c, body) ==> sent == Panics || sent == Forwards(body))
  {
  }
}
