/**
 What a request is billed when the backend gives no figures, and what it is answered when it does not reach
 the backend (ServeHTTP, serveX402, countTokens, extractAPIKey).
 */
module RequestCounting {
  import opened Wrappers
  import opened Text
  import Json
  import Rewriting = RequestRewriting
  import Parsing = ResponseParsing
  import Requests = RequestTexts
  import Responses = ResponseTexts
  import opened TokenMeter
  import opened UsagePipeline
  import opened RequestFlow
  import opened RequestBilling

  // ----- counting ---------------------------------------------------------------------------------

  /** The counter's word counts when it lies between none and one token per character; for an agent's reply, always. */
  lemma CountsAreSane(s: Settings, content: string, model: string)
    requires s.counter.Some? && content != ""
    ensures var n := s.counter.value(content, model);
      && (0 <= n <= |content| ==> Counted(s, content, model) == n)
      && (n < 0 ==> Counted(s, content, model) == 0)
      && (n > |content| ==> Counted(s, content, model) == |content| / 2)
      && CountedRaw(s, content, model) == n
    ensures Counted(s, "", model) == 0
  {
  }

  /** What is counted of a request is its prompt, or the whole body when it has none. */
  lemma PromptCounted(s: Settings, other: Json.Object, messages: seq<Requests.Message>, system: string)
    requires Json.Lawful(s.codec) && Requests.WellMade(messages)
    ensures var body := s.codec.encode(Json.Obj(Requests.RequestOf(other["system" := Json.Str(system)], messages)));
      var prompt := TrimSpace(Requests.MessagesSay(messages) + system);
      PromptText(s, body) == if prompt == "" then body else prompt
  {
    Requests.PromptReadsBack(s.codec, other, messages, system);
  }

  /** What is counted of a streamed answer is the texts of its chunks, or the whole stream when they say nothing. */
  lemma ReplyCounted(s: Settings, items: seq<Responses.Item>)
    requires Json.Lawful(s.codec) && forall i :: 0 <= i < |items| ==> Responses.WellMadeItem(items[i])
    requires exists i :: 0 <= i < |items| && items[i].Spoken?
    ensures var stream := Parsing.Body(s.codec, Responses.LinesOf(items));
      ReplyText(s, stream) == if Responses.SaidIn(items) == "" then stream else Responses.SaidIn(items)
  {
    Responses.StreamedTextsReadBack(s.codec, items);
  }

  /** The model billed to a key is the one its request names, and the answer's only when the request names none. */
  lemma ModelBilled(s: Settings, v: Visit, other: Json.Object, model: string)
    requires Json.Lawful(s.codec) && Rewriting.IsJsonType(v.answers.capturedType) && v.answers.response.Some?
    requires v.answers.captured == s.codec.encode(Json.Obj(other["model" := Json.Str(model)]))
    ensures KeyModel(s, v) ==
      if model == "" || model == "unknown" then Parsing.ModelIn(s.codec, v.answers.response.value) else model
  {
    Requests.ModelReadsBack(s.codec, other, model, v.answers.capturedType);
  }

  /** What a bill says of the input, and of the output. */
  function InputOf(bill: Effect): int
    requires IsBill(bill)
  {
    if bill.Recorded? then bill.call.delta.input else bill.input
  }

  function OutputOf(bill: Effect): int
    requires IsBill(bill)
  {
    if bill.Recorded? then bill.call.delta.output else bill.output
  }

  lemma KeyBillCounted(s: Settings, a: Answers, model: string)
    requires a.response.Some? && Parsing.UsageIn(s.codec, a.response.value).None?
    ensures KeyBill(s, a, model) ==
      Counts(Counted(s, PromptText(s, a.captured), model),
             Counted(s, ReplyText(s, a.response.value), BilledModel(s, model, a.response.value)), 0)
  {
  }

  lemma AgentBillCounted(s: Settings, a: Answers, model: string)
    requires a.response.Some? && Parsing.UsageIn(s.codec, a.response.value).None?
    ensures AgentBill(s, a, model) ==
      Counts(Counted(s, PromptText(s, a.captured), model), CountedRaw(s, ReplyText(s, a.response.value), model), 0)
  {
  }

  /** The bill of a request whose answer has no figures. */
  lemma {:induction false} CountedBill(s: Settings, v: Visit, bill: Effect)
    requires UsageAnswered(s, v) == None && Bills(Trace(s, v)) == [bill]
    ensures v.answers.response.Some? && IsBill(bill)
    ensures IsAgent(s, v.request) ==>
      && v.answers.raw.Some? && bill.Reported?
      && InputOf(bill) == Counted(s, PromptText(s, v.answers.captured), AgentModel(s, v))
      && OutputOf(bill) == CountedRaw(s, ReplyText(s, v.answers.response.value), AgentModel(s, v))
    ensures !IsAgent(s, v.request) ==>
      && bill.Recorded? && bill.call.delta.cached == 0
      && InputOf(bill) == Counted(s, PromptText(s, v.answers.captured), RequestModel(s, v))
      && OutputOf(bill) == Counted(s, ReplyText(s, v.answers.response.value), KeyModel(s, v))
  {
    BilledOnce(s, v);
    if v.answers.response.Some? {
      KeyBillCounted(s, v.answers, RequestModel(s, v));
      if v.answers.raw.Some? {
        AgentBillCounted(s, v.answers, AgentModel(s, v));
      }
    }
  }

  /** A keyed request whose answer has no figures is recorded with the proxy's own counts, if either is not zero. */
  lemma KeyCounted(s: Settings, v: Visit)
    requires IsRecordable(s, v, Trace(s, v)) && UsageAnswered(s, v) == None
    ensures var input := Counted(s, PromptText(s, v.answers.captured), RequestModel(s, v));
      var output := Counted(s, ReplyText(s, v.answers.response.value), KeyModel(s, v));
      Bills(Trace(s, v)) ==
        if input == 0 && output == 0 then []
        else [Recorded(Call(s.hash(ApiKeyOf(v.request.authorization)), KeyModel(s, v), Counts(input, output, 0)))]
  {
    BilledOnce(s, v);
    KeyBillCounted(s, v.answers, RequestModel(s, v));
  }

  /** The input billed is a matter of the request: another answer without figures leaves it. */
  lemma {:induction false} InputIgnoresAnswer(s: Settings, v: Visit, response: Option<string>,
        bill: Effect, bill': Effect)
    requires var w := v.(answers := v.answers.(response := response));
      && UsageAnswered(s, v) == None && Bills(Trace(s, v)) == [bill]
      && UsageAnswered(s, w) == None && Bills(Trace(s, w)) == [bill']
    ensures IsBill(bill) && IsBill(bill') && InputOf(bill) == InputOf(bill')
  {
    CountedBill(s, v, bill);
    CountedBill(s, v.(answers := v.answers.(response := response)), bill');
  }

  /** The output billed is a matter of the answer: another prompt for the same model leaves it. */
  lemma {:induction false} OutputIgnoresPrompt(s: Settings, v: Visit, captured: string, bill: Effect, bill': Effect)
    requires var w := v.(answers := v.answers.(captured := captured));
      && RequestModel(s, w) == RequestModel(s, v)
      && UsageAnswered(s, v) == None && Bills(Trace(s, v)) == [bill]
      && UsageAnswered(s, w) == None && Bills(Trace(s, w)) == [bill']
    ensures IsBill(bill) && IsBill(bill') && OutputOf(bill) == OutputOf(bill')
  {
    CountedBill(s, v, bill);
    CountedBill(s, v.(answers := v.answers.(captured := captured)), bill');
  }

  // ----- a prompt of four characters and a reply of two -------------------------------------------

  function LengthCounter(): (string, string) -> int {
    (content, model) => |content|
  }

  function FourCharacters(model: Json.Object): Json.Object {
    Requests.RequestOf(model, [Requests.Plain(map[], "abcd")])
  }

  function TwoCharacters(): Json.Object {
    Responses.ResponseOf("message", map["model" := Json.Str("m")], [Responses.Says(map[], map[], "hi")])
  }

  lemma FourRead(s: Settings, model: Json.Object)
    requires Json.Lawful(s.codec) && "system" !in model
    ensures PromptText(s, s.codec.encode(Json.Obj(FourCharacters(model)))) == "abcd"
  {
    var message := Requests.Plain(map[], "abcd");
    Requests.PromptReadsBack(s.codec, model, [message], "");
    assert [message][..0] == [];
    assert Requests.MessagesSay([message]) == Requests.MessagesSay([]) + ("abcd" + "\n") == "abcd\n";
    TrimSpaceDrops("", "abcd", "\n");
    assert "" + "abcd" + "\n" == "abcd\n";
  }

  lemma TwoSaid(s: Settings)
    requires Json.Lawful(s.codec)
    ensures ReplyText(s, s.codec.encode(Json.Obj(TwoCharacters()))) == "hi"
  {
    var choice := Responses.Says(map[], map[], "hi");
    Responses.PlainTextsReadBack(s.codec, map["model" := Json.Str("m")], [choice], "");
    assert s.codec.encode(Json.Obj(TwoCharacters())) + "" == s.codec.encode(Json.Obj(TwoCharacters()));
    assert [choice][..0] == [];
    assert Responses.Said([choice]) == Responses.Said([]) + "hi" == "hi";
  }

  lemma TwoRead(s: Settings)
    requires Json.Lawful(s.codec)
    ensures var text := s.codec.encode(Json.Obj(TwoCharacters()));
      Parsing.UsageIn(s.codec, text) == None && Parsing.ModelIn(s.codec, text) == "m"
  {
    Parsing.PlainReadBack(s.codec, TwoCharacters(), "");
    assert s.codec.encode(Json.Obj(TwoCharacters())) + "" == s.codec.encode(Json.Obj(TwoCharacters()));
    Responses.MissingCounts(TwoCharacters(), 1);
    assert Parsing.ModelOf(TwoCharacters()) == Some("m");
  }

  /** A request with a key: four in, two out. */
  lemma KeyedVisit(c: Json.Codec, hash: string -> string) returns (s: Settings, v: Visit)
    requires Json.Lawful(c)
    ensures Bills(Trace(s, v)) == [Recorded(Call(hash("key"), "m", Counts(4, 2, 0)))]
  {
    s := Settings(c, None, false, false, 0.0, [], "", 0, Some(LengthCounter()), hash, true);
    v := Visit(Request("/", "/", "", "", "key"),
               Answers(Some(""), false, false, true, None, c.encode(Json.Obj(FourCharacters(map[]))), "",
                       Some(c.encode(Json.Obj(TwoCharacters())))));
    FourRead(s, map[]);
    TwoSaid(s);
    TwoRead(s);
    NoJsonType();
    assert RequestModel(s, v) == UNKNOWN && ApiKeyOf("key") == "key";
    KeyForwardedIff(s, v);
    BilledOnce(s, v);
    KeyBillCounted(s, v.answers, UNKNOWN);
  }

  lemma NoJsonType()
    ensures !Rewriting.IsJsonType("") && Rewriting.IsJsonType("application/json")
  {
    LowerAlready("");
    LowerAlready("application/json");
    Requests.JsonTypeIff("application/json");
    assert "application/json" == "" + "application/json" + "";
    Requests.JsonTypeIff("");
  }

  /** An agent's signed and funded request for the model "m", answered with `response`. */
  lemma SignedVisit(c: Json.Codec, hash: string -> string, body: string, response: string)
    returns (s: Settings, v: Visit)
    requires Rewriting.ModelIn(c, body, "application/json") == "m"
    ensures s.codec == c && s.counter == Some(LengthCounter()) && IsAgentLLM(s, v) && IsForwarded(Trace(s, v))
    ensures v.answers.captured == body && v.answers.response == Some(response)
    ensures v.request.wallet == "wallet" && AgentModel(s, v) == "m"
  {
    s := Settings(c, None, false, true, 1.0, [], "", 0, Some(LengthCounter()), hash, true);
    v := Visit(Request("/", "/", "application/json", "wallet", ""),
               Answers(Some(body), true, true, false, Some(1.0), body, "", Some(response)));
    AgentForwardedIff(s, v);
  }

  /** An agent's forwarded request whose answer has no figures is reported with the proxy's own counts. */
  lemma AgentCounted(s: Settings, v: Visit)
    requires IsAgentLLM(s, v) && IsForwarded(Trace(s, v)) && v.answers.response.Some? && UsageAnswered(s, v) == None
    ensures var prompt, reply := PromptText(s, v.answers.captured), ReplyText(s, v.answers.response.value);
      Bills(Trace(s, v)) == [Reported(v.request.wallet, AgentModel(s, v),
                                      Counted(s, prompt, AgentModel(s, v)), CountedRaw(s, reply, AgentModel(s, v)))]
  {
    BilledOnce(s, v);
    AgentBillCounted(s, v.answers, AgentModel(s, v));
  }

  function OnlyModel(): Json.Object {
    map["model" := Json.Str("m")]
  }

  lemma FourNamesModel(c: Json.Codec)
    requires Json.Lawful(c)
    ensures Rewriting.ModelIn(c, c.encode(Json.Obj(FourCharacters(OnlyModel()))), "application/json") == "m"
  {
    NoJsonType();
    assert FourCharacters(OnlyModel()) == FourCharacters(OnlyModel())["model" := Json.Str("m")];
    Requests.ModelReadsBack(c, FourCharacters(OnlyModel()), "m", "application/json");
  }

  lemma LengthCounts(s: Settings, text: string, model: string)
    requires s.counter == Some(LengthCounter()) && text != ""
    ensures Counted(s, text, model) == CountedRaw(s, text, model) == |text|
  {
    assert LengthCounter()(text, model) == |text|;
  }

  /** The same of an agent's: reported, four in and two out. */
  lemma AgentVisit(c: Json.Codec, hash: string -> string) returns (s: Settings, v: Visit)
    requires Json.Lawful(c)
    ensures Bills(Trace(s, v)) == [Reported("wallet", "m", 4, 2)]
  {
    var model := OnlyModel();
    FourNamesModel(c);
    s, v := SignedVisit(c, hash, c.encode(Json.Obj(FourCharacters(model))), c.encode(Json.Obj(TwoCharacters())));
    FourRead(s, model);
    TwoSaid(s);
    TwoRead(s);
    AgentCounted(s, v);
    LengthCounts(s, "abcd", "m");
    LengthCounts(s, "hi", "m");
  }

  // ----- answered without the backend -------------------------------------------------------------

  /** The key is what follows "Basic " or "Bearer ", or the whole header. */
  lemma ApiKeyMeans(key: string)
    ensures ApiKeyOf("Basic " + key) == key && ApiKeyOf("Bearer " + key) == key
    ensures !("Basic " <= key) && !("Bearer " <= key) ==> ApiKeyOf(key) == key
  {
    assert ("Basic " + key)[6..] == key && ("Bearer " + key)[7..] == key;
    assert ("Bearer " + key)[1] == 'e' && "Basic "[1] == 'a';
  }

  /** A URL is blocked when it contains one of the patterns. */
  lemma BlockedIff(s: Settings, url: string)
    ensures IsBlocked(s, url) <==> exists i, a, b :: 0 <= i < |s.blockedURLs| && url == a + s.blockedURLs[i] + b
  {
    forall i | 0 <= i < |s.blockedURLs|
      ensures Contains(url, s.blockedURLs[i]) <==> exists a, b :: url == a + s.blockedURLs[i] + b
    {
      ContainsIff(url, s.blockedURLs[i]);
    }
  }

  /** An agent's request that stops at a gate: which gate comes first, and the status it is answered. */
  lemma AgentStops(s: Settings, v: Visit)
    requires s.metricsPath != Some(v.request.path) && s.agentsEnabled && v.request.wallet != ""
    ensures var a, t := v.answers, Trace(s, v);
      if a.raw == None then t == [Rejected(400)]
      else if !a.freshTimestamp then t == [Rejected(401)]
      else if !a.signed then t == [SignatureChecked(false), Rejected(401)]
      else if Rewriting.ModelIn(s.codec, a.raw.value, v.request.contentType) == "unknown" then
        t == [SignatureChecked(true), Forwarded(None)]
      else if a.balance == None then t == [SignatureChecked(true), BalanceRead(None), Rejected(503)]
      else if a.balance.value < s.minBalance then
        t == [SignatureChecked(true), BalanceRead(a.balance), Challenged(a.balance.value)]
      else |t| >= 3 && t[2].Forwarded?
  {
  }

  /** The same of any other request. */
  lemma KeyStops(s: Settings, v: Visit)
    requires s.metricsPath == Some(v.request.path) || !s.agentsEnabled || v.request.wallet == ""
    ensures var q, a, t := v.request, v.answers, Trace(s, v);
      if s.metricsPath == Some(q.path) then t == [MetricsServed(s.hasCollector)]
      else if IsBlocked(s, q.url) then t == [Rejected(403)]
      else if q.authorization == "" || q.authorization == "Basic " || q.authorization == "Bearer " then
        t == [Rejected(401)]
      else if !a.keyAccepted then t == [KeyChecked(false), Rejected(401)]
      else t[0] == KeyChecked(true)
  {
    KeyIsEmptyIff(v.request.authorization);
  }

  lemma KeyIsEmptyIff(authorization: string)
    ensures ApiKeyOf(authorization) == "" <==>
      authorization == "" || authorization == "Basic " || authorization == "Bearer "
  {
    ApiKeyMeans("");
    if "Basic " <= authorization {
      assert authorization == "Basic " + authorization[6..];
    } else if "Bearer " <= authorization {
      assert authorization == "Bearer " + authorization[7..];
    }
  }
}
