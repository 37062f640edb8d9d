/**
 Who is billed for a request, and when: over one request, over every interleaving of any number of
 requests, and through the usage pipeline to the portal (ServeHTTP, serveX402).
 */
module RequestBilling {
  import opened Wrappers
  import opened TokenMeter
  import opened ReportRecords
  import opened RequestFlow
  import opened UsagePipeline
  import Rewriting = RequestRewriting
  import Parsing = ResponseParsing
  import Json
  import Capture = BodyCapture

  // ----- one request ------------------------------------------------------------------------------

  /** What a meter reads: the accumulator's cells, and what the portal charges a wallet for a model. */
  datatype Meter =
    | Accumulator(cell: Cell)
    | Portal(wallet: string, model: string, col: Column)

  function Adds(m: Meter, e: Effect): int {
    match m
    case Accumulator(c) => if e.Recorded? then CallCell(e.call, c) else 0
    case Portal(wallet, model, col) =>
      if e.Reported? && e.wallet == wallet && e.model == model then Counts(e.input, e.output, 0).Get(col) else 0
  }

  function Charged(m: Meter, trace: seq<Effect>): int {
    if trace == [] then 0 else Charged(m, trace[..|trace| - 1]) + Adds(m, trace[|trace| - 1])
  }

  /** An agent's request that names a model: one that is gated by balance and billed. */
  predicate IsAgentLLM(s: Settings, v: Visit) {
    IsAgent(s, v.request) && v.answers.raw.Some? && AgentModel(s, v) != UNKNOWN
  }

  function AgentModel(s: Settings, v: Visit): string
    requires v.answers.raw.Some?
  {
    Rewriting.ModelIn(s.codec, v.answers.raw.value, v.request.contentType)
  }

  function RequestModel(s: Settings, v: Visit): string {
    Rewriting.ModelIn(s.codec, v.answers.captured, v.answers.capturedType)
  }

  function KeyModel(s: Settings, v: Visit): string
    requires v.answers.response.Some?
  {
    BilledModel(s, RequestModel(s, v), v.answers.response.value)
  }

  predicate IsForwarded(trace: seq<Effect>) {
    exists i :: 0 <= i < |trace| && trace[i].Forwarded?
  }

  /**
     What a request is billed, and on which channel: an agent's request that names a model, was
     forwarded and answered is reported once, whatever the counts; a request with a key that was
     forwarded and answered is recorded once if a model is known and something was counted. Nothing
     else is billed, and no request on both channels.
   */
  function BillOf(s: Settings, v: Visit): seq<Effect> {
    if IsForwarded(Trace(s, v)) then BillIfForwarded(s, v) else []
  }

  function ReportOf(s: Settings, v: Visit, counts: Counts): seq<Effect>
    requires v.answers.raw.Some?
  {
    [Reported(v.request.wallet, AgentModel(s, v), counts.input, counts.output)]
  }

  function BillIfForwarded(s: Settings, v: Visit): seq<Effect> {
    var a := v.answers;
    if a.response.None? then []
    else if IsAgentLLM(s, v) then
      ReportOf(s, v, AgentBill(s, a, AgentModel(s, v)))
    else if IsAgent(s, v.request) then []
    else
      var counts := KeyBill(s, a, RequestModel(s, v));
      if KeyModel(s, v) != UNKNOWN && s.hasAccumulator && (counts.input > 0 || counts.output > 0)
      then [Recorded(Call(s.hash(ApiKeyOf(v.request.authorization)), KeyModel(s, v), counts))] else []
  }

  function Bills(trace: seq<Effect>): seq<Effect> {
    if trace == [] then []
    else
      var most, last := trace[..|trace| - 1], trace[|trace| - 1];
      if IsBill(last) then Bills(most) + [last] else Bills(most)
  }

  lemma {:induction false} NoBills(trace: seq<Effect>)
    requires forall i :: 0 <= i < |trace| ==> !IsBill(trace[i])
    ensures Bills(trace) == []
  {
    if trace != [] {
      NoBills(trace[..|trace| - 1]);
    }
  }

  /** A bill, if any, comes after everything else. */
  lemma {:induction false} BillComesLast(front: seq<Effect>, settlement: seq<Effect>)
    requires forall i :: 0 <= i < |front| ==> !IsBill(front[i])
    requires |settlement| <= 1 && forall i :: 0 <= i < |settlement| ==> IsBill(settlement[i])
    ensures Bills(front + settlement) == settlement
  {
    NoBills(front);
    if settlement == [] {
      assert front + settlement == front;
    } else {
      assert IsBill(settlement[0]) && settlement == [settlement[0]];
      assert (front + settlement)[..|front|] == front;
    }
  }

  lemma {:induction false} FrontThenBill(front: seq<Effect>, settlement: seq<Effect>)
    requires IsFront(front)
    requires |settlement| <= 1 && forall i :: 0 <= i < |settlement| ==> IsBill(settlement[i])
    ensures Bills(front) == [] && (IsForwarded(front) <==> LetThrough(front))
    ensures LetThrough(front) ==> Bills(front + settlement) == settlement && IsForwarded(front + settlement)
  {
    NoBills(front);
    if LetThrough(front) {
      BillComesLast(front, settlement);
      var t := front + settlement;
      assert t[|front| - 1] == front[|front| - 1];
    }
  }

  function AgentBillOf(s: Settings, v: Visit): (bill: seq<Effect>)
    ensures |bill| <= 1 && forall i :: 0 <= i < |bill| ==> IsBill(bill[i])
  {
    if IsAgentLLM(s, v) then AgentSettlement(s, v.request, v.answers, AgentModel(s, v)) else []
  }

  lemma AgentBilledOnce(s: Settings, v: Visit)
    requires IsAgent(s, v.request)
    ensures Bills(Trace(s, v)) == BillOf(s, v)
  {
    FrontThenBill(AgentFront(s, v.request, v.answers), AgentBillOf(s, v));
  }

  lemma KeyTraceBills(s: Settings, v: Visit)
    ensures var t, front := KeyTrace(s, v.request, v.answers), KeyFront(s, v.answers);
      && (IsForwarded(t) <==> LetThrough(front))
      && Bills(t) == if LetThrough(front) then KeySettlement(s, v.request, v.answers, RequestModel(s, v)) else []
  {
    FrontThenBill(KeyFront(s, v.answers), KeySettlement(s, v.request, v.answers, RequestModel(s, v)));
  }

  lemma KeyBilledOnce(s: Settings, v: Visit)
    requires !IsAgent(s, v.request)
    ensures Bills(Trace(s, v)) == BillOf(s, v)
  {
    var t := Trace(s, v);
    if |t| == 1 && !t[0].KeyChecked? {
      NoBills(t);
    } else {
      assert t == KeyTrace(s, v.request, v.answers);
      KeyTraceBills(s, v);
    }
  }

  lemma BilledOnce(s: Settings, v: Visit)
    ensures Bills(Trace(s, v)) == BillOf(s, v)
  {
    if IsAgent(s, v.request) {
      AgentBilledOnce(s, v);
    } else {
      KeyBilledOnce(s, v);
    }
  }

  /**
     Agents are billed by reports alone, exactly one per answered request that names a model; keys by recordings
     alone.
   */
  ghost predicate OnItsChannel(s: Settings, v: Visit, trace: seq<Effect>) {
    var bills := Bills(trace);
    && |bills| <= 1
    && (IsAgent(s, v.request) ==>
          forall i :: 0 <= i < |bills| ==> bills[i].Reported? && bills[i].wallet == v.request.wallet)
    && (IsAgentLLM(s, v) && IsForwarded(trace) && v.answers.response.Some? ==> |bills| == 1)
    && (!IsAgent(s, v.request) ==>
          forall i :: 0 <= i < |bills| ==>
              bills[i].Recorded? && bills[i].call.key == s.hash(ApiKeyOf(v.request.authorization)))
  }

  /** `trace` bills what the request is to be billed. */
  predicate BillsItsBill(s: Settings, v: Visit, trace: seq<Effect>) {
    Bills(trace) == if IsForwarded(trace) then BillIfForwarded(s, v) else []
  }

  lemma BillIsOnItsChannel(s: Settings, v: Visit, trace: seq<Effect>)
    requires BillsItsBill(s, v, trace)
    ensures OnItsChannel(s, v, trace)
  {
  }

  lemma OneChannel(s: Settings, v: Visit)
    ensures OnItsChannel(s, v, Trace(s, v))
  {
    BilledOnce(s, v);
    BillIsOnItsChannel(s, v, Trace(s, v));
  }

  // ----- one request: the backend's figures -------------------------------------------------------

  function UsageAnswered(s: Settings, v: Visit): Option<Parsing.Usage> {
    if v.answers.response.Some? then Parsing.UsageIn(s.codec, v.answers.response.value) else None
  }

  /** The backend's figures as they are recorded: the cached tokens taken out of the input. */
  function CountsOf(u: Parsing.Usage): Counts {
    Counts(u.prompt - u.cached, u.completion, u.cached)
  }

  /** The recording that says just what the backend said. */
  function FiguresRecorded(s: Settings, v: Visit, u: Parsing.Usage): Effect
    requires v.answers.response.Some?
  {
    Recorded(Call(s.hash(ApiKeyOf(v.request.authorization)), KeyModel(s, v), CountsOf(u)))
  }

  /** A keyed request that could be recorded: forwarded, answered for a known model, with an accumulator. */
  predicate IsRecordable(s: Settings, v: Visit, trace: seq<Effect>) {
    && !IsAgent(s, v.request) && IsForwarded(trace) && s.hasAccumulator
    && v.answers.response.Some? && KeyModel(s, v) != UNKNOWN
  }

  /**
     When the backend gives figures: a report has them without the cached tokens; a recording has them
     all, but there is one only if some prompt token was not cached or some token was generated.
   */
  ghost predicate BilledAsAnswered(s: Settings, v: Visit, trace: seq<Effect>) {
    UsageAnswered(s, v).Some? ==>
      && (IsAgentLLM(s, v) && IsForwarded(trace) ==> Bills(trace) == ReportAnswered(s, v))
      && (IsRecordable(s, v, trace) ==> Bills(trace) == RecordingAnswered(s, v))
  }

  function ReportAnswered(s: Settings, v: Visit): seq<Effect>
    requires UsageAnswered(s, v).Some? && IsAgentLLM(s, v)
  {
    ReportOf(s, v, CountsOf(UsageAnswered(s, v).value))
  }

  function RecordingAnswered(s: Settings, v: Visit): seq<Effect>
    requires UsageAnswered(s, v).Some?
  {
    var u := UsageAnswered(s, v).value;
    if u.prompt > u.cached || u.completion > 0 then [FiguresRecorded(s, v, u)] else []
  }

  lemma KeyBillFigures(s: Settings, a: Answers, model: string, u: Parsing.Usage)
    requires a.response.Some? && Parsing.UsageIn(s.codec, a.response.value) == Some(u)
    ensures KeyBill(s, a, model) == CountsOf(u)
  {
  }

  lemma AgentBillFigures(s: Settings, a: Answers, model: string, u: Parsing.Usage)
    requires a.response.Some? && Parsing.UsageIn(s.codec, a.response.value) == Some(u)
    ensures AgentBill(s, a, model) == CountsOf(u)
  {
  }

  lemma AgentFigures(s: Settings, v: Visit)
    requires UsageAnswered(s, v).Some? && IsAgentLLM(s, v)
    ensures BillIfForwarded(s, v) == ReportAnswered(s, v)
  {
    AgentBillFigures(s, v.answers, AgentModel(s, v), UsageAnswered(s, v).value);
  }

  lemma KeyFigures(s: Settings, v: Visit)
    requires UsageAnswered(s, v).Some? && !IsAgent(s, v.request) && s.hasAccumulator && KeyModel(s, v) != UNKNOWN
    ensures BillIfForwarded(s, v) == RecordingAnswered(s, v)
  {
    KeyBillFigures(s, v.answers, RequestModel(s, v), UsageAnswered(s, v).value);
  }

  lemma FiguresAreBilled(s: Settings, v: Visit, trace: seq<Effect>)
    requires BillsItsBill(s, v, trace)
    ensures BilledAsAnswered(s, v, trace)
  {
    if UsageAnswered(s, v).Some? {
      if IsAgentLLM(s, v) {
        AgentFigures(s, v);
      } else if IsRecordable(s, v, trace) {
        KeyFigures(s, v);
      }
    }
  }

  lemma BackendFiguresAreBilled(s: Settings, v: Visit)
    ensures BilledAsAnswered(s, v, Trace(s, v))
  {
    BilledOnce(s, v);
    FiguresAreBilled(s, v, Trace(s, v));
  }

  /**
     The backend's figures are billed to a key exactly when some prompt token was not cached or some
     token was generated: a prompt answered wholly from the cache, with nothing generated, is not
     billed at all. The input recorded is negative exactly when more tokens are said to be cached than
     prompted.
   */
  lemma FiguresBilledIff(s: Settings, v: Visit)
    requires IsRecordable(s, v, Trace(s, v)) && UsageAnswered(s, v).Some?
    ensures var u, bills := UsageAnswered(s, v).value, Bills(Trace(s, v));
      && (bills == [FiguresRecorded(s, v, u)] <==> u.prompt > u.cached || u.completion > 0)
      && (bills == [] <==> u.prompt <= u.cached && u.completion <= 0)
      && (bills != [] ==> (bills[0].call.delta.input < 0 <==> u.cached > u.prompt))
  {
    BackendFiguresAreBilled(s, v);
  }

  function UsageAnswer(prompt: int, completion: int, cached: int): Json.Object {
    map["model" := Json.Str("m"),
        "usage" := Json.Obj(map["prompt_tokens" := Json.Integer(prompt),
                                "completion_tokens" := Json.Integer(completion),
                                "prompt_tokens_details" := Json.Obj(map["cached_tokens" := Json.Integer(cached)])])]
  }

  lemma AnswerReads(c: Json.Codec, prompt: int, completion: int, cached: int)
    requires Json.Lawful(c) && (prompt != 0 || completion != 0)
    ensures var text := c.encode(Json.Obj(UsageAnswer(prompt, completion, cached)));
      && Parsing.UsageIn(c, text) == Some(Parsing.Usage(prompt, completion, cached))
      && Parsing.ModelIn(c, text) == "m"
  {
    var o := UsageAnswer(prompt, completion, cached);
    Parsing.PlainReadBack(c, o, "");
    assert c.encode(Json.Obj(o)) + "" == c.encode(Json.Obj(o));
    UsageAnswerSays(prompt, completion, cached);
  }

  lemma UsageAnswerSays(prompt: int, completion: int, cached: int)
    requires prompt != 0 || completion != 0
    ensures var o := UsageAnswer(prompt, completion, cached);
      Parsing.UsageOf(o) == Some(Parsing.Usage(prompt, completion, cached)) && Parsing.ModelOf(o) == Some("m")
  {
    var usage := Json.ObjOf(Json.Field(UsageAnswer(prompt, completion, cached), "usage"));
    assert Json.Pow10(0) == 1;
    assert Json.ToInt(Json.Field(usage, "prompt_tokens")) == prompt;
    assert Json.ToInt(Json.Field(usage, "completion_tokens")) == completion;
    assert Json.ToInt(Json.Field(Json.ObjOf(Json.Field(usage, "prompt_tokens_details")), "cached_tokens")) == cached;
  }

  /** A request with a key and no body, answered with `response`. */
  lemma AnsweredVisit(c: Json.Codec, hash: string -> string, response: string) returns (s: Settings, v: Visit)
    ensures s.codec == c && s.hash == hash && s.hasAccumulator && v.answers.response == Some(response)
    ensures !IsAgent(s, v.request) && IsForwarded(Trace(s, v))
    ensures RequestModel(s, v) == UNKNOWN && ApiKeyOf(v.request.authorization) == "key"
  {
    s := Settings(c, None, false, false, 0.0, [], "", 0, None, hash, true);
    v := Visit(Request("/", "/", "", "", "key"), Answers(Some(""), false, false, true, None, "", "", Some(response)));
    assert RequestModel(s, v) == UNKNOWN;
    assert ApiKeyOf("key") == "key";
    assert KeyFront(s, v.answers) == [KeyChecked(true), Forwarded(None)];
    KeyForwardedIff(s, v);
  }

  /** Five tokens prompted, all of them cached, none generated: nothing is recorded. */
  lemma CachedPromptIsUnbilled(c: Json.Codec, hash: string -> string) returns (s: Settings, v: Visit)
    requires Json.Lawful(c)
    ensures IsRecordable(s, v, Trace(s, v)) && UsageAnswered(s, v) == Some(Parsing.Usage(5, 0, 5))
        && Bills(Trace(s, v)) == []
  {
    AnswerReads(c, 5, 0, 5);
    s, v := AnsweredVisit(c, hash, c.encode(Json.Obj(UsageAnswer(5, 0, 5))));
    BackendFiguresAreBilled(s, v);
  }

  /** Three tokens prompted and ten said to be cached: the key is credited seven. */
  lemma OvercachedPromptIsCredited(c: Json.Codec, hash: string -> string) returns (s: Settings, v: Visit)
    requires Json.Lawful(c)
    ensures UsageAnswered(s, v) == Some(Parsing.Usage(3, 1, 10))
    ensures Bills(Trace(s, v)) == [Recorded(Call(hash("key"), "m", Counts(-7, 1, 10)))]
  {
    AnswerReads(c, 3, 1, 10);
    s, v := AnsweredVisit(c, hash, c.encode(Json.Obj(UsageAnswer(3, 1, 10))));
    BackendFiguresAreBilled(s, v);
  }

  // ----- one request: the gates -------------------------------------------------------------------

  predicate Pays(s: Settings, e: Effect) {
    e.BalanceRead? && e.balance.Some? && e.balance.value >= s.minBalance
  }

  lemma {:induction false} AgentGates(s: Settings, q: Request, a: Answers, i: nat)
    requires i < |AgentTrace(s, q, a)| && AgentTrace(s, q, a)[i].Forwarded?
    ensures var front := AgentFront(s, q, a);
      && i == |front| - 1 >= 1 && front[0] == SignatureChecked(true)
      && a.raw.Some?
      && (Rewriting.ModelIn(s.codec, a.raw.value, q.contentType) != UNKNOWN ==> i == 2 && Pays(s, front[1]))
  {
  }

  lemma KeyGates(s: Settings, q: Request, a: Answers, i: nat)
    requires i < |KeyTrace(s, q, a)| && KeyTrace(s, q, a)[i].Forwarded?
    ensures i == |KeyFront(s, a)| - 1 >= 1 && KeyFront(s, a)[0] == KeyChecked(true)
  {
  }

  /** A request reaches the backend at most once, at `i`, and only through its gates. */
  ghost predicate GatedAt(s: Settings, v: Visit, trace: seq<Effect>, i: nat)
    requires i < |trace|
  {
    && (forall j :: 0 <= j < |trace| && trace[j].Forwarded? ==> j == i)
    && i >= 1 && trace[0] == (if IsAgent(s, v.request) then SignatureChecked(true) else KeyChecked(true))
    && (IsAgentLLM(s, v) ==> i >= 2 && Pays(s, trace[1]))
  }

  ghost predicate Gated(s: Settings, v: Visit, trace: seq<Effect>) {
    forall i :: 0 <= i < |trace| && trace[i].Forwarded? ==> GatedAt(s, v, trace, i)
  }

  /**
     The gates come first: for an agent's request a good signature, and a sufficient balance if it names
     a model; for any other an accepted key.
   */
  lemma {:induction false} GatesComeFirst(s: Settings, v: Visit, i: nat)
    requires i < |Trace(s, v)| && Trace(s, v)[i].Forwarded?
    ensures GatedAt(s, v, Trace(s, v), i)
  {
    var t := Trace(s, v);
    if IsAgent(s, v.request) {
      AgentGates(s, v.request, v.answers, i);
      forall j | 0 <= j < |t| && t[j].Forwarded? ensures j == i {
        AgentGates(s, v.request, v.answers, j);
      }
    } else {
      assert t == KeyTrace(s, v.request, v.answers);
      KeyGates(s, v.request, v.answers, i);
      forall j | 0 <= j < |t| && t[j].Forwarded? ensures j == i {
        KeyGates(s, v.request, v.answers, j);
      }
    }
  }

  /** What every trace keeps. */
  lemma TraceLaws(s: Settings, v: Visit)
    ensures var t := Trace(s, v); OnItsChannel(s, v, t) && Gated(s, v, t) && BilledAsAnswered(s, v, t)
  {
    OneChannel(s, v);
    BackendFiguresAreBilled(s, v);
    var t := Trace(s, v);
    forall i | 0 <= i < |t| && t[i].Forwarded? ensures GatedAt(s, v, t, i) {
      GatesComeFirst(s, v, i);
    }
  }

  /** An agent's request is forwarded exactly when everything about it checks out. */
  lemma AgentForwardedIff(s: Settings, v: Visit)
    requires IsAgent(s, v.request)
    ensures IsForwarded(Trace(s, v)) <==> AgentChecksOut(s, v)
  {
    FrontThenBill(AgentFront(s, v.request, v.answers), AgentBillOf(s, v));
    AgentFrontEnds(s, v);
  }

  predicate AgentChecksOut(s: Settings, v: Visit) {
    && v.answers.raw.Some? && v.answers.freshTimestamp && v.answers.signed
    && (AgentModel(s, v) == UNKNOWN || Pays(s, BalanceRead(v.answers.balance)))
  }

  lemma AgentFrontEnds(s: Settings, v: Visit)
    ensures LetThrough(AgentFront(s, v.request, v.answers)) <==> AgentChecksOut(s, v)
  {
  }

  /** Nothing about the key, the balance or the body keeps the request from the backend. */
  predicate KeyChecksOut(s: Settings, v: Visit) {
    var a := v.answers;
    && a.keyAccepted
    && !(s.agentsEnabled && RequestModel(s, v) != "unknown" && a.balance.Some? && 0.0 <= a.balance.value < s.minBalance)
    && !Rewriting.IsNullToDefault(s.codec, a.captured, a.capturedType, s.defaultThink, s.defaultNumPredict)
  }

  lemma KeyFrontEnds(s: Settings, v: Visit)
    ensures LetThrough(KeyFront(s, v.answers)) <==> KeyChecksOut(s, v)
  {
    Rewriting.PanicsIff(s.codec, v.answers.captured, v.answers.capturedType, s.defaultThink, s.defaultNumPredict);
  }

  /** A request with a key: only a balance known to be too low stops it, and an unreachable portal does not. */
  lemma KeyForwardedIff(s: Settings, v: Visit)
    requires !IsAgent(s, v.request)
    ensures IsForwarded(Trace(s, v)) <==>
      !IsMetrics(s, v.request) && !IsBlocked(s, v.request.url) && ApiKeyOf(v.request.authorization) != ""
          && KeyChecksOut(s, v)
  {
    var t := Trace(s, v);
    if |t| == 1 && !t[0].KeyChecked? {
      assert !IsForwarded(t);
    } else {
      assert t == KeyTrace(s, v.request, v.answers);
      KeyTraceBills(s, v);
      KeyFrontEnds(s, v);
    }
  }

  // ----- one request: the body sent ---------------------------------------------------------------

  /** The body the backend gets: the new one, or what was captured of the client's. */
  function BodySent(v: Visit, e: Effect): string
    requires e.Forwarded?
  {
    if e.rewritten.Some? then e.rewritten.value else v.answers.captured
  }

  function TypeOf(s: Settings, v: Visit): string {
    if IsAgent(s, v.request) then v.request.contentType else v.answers.capturedType
  }

  /** A request whose body may be rewritten: not one an agent sends without a model. */
  predicate IsRewritable(s: Settings, v: Visit) {
    IsAgent(s, v.request) ==> IsAgentLLM(s, v)
  }

  lemma AgentForwards(s: Settings, v: Visit, i: nat)
    requires IsAgent(s, v.request) && i < |AgentTrace(s, v.request, v.answers)|
    requires AgentTrace(s, v.request, v.answers)[i].Forwarded?
    ensures var e := AgentTrace(s, v.request, v.answers)[i];
      if IsAgentLLM(s, v) then
        Rewriting.Forwards(BodySent(v, e)) == Rewriting.Sent(s.codec, v.answers.captured, v.request.contentType, "", 0)
      else e.rewritten == None
  {
    AgentGates(s, v.request, v.answers, i);
  }

  lemma KeyForwards(s: Settings, v: Visit, i: nat)
    requires i < |KeyTrace(s, v.request, v.answers)| && KeyTrace(s, v.request, v.answers)[i].Forwarded?
    ensures Rewriting.Forwards(BodySent(v, KeyTrace(s, v.request, v.answers)[i])) ==
      Rewriting.Sent(s.codec, v.answers.captured, v.answers.capturedType, s.defaultThink, s.defaultNumPredict)
  {
    KeyGates(s, v.request, v.answers, i);
  }

  /** What is forwarded is the rewriting of what was captured; only agents are spared the operator's defaults. */
  lemma ForwardedIsSent(s: Settings, v: Visit, i: nat)
    requires i < |Trace(s, v)| && Trace(s, v)[i].Forwarded?
    ensures !IsRewritable(s, v) ==> Trace(s, v)[i].rewritten == None
    ensures IsRewritable(s, v) ==> var agent := IsAgent(s, v.request);
      Rewriting.Forwards(BodySent(v, Trace(s, v)[i])) ==
      Rewriting.Sent(s.codec, v.answers.captured, TypeOf(s, v), if agent then "" else s.defaultThink,
                     if agent then 0 else s.defaultNumPredict)
  {
    if IsAgent(s, v.request) {
      AgentForwards(s, v, i);
    } else {
      assert Trace(s, v) == KeyTrace(s, v.request, v.answers);
      KeyForwards(s, v, i);
    }
  }

  /** `sent` is `was` as it came, or with the client's values kept and, if streaming, usage asked for. */
  ghost predicate KeepsBody(s: Settings, v: Visit, was: string, sent: string) {
    var c := s.codec;
    if !Rewriting.IsObjectBody(c, was) then sent == was
    else
      && Rewriting.IsObjectBody(c, sent)
      && var o, o' := c.decode(was).value.fields, c.decode(sent).value.fields;
         && Rewriting.KeepsClientValues(o, o')
         && (Rewriting.IsJsonType(TypeOf(s, v)) && Rewriting.IsStreaming(o) ==>
               "include_usage" in Json.ObjOf(Json.Field(o', "stream_options")))
  }

  /**
     Whatever is forwarded, for agents and keys alike, keeps the client's values if an object was
     captured, asks for usage figures if that is a streaming request, and is else the body as captured.
   */
  lemma ForwardedKeepsClientValues(s: Settings, v: Visit, i: nat)
    requires Json.Lawful(s.codec) && i < |Trace(s, v)| && Trace(s, v)[i].Forwarded? && IsRewritable(s, v)
    ensures KeepsBody(s, v, v.answers.captured, BodySent(v, Trace(s, v)[i]))
  {
    ForwardedIsSent(s, v, i);
    var c, was, agent := s.codec, v.answers.captured, IsAgent(s, v.request);
    var think, predict := if agent then "" else s.defaultThink, if agent then 0 else s.defaultNumPredict;
    if Rewriting.IsObjectBody(c, was) {
      Rewriting.RewritingKeepsClientValues(c, was, TypeOf(s, v), think, predict);
      if Rewriting.IsJsonType(TypeOf(s, v)) && Rewriting.IsStreaming(c.decode(was).value.fields) {
        Rewriting.StreamingAsksForUsage(c, was, TypeOf(s, v), think, predict);
      }
    } else {
      Rewriting.PanicsIff(c, was, TypeOf(s, v), think, predict);
    }
  }

  /** `captured` is what the body handler keeps of a body that comes in as `chunks`. */
  ghost predicate CapturedAs(l: Capture.Limits, chunks: seq<string>, captured: string) {
    captured <= Capture.Flatten(chunks) && |captured| == Capture.Kept(l, 0, chunks)
  }

  /** The request's body came in as `chunks`; an agent's has been read whole before, and is read again in one piece. */
  ghost predicate CameInAs(s: Settings, v: Visit, l: Capture.Limits, chunks: seq<string>) {
    && CapturedAs(l, chunks, v.answers.captured)
    && (IsAgent(s, v.request) ==> v.answers.raw.Some? && chunks == [v.answers.raw.value])
  }

  /** What an agent's request has captured is a beginning of the body its signature was checked on. */
  lemma CapturedOfSigned(s: Settings, v: Visit, l: Capture.Limits, chunks: seq<string>)
    requires IsAgent(s, v.request) && CameInAs(s, v, l, chunks)
    ensures v.answers.captured <= v.answers.raw.value
  {
    assert Capture.Flatten(chunks[1..]) == "" && chunks[0] + "" == chunks[0];
  }

  /** A body at most one byte over the buffer limit is forwarded whole, rewritten as above, however it came in. */
  lemma {:induction false} WholeBodyIsForwarded(s: Settings, v: Visit, i: nat, l: Capture.Limits, chunks: seq<string>,
        whole: string)
    requires Json.Lawful(s.codec) && i < |Trace(s, v)| && Trace(s, v)[i].Forwarded? && IsRewritable(s, v)
    requires CameInAs(s, v, l, chunks) && Capture.Fragments(chunks, whole) && |whole| <= l.0 + 1
    ensures KeepsBody(s, v, whole, BodySent(v, Trace(s, v)[i]))
  {
    CapturesWhole(l, chunks, whole, v.answers.captured);
    ForwardedKeepsClientValues(s, v, i);
  }

  lemma {:induction false} CapturesWhole(l: Capture.Limits, chunks: seq<string>, whole: string, captured: string)
    requires CapturedAs(l, chunks, captured) && Capture.Fragments(chunks, whole) && |whole| <= l.0 + 1
    ensures captured == whole
  {
    Capture.AlwaysWholeIff(l, whole);
  }

  /** For no longer body is that so: some way of coming in leaves only a beginning of it to rewrite and forward. */
  lemma {:induction false} CapturedWholeIff(l: Capture.Limits, whole: string)
    ensures (forall chunks, captured :: Capture.Fragments(chunks, whole) && CapturedAs(l, chunks, captured) ==>
        captured == whole)
      <==> |whole| <= l.0 + 1
  {
    Capture.AlwaysWholeIff(l, whole);
    if |whole| > l.0 + 1 {
      var chunks :| Capture.Fragments(chunks, whole) && Capture.Kept(l, 0, chunks) != |whole|;
      Capture.KeptBounds(l, 0, chunks);
      assert CapturedAs(l, chunks, whole[..Capture.Kept(l, 0, chunks)]);
    }
  }

  // ----- any number of requests -------------------------------------------------------------------

  datatype Entry = Entry(visit: nat, effect: Effect)

  function Of(log: seq<Entry>, id: nat): seq<Effect> {
    if log == [] then []
    else
      var most, last := log[..|log| - 1], log[|log| - 1];
      if last.visit == id then Of(most, id) + [last.effect] else Of(most, id)
  }

  function Effects(log: seq<Entry>): seq<Effect> {
    if log == [] then [] else Effects(log[..|log| - 1]) + [log[|log| - 1].effect]
  }

  function Traces(s: Settings, visits: seq<Visit>): seq<seq<Effect>> {
    seq(|visits|, id requires 0 <= id < |visits| => Trace(s, visits[id]))
  }

  /** Entry `i` is the next effect of its request. */
  predicate IsNextOf(traces: seq<seq<Effect>>, log: seq<Entry>, i: nat)
    requires i < |log|
  {
    var id := log[i].visit;
    id < |traces|
    && var done := |Of(log[..i], id)|; done < |traces[id]| && log[i].effect == traces[id][done]
  }

  /** The effects of the requests, interleaved at will. */
  predicate IsLog(traces: seq<seq<Effect>>, log: seq<Entry>) {
    forall i :: 0 <= i < |log| ==> IsNextOf(traces, log, i)
  }

  /** Every request has run to its end. */
  predicate IsComplete(traces: seq<seq<Effect>>, log: seq<Entry>) {
    forall id :: 0 <= id < |traces| ==> |Of(log, id)| == |traces[id]|
  }

  lemma PrefixIsLog(traces: seq<seq<Effect>>, log: seq<Entry>, n: nat)
    requires n <= |log| && IsLog(traces, log)
    ensures IsLog(traces, log[..n])
  {
    forall i | 0 <= i < n
      ensures IsNextOf(traces, log[..n], i)
    {
      assert IsNextOf(traces, log, i) && log[..n][..i] == log[..i];
    }
  }

  /** Each request sees its own effects in its own order, whatever the others do. */
  lemma {:induction false} EachInOrder(traces: seq<seq<Effect>>, log: seq<Entry>, id: nat)
    requires IsLog(traces, log) && id < |traces|
    ensures Of(log, id) <= traces[id]
  {
    if log != [] {
      PrefixIsLog(traces, log, |log| - 1);
      EachInOrder(traces, log[..|log| - 1], id);
      assert IsNextOf(traces, log, |log| - 1);
    }
  }

  lemma {:induction false} OwnEffectIsInLog(log: seq<Entry>, id: nat, k: nat)
    requires k < |Of(log, id)|
    ensures exists j :: 0 <= j < |log| && log[j] == Entry(id, Of(log, id)[k])
  {
    var most := log[..|log| - 1];
    if k < |Of(most, id)| {
      OwnEffectIsInLog(most, id, k);
      var j :| 0 <= j < |most| && most[j] == Entry(id, Of(most, id)[k]);
      assert log[j] == Entry(id, Of(log, id)[k]);
    } else {
      assert log[|log| - 1] == Entry(id, Of(log, id)[k]);
    }
  }

  ghost predicate Earlier(log: seq<Entry>, i: nat, e: Entry)
    requires i <= |log|
  {
    exists j :: 0 <= j < i && log[j] == e
  }

  /**
     In every run, whatever is forwarded has been let through before: an agent's request by its own
     signature check, and by its own balance if it names a model; any other by its own key check.
   */
  lemma {:induction false} NothingForwardedUnchecked(s: Settings, visits: seq<Visit>, log: seq<Entry>, i: nat)
    requires IsLog(Traces(s, visits), log) && i < |log| && log[i].effect.Forwarded?
    ensures log[i].visit < |visits|
    ensures var id, v := log[i].visit, visits[log[i].visit];
         && Earlier(log, i, Entry(id, if IsAgent(s, v.request) then SignatureChecked(true) else KeyChecked(true)))
         && (IsAgentLLM(s, v) ==> exists paid :: Pays(s, paid) && Earlier(log, i, Entry(id, paid)))
  {
    assert IsNextOf(Traces(s, visits), log, i);
    var id := log[i].visit;
    var v, before := visits[id], log[..i];
    PrefixIsLog(Traces(s, visits), log, i);
    EachInOrder(Traces(s, visits), before, id);
    GatesComeFirst(s, v, |Of(before, id)|);
    OwnEffectIsInLog(before, id, 0);
    if IsAgentLLM(s, v) {
      OwnEffectIsInLog(before, id, 1);
      assert Earlier(log, i, Entry(id, Of(before, id)[1])) && Pays(s, Of(before, id)[1]);
    }
  }

  // ----- the bills of a run -----------------------------------------------------------------------

  /** What the first `n` requests have each added on their own. */
  function ChargedEach(log: seq<Entry>, n: nat, m: Meter): int {
    if n == 0 then 0 else ChargedEach(log, n - 1, m) + Charged(m, Of(log, n - 1))
  }

  /** Whatever the interleaving, a meter shows the sum of what each request added on its own. */
  lemma {:induction false} InterleavingKeepsCharges(log: seq<Entry>, n: nat, m: Meter)
    requires forall i :: 0 <= i < |log| ==> log[i].visit < n
    ensures Charged(m, Effects(log)) == ChargedEach(log, n, m)
  {
    if log == [] {
      NothingCharged(n, m);
    } else {
      var most, last := log[..|log| - 1], log[|log| - 1];
      InterleavingKeepsCharges(most, n, m);
      OneMore(m, Effects(most), last.effect);
      EachGrows(log, n, m);
    }
  }

  lemma {:induction false} NothingCharged(n: nat, m: Meter)
    ensures ChargedEach([], n, m) == 0
  {
    if n > 0 {
      NothingCharged(n - 1, m);
    }
  }

  lemma OneMore(m: Meter, trace: seq<Effect>, e: Effect)
    ensures Charged(m, trace + [e]) == Charged(m, trace) + Adds(m, e)
  {
    assert (trace + [e])[..|trace|] == trace;
  }

  /** An entry adds to its own request's charges, once, and to no other's. */
  lemma {:induction false} EachGrows(log: seq<Entry>, n: nat, m: Meter)
    requires log != []
    ensures var last := log[|log| - 1];
      ChargedEach(log, n, m) == ChargedEach(log[..|log| - 1], n, m) + if last.visit < n then Adds(m, last.effect) else 0
  {
    if n > 0 {
      EachGrows(log, n - 1, m);
      OneMore(m, Of(log[..|log| - 1], n - 1), log[|log| - 1].effect);
    }
  }

  /** Only bills move a meter. */
  lemma {:induction false} ChargedByBills(m: Meter, trace: seq<Effect>)
    ensures Charged(m, trace) == Charged(m, Bills(trace))
  {
    if trace != [] {
      var most, last := trace[..|trace| - 1], trace[|trace| - 1];
      ChargedByBills(m, most);
      if IsBill(last) {
        assert Bills(trace)[..|Bills(trace)| - 1] == Bills(most);
      }
    }
  }

  function BillsOf(s: Settings, visits: seq<Visit>): seq<seq<Effect>> {
    seq(|visits|, id requires 0 <= id < |visits| => BillOf(s, visits[id]))
  }

  function SumOfBills(bills: seq<seq<Effect>>, n: nat, m: Meter): int
    requires n <= |bills|
  {
    if n == 0 then 0 else SumOfBills(bills, n - 1, m) + Charged(m, bills[n - 1])
  }

  /** Of the first `n`, only those whose request has run to its end. */
  function SumOfIssued(traces: seq<seq<Effect>>, bills: seq<seq<Effect>>, log: seq<Entry>, n: nat, m: Meter): int
    requires n <= |traces| && n <= |bills|
  {
    if n == 0 then 0
    else
      var before := SumOfIssued(traces, bills, log, n - 1, m);
      if |Of(log, n - 1)| == |traces[n - 1]| then before + Charged(m, bills[n - 1]) else before
  }

  /** The bills of the requests, added up. */
  function Owed(s: Settings, visits: seq<Visit>, m: Meter): int {
    SumOfBills(BillsOf(s, visits), |visits|, m)
  }

  /** The bills of those requests that have run to their end, added up. */
  function Issued(s: Settings, visits: seq<Visit>, log: seq<Entry>, m: Meter): int {
    SumOfIssued(Traces(s, visits), BillsOf(s, visits), log, |visits|, m)
  }

  lemma TraceChargesItsBill(s: Settings, v: Visit, m: Meter)
    ensures Charged(m, Trace(s, v)) == Charged(m, BillOf(s, v))
  {
    ChargedByBills(m, Trace(s, v));
    BilledOnce(s, v);
  }

  /** The bill is the last thing a request does. */
  lemma NoBillBeforeTheEnd(s: Settings, v: Visit, k: nat)
    requires k < |Trace(s, v)| - 1
    ensures !IsBill(Trace(s, v)[k])
  {
  }

  lemma {:induction false} UnfinishedChargesNothing(s: Settings, v: Visit, own: seq<Effect>, m: Meter)
    requires own <= Trace(s, v) && |own| < |Trace(s, v)|
    ensures Charged(m, own) == 0
  {
    forall k | 0 <= k < |own| ensures !IsBill(own[k]) {
      NoBillBeforeTheEnd(s, v, k);
    }
    NoBills(own);
    ChargedByBills(m, own);
  }

  lemma {:induction false} OwnCharges(s: Settings, v: Visit, own: seq<Effect>, m: Meter)
    requires own <= Trace(s, v)
    ensures Charged(m, own) == if |own| == |Trace(s, v)| then Charged(m, BillOf(s, v)) else 0
  {
    if |own| == |Trace(s, v)| {
      assert own == Trace(s, v);
      TraceChargesItsBill(s, v, m);
    } else {
      UnfinishedChargesNothing(s, v, own, m);
    }
  }

  lemma {:induction false} EachIsIssued(traces: seq<seq<Effect>>, bills: seq<seq<Effect>>, log: seq<Entry>,
        n: nat, m: Meter)
    requires n <= |traces| && n <= |bills|
    requires forall id :: 0 <= id < n ==>
      Charged(m, Of(log, id)) == if |Of(log, id)| == |traces[id]| then Charged(m, bills[id]) else 0
    ensures ChargedEach(log, n, m) == SumOfIssued(traces, bills, log, n, m)
  {
    if n > 0 {
      EachIsIssued(traces, bills, log, n - 1, m);
    }
  }

  lemma {:induction false} AllIssued(traces: seq<seq<Effect>>, bills: seq<seq<Effect>>, log: seq<Entry>,
        n: nat, m: Meter)
    requires n <= |traces| && n <= |bills| && forall id :: 0 <= id < n ==> |Of(log, id)| == |traces[id]|
    ensures SumOfIssued(traces, bills, log, n, m) == SumOfBills(bills, n, m)
  {
    if n > 0 {
      AllIssued(traces, bills, log, n - 1, m);
    }
  }

  /**
     At every moment of every interleaving, every meter - each cell of the accumulator, each wallet's
     charges at the portal - shows the sum of the bills of the requests that have run to their end.
   */
  lemma {:induction false} FinishedRequestsAreBilledOnce(s: Settings, visits: seq<Visit>, log: seq<Entry>, m: Meter)
    requires IsLog(Traces(s, visits), log)
    ensures Charged(m, Effects(log)) == Issued(s, visits, log, m)
  {
    forall i | 0 <= i < |log| ensures log[i].visit < |visits| {
      assert IsNextOf(Traces(s, visits), log, i);
    }
    InterleavingKeepsCharges(log, |visits|, m);
    var traces, bills := Traces(s, visits), BillsOf(s, visits);
    forall id | 0 <= id < |visits|
      ensures Charged(m, Of(log, id)) == if |Of(log, id)| == |traces[id]| then Charged(m, bills[id]) else 0
    {
      EachInOrder(traces, log, id);
      OwnCharges(s, visits[id], Of(log, id), m);
    }
    EachIsIssued(traces, bills, log, |visits|, m);
  }

  /** When all have, it is the sum of all the requests' bills. */
  lemma {:induction false} EveryRequestBilledOnce(s: Settings, visits: seq<Visit>, log: seq<Entry>, m: Meter)
    requires IsLog(Traces(s, visits), log) && IsComplete(Traces(s, visits), log)
    ensures Charged(m, Effects(log)) == Owed(s, visits, m)
  {
    FinishedRequestsAreBilledOnce(s, visits, log, m);
    AllIssued(Traces(s, visits), BillsOf(s, visits), log, |visits|, m);
  }

  // ----- through the pipeline ---------------------------------------------------------------------

  function Calls(trace: seq<Effect>): seq<Call> {
    if trace == [] then []
    else
      var most, last := trace[..|trace| - 1], trace[|trace| - 1];
      if last.Recorded? then Calls(most) + [last.call] else Calls(most)
  }

  lemma {:induction false} CallsAreCharges(trace: seq<Effect>, c: Cell)
    ensures RecordedCell(Calls(trace), c) == Charged(Accumulator(c), trace)
  {
    if trace != [] {
      var most, last := trace[..|trace| - 1], trace[|trace| - 1];
      CallsAreCharges(most, c);
      if last.Recorded? {
        assert Calls(trace)[..|Calls(trace)| - 1] == Calls(most);
      }
    }
  }

  /**
     End to end, at any moment of any interleaving of requests and of a pipeline run that has recorded
     their calls: the bills of the finished requests (and what was on disk before) are in the
     accumulator, in flight, in files, acknowledged, discarded or overwritten.
   */
  lemma {:induction false} IssuedIsAccounted(s: Settings, visits: seq<Visit>, log: seq<Entry>, run: Run, i: nat,
        c: Cell)
    requires IsLog(Traces(s, visits), log)
    requires i < |run.states| && run.states[i].ledger.recorded == Calls(Effects(log))
    ensures Issued(s, visits, log, Accumulator(c)) + DirCell(run.states[0].dir, c)
        == Accounted(run.states[i], c)
  {
    FinishedRequestsAreBilledOnce(s, visits, log, Accumulator(c));
    CallsAreCharges(Effects(log), c);
    Conservation(run.cfg, run.states, run.events, i, c);
  }

  /**
     A streamed answer is billed, on either channel, by the first chunk with figures, and otherwise by
     the counts `input` and `output`.
   */
  lemma {:induction false} StreamedAnswerIsBilled(s: Settings, lines: seq<Parsing.StreamLine>, input: int, output: int)
    requires Json.Lawful(s.codec) && Parsing.WellFormed(lines)
    ensures Bill(s, Parsing.Body(s.codec, lines), input, output)
         == match Parsing.UsageAmong(Parsing.Objects(lines))
            case Some(u) => CountsOf(u)
            case None => Counts(input, output, 0)
  {
    Parsing.StreamUsageReadBack(s.codec, lines);
  }

  /**
     The bill of a streamed answer is what its last figures say exactly when its first figures say the
     same, as they do if figures come once. Otherwise all that came after the first goes unbilled.
   */
  lemma {:induction false} StreamBilledAsLastIff(s: Settings, lines: seq<Parsing.StreamLine>, input: int, output: int)
    requires Json.Lawful(s.codec) && Parsing.WellFormed(lines)
    requires Parsing.LastUsageAmong(Parsing.Objects(lines)).Some?
    ensures var objects, b := Parsing.Objects(lines), Bill(s, Parsing.Body(s.codec, lines), input, output);
      && Parsing.UsageAmong(objects).Some?
      && var first, last := Parsing.UsageAmong(objects).value, Parsing.LastUsageAmong(objects).value;
         && (b == CountsOf(last) <==> first == last)
         && (Parsing.FiguresComeOnce(objects) ==> b == CountsOf(last))
         && last.prompt - (b.input + b.cached) == last.prompt - first.prompt
         && last.completion - b.output == last.completion - first.completion
  {
    var objects := Parsing.Objects(lines);
    StreamedAnswerIsBilled(s, lines, input, output);
    Parsing.UsageAmongIsFirst(objects);
    var j := Parsing.LastUsageAmongIsLast(objects);
    if Parsing.FiguresComeOnce(objects) {
      Parsing.OnceIsFirstAndLast(objects);
    }
  }

  function ChunkLine(o: Json.Object): Parsing.StreamLine {
    Parsing.StreamLine(Parsing.Chunk(" ", Json.Obj(o)), false)
  }

  /** A stream of two chunks and the end marker. */
  function TwoChunks(first: Json.Object, second: Json.Object): seq<Parsing.StreamLine> {
    [ChunkLine(first), ChunkLine(second), Parsing.StreamLine(Parsing.Done(" "), false)]
  }

  lemma TwoChunksSay(first: Json.Object, second: Json.Object)
    ensures Parsing.WellFormed(TwoChunks(first, second)) && Parsing.Objects(TwoChunks(first, second)) == [first, second]
  {
    var lines := TwoChunks(first, second);
    assert lines[..2] == [ChunkLine(first), ChunkLine(second)] && lines[..2][..1] == [ChunkLine(first)];
    assert Parsing.Objects([ChunkLine(first)]) == Parsing.Objects([]) + [first] == [first];
    assert Parsing.Objects(lines[..2]) == [first] + [second];
    assert !lines[0].content.Other?;
  }

  lemma TwoFigures(first: Json.Object, second: Json.Object)
    requires Parsing.UsageOf(first).Some? && Parsing.UsageOf(second).Some? && Parsing.ModelOf(first).Some?
    ensures Parsing.UsageAmong([first, second]) == Parsing.UsageOf(first)
    ensures Parsing.LastUsageAmong([first, second]) == Parsing.UsageOf(second)
    ensures Parsing.ModelAmong([first, second]) == Parsing.ModelOf(first)
  {
    assert [first, second][..1] == [first] && [first][..0] == [];
    assert Parsing.UsageAmong([]) == None && Parsing.ModelAmong([]) == None;
    assert Parsing.UsageAmong([first]) == Parsing.UsageOf(first)
        && Parsing.ModelAmong([first]) == Parsing.ModelOf(first);
  }

  /** Figures of five and one, then five and nine: eight tokens generated after the first go unbilled. */
  lemma EarlyFiguresAreBilled(c: Json.Codec, hash: string -> string)
    returns (s: Settings, v: Visit, lines: seq<Parsing.StreamLine>)
    requires Json.Lawful(c)
    ensures Parsing.WellFormed(lines) && v.answers.response == Some(Parsing.Body(c, lines))
    ensures Parsing.LastUsageAmong(Parsing.Objects(lines)) == Some(Parsing.Usage(5, 9, 0))
    ensures Bills(Trace(s, v)) == [Recorded(Call(hash("key"), "m", Counts(5, 1, 0)))]
  {
    var first, second := UsageAnswer(5, 1, 0), UsageAnswer(5, 9, 0);
    lines := TwoChunks(first, second);
    TwoChunksSay(first, second);
    UsageAnswerSays(5, 1, 0);
    UsageAnswerSays(5, 9, 0);
    TwoFigures(first, second);
    Parsing.StreamUsageReadBack(c, lines);
    Parsing.StreamModelReadBack(c, lines);
    s, v := AnsweredVisit(c, hash, Parsing.Body(c, lines));
    BackendFiguresAreBilled(s, v);
  }

  /** The text counted for a streamed answer is all the text in it, when there is any. */
  lemma {:induction false} StreamedTextIsCounted(s: Settings, lines: seq<Parsing.StreamLine>)
    requires Json.Lawful(s.codec) && Parsing.WellFormed(lines)
    requires Parsing.AllText(Parsing.Objects(lines)) != ""
    ensures ReplyText(s, Parsing.Body(s.codec, lines)) == Parsing.AllText(Parsing.Objects(lines))
  {
    Parsing.StreamContentReadBack(s.codec, lines);
  }
}
