/**
 What one HTTP request makes the middleware do, and who is billed for it (ServeHTTP, serveX402).

 A request becomes a trace of effects, given what the world answers on the way (`Answers`): the body
 that could be read, the signature and key checks, the portal's balance, the backend's response.
 A run is any interleaving of the traces of any number of requests.
 */
module RequestFlow {
  import opened Wrappers
  import opened Text
  import opened Json
  import Rewriting = RequestRewriting
  import Parsing = ResponseParsing
  import opened TokenMeter
  import opened UsagePipeline

  const UNKNOWN := "unknown"

  datatype Settings = Settings(
    codec: Codec,
    metricsPath: Option<string>,       // when the metrics endpoint is enabled
    hasCollector: bool,
    agentsEnabled: bool,               // x402 enabled, and a portal client to go with it
    minBalance: real,
    blockedURLs: seq<string>,
    defaultThink: string,
    defaultNumPredict: int,
    counter: Option<(string, string) -> int>,   // CountTokensWithModel, by content and model
    hash: string -> string,            // hex SHA-256
    hasAccumulator: bool)

  datatype Request = Request(path: string, url: string, contentType: string, wallet: string, authorization: string)

  datatype Answers = Answers(
    raw: Option<string>,               // the whole body, unless reading it fails
    freshTimestamp: bool,
    signed: bool,                      // the signature check: true without an error
    keyAccepted: bool,                 // the key validation: true without an error
    balance: Option<real>,             // the portal's answer, if any
    captured: string,                  // what the body handler captured, and the type it made out
    capturedType: string,
    response: Option<string>)          // the backend's captured response, unless it fails

  datatype Visit = Visit(request: Request, answers: Answers)

  datatype Effect =
    | MetricsServed(available: bool)
    | Rejected(status: nat)
    | SignatureChecked(ok: bool)
    | KeyChecked(ok: bool)
    | BalanceRead(balance: Option<real>)
    | Challenged(shown: real)          // a 402 response
    | Forwarded(rewritten: Option<string>)   // to the backend, with a new body or as it came
    | Panicked
    | Recorded(call: Call)             // in the token accumulator
    | Reported(wallet: string, model: string, input: int, output: int)   // to the portal

  // ----- what is counted --------------------------------------------------------------------------

  function ApiKeyOf(authorization: string): string {
    if HasPrefix(authorization, "Basic ") then authorization[6..]
    else if HasPrefix(authorization, "Bearer ") then authorization[7..]
    else authorization
  }

  /** `ValidateTokenCount`: a negative count is zero, one beyond the length is half the length. */
  function Plausible(tokens: int, length: nat): nat {
    if tokens < 0 then 0 else if tokens > length then length / 2 else tokens
  }

  function Counted(s: Settings, content: string, model: string): nat {
    if content == "" || s.counter.None? then 0 else Plausible(s.counter.value(content, model), |content|)
  }

  /** The agent path uses the counter without the sanity check. */
  function CountedRaw(s: Settings, content: string, model: string): int {
    if s.counter.None? then 0 else s.counter.value(content, model)
  }

  function PromptText(s: Settings, body: string): string {
    var messages := Rewriting.MessagesIn(s.codec, body);
    if messages == "" then body else messages
  }

  function ReplyText(s: Settings, response: string): string {
    var content := Parsing.ContentIn(s.codec, response);
    if content == "" then response else content
  }

  /** The backend's own figures when it gives any; cached tokens are billed apart from the input. */
  function Bill(s: Settings, response: string, input: int, output: int): Counts {
    match Parsing.UsageIn(s.codec, response)
    case Some(u) => Counts(u.prompt - u.cached, u.completion, u.cached)
    case None => Counts(input, output, 0)
  }

  predicate IsBlocked(s: Settings, url: string) {
    exists i :: 0 <= i < |s.blockedURLs| && Contains(url, s.blockedURLs[i])
  }

  predicate IsMetrics(s: Settings, q: Request) {
    s.metricsPath == Some(q.path)
  }

  predicate IsAgent(s: Settings, q: Request) {
    !IsMetrics(s, q) && s.agentsEnabled && q.wallet != ""
  }

  /** Nothing in `body` calls for a new one. */
  function Replacement(body: string, forwarded: string): Option<string> {
    if forwarded == body then None else Some(forwarded)
  }

  // ----- traces -----------------------------------------------------------------------------------

  predicate IsBill(e: Effect) {
    e.Recorded? || e.Reported?
  }

  /** Nothing is billed here, and reaching the backend ends it. */
  predicate IsFront(front: seq<Effect>) {
    && front != []
    && (forall i :: 0 <= i < |front| ==> !IsBill(front[i]))
    && (forall i :: 0 <= i < |front| - 1 ==> !front[i].Forwarded?)
  }

  predicate LetThrough(front: seq<Effect>) {
    front != [] && front[|front| - 1].Forwarded?
  }

  function Trace(s: Settings, v: Visit): seq<Effect> {
    if IsMetrics(s, v.request) then [MetricsServed(s.hasCollector)]
    else if IsAgent(s, v.request) then AgentTrace(s, v.request, v.answers)
    else if IsBlocked(s, v.request.url) then [Rejected(403)]
    else if ApiKeyOf(v.request.authorization) == "" then [Rejected(401)]
    else KeyTrace(s, v.request, v.answers)
  }

  predicate TooPoor(s: Settings, model: string, balance: Option<real>) {
    s.agentsEnabled && model != UNKNOWN && balance.Some? && 0.0 <= balance.value < s.minBalance
  }

  /** A request with an API key, up to the backend. An unreachable portal does not stop it. */
  function KeyFront(s: Settings, a: Answers): (front: seq<Effect>)
    ensures IsFront(front)
  {
    var model := Rewriting.ModelIn(s.codec, a.captured, a.capturedType);
    if !a.keyAccepted then [KeyChecked(false), Rejected(401)]
    else if TooPoor(s, model, a.balance) then [KeyChecked(true), BalanceRead(a.balance), Challenged(a.balance.value)]
    else
      var end := match Rewriting.Sent(s.codec, a.captured, a.capturedType, s.defaultThink, s.defaultNumPredict)
        case Panics => Panicked
        case Forwards(sent) => Forwarded(Replacement(a.captured, sent));
      if s.agentsEnabled && model != UNKNOWN then [KeyChecked(true), BalanceRead(a.balance), end]
      else [KeyChecked(true), end]
  }

  function KeyTrace(s: Settings, q: Request, a: Answers): seq<Effect> {
    var front := KeyFront(s, a);
    if LetThrough(front) then front + KeySettlement(s, q, a, Rewriting.ModelIn(s.codec, a.captured, a.capturedType))
    else front
  }

  function BilledModel(s: Settings, model: string, response: string): string {
    if model == UNKNOWN then Parsing.ModelIn(s.codec, response) else model
  }

  function KeySettlement(s: Settings, q: Request, a: Answers, model: string): (bill: seq<Effect>)
    ensures |bill| <= 1 && forall i :: 0 <= i < |bill| ==> bill[i].Recorded?
  {
    if a.response.None? then []
    else
      var billed := BilledModel(s, model, a.response.value);
      var counts := KeyBill(s, a, model);
      if billed != UNKNOWN && s.hasAccumulator && (counts.input > 0 || counts.output > 0)
      then [Recorded(Call(s.hash(ApiKeyOf(q.authorization)), billed, counts))]
      else []
  }

  function KeyBill(s: Settings, a: Answers, model: string): Counts
    requires a.response.Some?
  {
    var response := a.response.value;
    Bill(s, response, Counted(s, PromptText(s, a.captured), model),
         Counted(s, ReplyText(s, response), BilledModel(s, model, response)))
  }

  /** A request signed by an agent's wallet, up to the backend. Without a portal answer it goes no further. */
  function AgentFront(s: Settings, q: Request, a: Answers): (front: seq<Effect>)
    ensures IsFront(front)
  {
    if a.raw.None? then [Rejected(400)]
    else if !a.freshTimestamp then [Rejected(401)]
    else if !a.signed then [SignatureChecked(false), Rejected(401)]
    else if Rewriting.ModelIn(s.codec, a.raw.value, q.contentType) == UNKNOWN then
      [SignatureChecked(true), Forwarded(None)]
    else if a.balance.None? then [SignatureChecked(true), BalanceRead(None), Rejected(503)]
    else if a.balance.value < s.minBalance then
      [SignatureChecked(true), BalanceRead(a.balance), Challenged(a.balance.value)]
    else
      var sent := Rewriting.StreamUsageInjected(s.codec, a.captured, q.contentType);
      [SignatureChecked(true), BalanceRead(a.balance), Forwarded(Replacement(a.captured, sent))]
  }

  /** Requests that name no model are passed on unbilled. */
  function AgentTrace(s: Settings, q: Request, a: Answers): seq<Effect> {
    var front := AgentFront(s, q, a);
    if a.raw.Some? && LetThrough(front) && Rewriting.ModelIn(s.codec, a.raw.value, q.contentType) != UNKNOWN
    then front + AgentSettlement(s, q, a, Rewriting.ModelIn(s.codec, a.raw.value, q.contentType))
    else front
  }

  function AgentSettlement(s: Settings, q: Request, a: Answers, model: string): (bill: seq<Effect>)
    ensures |bill| <= 1 && forall i :: 0 <= i < |bill| ==> bill[i].Reported?
  {
    if a.response.None? then []
    else
      var counts := AgentBill(s, a, model);
      [Reported(q.wallet, model, counts.input, counts.output)]
  }

  function AgentBill(s: Settings, a: Answers, model: string): Counts
    requires a.response.Some?
  {
    Bill(s, a.response.value, Counted(s, PromptText(s, a.captured), model),
         CountedRaw(s, ReplyText(s, a.response.value), model))
  }
}
