/**
 The two HTTP handlers (ServeHTTP, serveX402), step by step. Each produces the trace `RequestFlow`
 gives, and so keeps what `RequestBilling` proves of traces.
 */
module RequestHandlers {
  import opened Wrappers
  import opened Text
  import Rewriting = RequestRewriting
  import Parsing = ResponseParsing
  import opened TokenMeter
  import opened UsagePipeline
  import opened RequestFlow
  import opened RequestBilling

  /**
     Whatever the world answers: at most one bill, to whom and on the channel the request belongs to;
     nothing forwarded before its checks; the backend's own figures billed when it gives some.
   */
  method ServeHTTP(s: Settings, q: Request, a: Answers) returns (log: seq<Effect>)
    ensures log == Trace(s, Visit(q, a))
    ensures OnItsChannel(s, Visit(q, a), log) && Gated(s, Visit(q, a), log) && BilledAsAnswered(s, Visit(q, a), log)
  {
    TraceLaws(s, Visit(q, a));
    if s.metricsPath.Some? && q.path == s.metricsPath.value {
      return [MetricsServed(s.hasCollector)];
    }
    if s.agentsEnabled && q.wallet != "" {
      log := ServeX402(s, q, a);
      return;
    }
    for i := 0 to |s.blockedURLs|
      invariant forall j :: 0 <= j < i ==> !Contains(q.url, s.blockedURLs[j])
    {
      if Contains(q.url, s.blockedURLs[i]) {
        return [Rejected(403)];
      }
    }
    if q.authorization == "" {
      return [Rejected(401)];
    }
    var apiKey := ApiKeyOf(q.authorization);
    if apiKey == "" {
      return [Rejected(401)];
    }
    log := [KeyChecked(a.keyAccepted)];
    if !a.keyAccepted {
      return log + [Rejected(401)];
    }
    log := ServeKey(s, q, a, apiKey);
  }

  /** The rest of `ServeHTTP`, once the key is accepted. */
  method ServeKey(s: Settings, q: Request, a: Answers, apiKey: string) returns (log: seq<Effect>)
    requires apiKey == ApiKeyOf(q.authorization) && a.keyAccepted
    ensures log == KeyTrace(s, q, a)
  {
    log := [KeyChecked(true)];
    var requestBody, contentType := a.captured, a.capturedType;
    var modelName := Rewriting.ModelIn(s.codec, requestBody, contentType);
    if s.agentsEnabled && modelName != UNKNOWN {
      log := log + [BalanceRead(a.balance)];
      if a.balance.Some? && a.balance.value >= 0.0 && a.balance.value < s.minBalance {
        return log + [Challenged(a.balance.value)];
      }
    }
    var outcome := Rewrite(s, a);
    if outcome.Panics? {
      return log + [Panicked];
    }
    var forwarded := outcome.body;
    log := log + [Forwarded(if forwarded != requestBody then Some(forwarded) else None)];
    assert log == KeyFront(s, a);
    var settlement := SettleKey(s, q, a, apiKey, modelName);
    log := log + settlement;
  }

  method Rewrite(s: Settings, a: Answers) returns (outcome: Rewriting.Outcome)
    ensures outcome == Rewriting.Sent(s.codec, a.captured, a.capturedType, s.defaultThink, s.defaultNumPredict)
  {
    var forwarded := a.captured;
    if s.defaultThink != "" || s.defaultNumPredict != 0 {
      outcome := Rewriting.InjectRequestDefaults(s.codec, forwarded, a.capturedType, s.defaultThink,
        s.defaultNumPredict);
      if outcome.Panics? {
        return;
      }
      forwarded := outcome.body;
    }
    forwarded := Rewriting.InjectStreamUsageOption(s.codec, forwarded, a.capturedType);
    outcome := Rewriting.Forwards(forwarded);
  }

  method CountPrompt(s: Settings, requestBody: string, model: string) returns (tokens: int)
    ensures tokens == Counted(s, PromptText(s, requestBody), model)
  {
    var inputContent := Rewriting.ExtractRequestMessageContent(s.codec, requestBody);
    if inputContent == "" {
      inputContent := requestBody;
    }
    tokens := Counted(s, inputContent, model);
  }

  method ReplyContent(s: Settings, responseBody: string) returns (content: string)
    ensures content == ReplyText(s, responseBody)
  {
    content := Parsing.ExtractResponseContent(s.codec, responseBody);
    if content == "" {
      content := responseBody;
    }
  }

  /** Replaces the counts by the backend's, if there are any. */
  method PreferBackend(s: Settings, responseBody: string, input: int, output: int) returns (counts: Counts)
    ensures counts == Bill(s, responseBody, input, output)
  {
    counts := Counts(input, output, 0);
    var usage := Parsing.ExtractUsageFromResponse(s.codec, responseBody);
    if usage.Some? {
      counts := Counts(usage.value.prompt - usage.value.cached, usage.value.completion, usage.value.cached);
    }
  }

  /** From the response to the accumulator. */
  method SettleKey(s: Settings, q: Request, a: Answers, apiKey: string, requestModel: string) returns (log: seq<Effect>)
    requires apiKey == ApiKeyOf(q.authorization)
    ensures log == KeySettlement(s, q, a, requestModel)
  {
    log := [];
    var inputTokens := CountPrompt(s, a.captured, requestModel);
    if a.response.None? {
      return;
    }
    var responseBody, modelName := a.response.value, requestModel;
    if modelName == UNKNOWN {
      modelName := Parsing.DetectModelFromResponseBody(s.codec, responseBody);
    }
    assert modelName == BilledModel(s, requestModel, responseBody);
    var content := ReplyContent(s, responseBody);
    var counts := PreferBackend(s, responseBody, inputTokens, Counted(s, content, modelName));
    assert counts == KeyBill(s, a, requestModel);
    if modelName != UNKNOWN {
      if s.hasAccumulator && (counts.input > 0 || counts.output > 0) {
        log := [Recorded(Call(s.hash(apiKey), modelName, counts))];
      }
    }
  }

  /** The same of an agent's request, which is all this is called for. */
  method ServeX402(s: Settings, q: Request, a: Answers) returns (log: seq<Effect>)
    requires IsAgent(s, q)
    ensures log == Trace(s, Visit(q, a))
    ensures OnItsChannel(s, Visit(q, a), log) && Gated(s, Visit(q, a), log) && BilledAsAnswered(s, Visit(q, a), log)
  {
    TraceLaws(s, Visit(q, a));
    if a.raw.None? {
      return [Rejected(400)];
    }
    if !a.freshTimestamp {
      return [Rejected(401)];
    }
    log := [SignatureChecked(a.signed)];
    if !a.signed {
      return log + [Rejected(401)];
    }
    var model := Rewriting.ModelIn(s.codec, a.raw.value, q.contentType);
    if model == UNKNOWN {
      return log + [Forwarded(None)];
    }
    log := log + [BalanceRead(a.balance)];
    if a.balance.None? {
      return log + [Rejected(503)];
    }
    if a.balance.value < s.minBalance {
      return log + [Challenged(a.balance.value)];
    }
    var forwarded := Rewriting.InjectStreamUsageOption(s.codec, a.captured, q.contentType);
    log := log + [Forwarded(if forwarded != a.captured then Some(forwarded) else None)];
    assert log == AgentFront(s, q, a);
    var settlement := SettleAgent(s, q, a, model);
    log := log + settlement;
  }

  /** From the response to the report; the model is known here. */
  method SettleAgent(s: Settings, q: Request, a: Answers, model: string) returns (log: seq<Effect>)
    ensures log == AgentSettlement(s, q, a, model)
  {
    var inputTokens := CountPrompt(s, a.captured, model);
    if a.response.None? {
      return [];
    }
    var content := ReplyContent(s, a.response.value);
    var counts := PreferBackend(s, a.response.value, inputTokens, CountedRaw(s, content, model));
    assert counts == AgentBill(s, a, model);
    log := [Reported(q.wallet, model, counts.input, counts.output)];
  }
}
