/**
 The usage pipeline as a step system: request goroutines record at any moment, while one reporter
 flushes, submits with bounded retry, persists failures and later re-submits or discards them
 (token_meter.go, token_reporter.go).

 Environment: one reporter owns the directory, file writes and removals succeed, the clock never
 goes back. "Acknowledged" means answered with a 2xx status. The ledger is bookkeeping: it records
 what happened and no step reads it.
 */
module UsagePipeline {
  import opened MapSum
  import opened TokenMeter
  import opened ReportRecords

  const DAY := 24 * 3600 * SECOND

  datatype Config = Config(maxRetries: nat, retryBackoff: nat, urlParses: bool)

  /** `failed_report_<unix seconds>.json`. */
  datatype FileName = FailedReportFile(unixSeconds: int)

  datatype FailedReport = FailedReport(timestamp: int, records: seq<Record>, retries: nat)

  datatype Source = FromFlush | FromFile(name: FileName)

  /** `attempt` failed POSTs have been made by this submission, `posts` by the batch so far. */
  datatype Phase = Idle | Submitting(source: Source, records: seq<Record>, attempt: nat, posts: nat)

  datatype Call = Call(key: string, model: string, delta: Counts)
  datatype Sent = Sent(records: seq<Record>, posts: nat)
  datatype Dropped = Dropped(report: FailedReport, at: int)

  datatype Ledger = Ledger(
    recorded: seq<Call>,
    acknowledged: seq<Sent>,
    discarded: seq<Dropped>,
    overwritten: seq<FailedReport>,
    postsOf: map<FileName, nat>)

  datatype State = State(now: int, acc: Usage, phase: Phase, dir: map<FileName, FailedReport>, ledger: Ledger)

  datatype Event =
    | Record(call: Call)               // a request goroutine, under the accumulator's lock
    | Pass(time: nat)
    | Flush(records: seq<ReportRecords.Record>)
    | Open(name: FileName)             // read one failed report: discard it or start re-submitting it
    | Retry(latency: nat)              // a POST failed, there are attempts left: sleep and go again
    | Acknowledge(latency: nat)        // a POST was answered 2xx
    | GiveUp(latency: nat, gap: nat)   // the submission failed: persist, or count a retry in the file

  predicate Expired(cfg: Config, r: FailedReport, now: int) {
    now - r.timestamp > DAY || r.retries >= cfg.maxRetries
  }

  ghost predicate Enabled(cfg: Config, s: State, e: Event) {
    match e
    case Record(_) => true
    case Pass(_) => true
    case Flush(records) => s.phase.Idle? && s.acc != map[] && RecordsOf(s.acc, records)
    case Open(name) => s.phase.Idle? && name in s.dir
    case Retry(_) => s.phase.Submitting? && cfg.urlParses && s.phase.attempt + 1 < cfg.maxRetries
    case Acknowledge(_) => s.phase.Submitting? && cfg.urlParses
    case GiveUp(_, _) =>
      && s.phase.Submitting?
      && (cfg.urlParses ==> s.phase.attempt + 1 >= cfg.maxRetries)
      && (s.phase.source.FromFile? ==> s.phase.source.name in s.dir)
  }

  function Next(cfg: Config, s: State, e: Event): State
    requires Enabled(cfg, s, e)
  {
    match e
    case Record(c) =>
      s.(acc := Recorded(s.acc, c.key, c.model, c.delta, s.now),
         ledger := s.ledger.(recorded := s.ledger.recorded + [c]))
    case Pass(time) => s.(now := s.now + time)
    case Flush(records) => s.(acc := map[], phase := Submitting(FromFlush, records, 0, 0))
    case Open(name) =>
      var r := s.dir[name];
      if Expired(cfg, r, s.now) then
        s.(dir := s.dir - {name},
           ledger := s.ledger.(discarded := s.ledger.discarded + [Dropped(r, s.now)],
             postsOf := s.ledger.postsOf - {name}))
      else
        var posts := if name in s.ledger.postsOf then s.ledger.postsOf[name] else 0;
        s.(phase := Submitting(FromFile(name), r.records, 0, posts))
    case Retry(latency) =>
      s.(now := s.now + latency + cfg.retryBackoff * (s.phase.attempt + 1),
         phase := s.phase.(attempt := s.phase.attempt + 1, posts := s.phase.posts + 1))
    case Acknowledge(latency) =>
      var l := s.ledger.(acknowledged := s.ledger.acknowledged + [Sent(s.phase.records, s.phase.posts + 1)]);
      if s.phase.source.FromFlush? then s.(now := s.now + latency, phase := Idle, ledger := l)
      else
        var name := s.phase.source.name;
        s.(now := s.now + latency, phase := Idle, dir := s.dir - {name}, ledger := l.(postsOf := l.postsOf - {name}))
    case GiveUp(latency, gap) =>
      var posts := s.phase.posts + if cfg.urlParses then 1 else 0;
      if s.phase.source.FromFile? then
        var name := s.phase.source.name;
        var r := s.dir[name];
        s.(now := s.now + latency + gap, phase := Idle,
           dir := s.dir[name := r.(retries := r.retries + 1)],
           ledger := s.ledger.(postsOf := s.ledger.postsOf[name := posts]))
      else
        var stamp := s.now + latency;
        var name := FailedReportFile(UnixSeconds(stamp + gap));
        var lost := if name in s.dir then [s.dir[name]] else [];
        s.(now := stamp + gap, phase := Idle,
           dir := s.dir[name := FailedReport(stamp, s.phase.records, 0)],
           ledger := s.ledger.(overwritten := s.ledger.overwritten + lost, postsOf := s.ledger.postsOf[name := posts]))
  }

  /** Posts a batch may have seen by the time its file says `retries`. */
  function Budget(cfg: Config, retries: nat): nat {
    if retries == 0 then cfg.maxRetries else Budget(cfg, retries - 1) + cfg.maxRetries
  }

  /** Reports already on disk at start-up, as an earlier reporter with the same settings left them. */
  ghost predicate GoodFiles(cfg: Config, now: int, dir: map<FileName, FailedReport>, postsOf: map<FileName, nat>) {
    && postsOf.Keys == dir.Keys
    && forall name :: name in dir ==> GoodFile(cfg, now, name, dir[name], postsOf[name])
  }

  ghost predicate GoodFile(cfg: Config, now: int, name: FileName, r: FailedReport, posts: nat) {
    && name.unixSeconds * SECOND <= now && r.records != []
    && r.retries <= cfg.maxRetries && posts <= Budget(cfg, r.retries)
  }

  ghost predicate Initial(cfg: Config, s: State) {
    && s.acc == map[] && s.phase == Idle
    && s.ledger.recorded == [] && s.ledger.acknowledged == [] && s.ledger.discarded == [] && s.ledger.overwritten == []
    && GoodFiles(cfg, s.now, s.dir, s.ledger.postsOf)
  }

  ghost predicate IsRun(cfg: Config, states: seq<State>, events: seq<Event>) {
    && cfg.maxRetries >= 1
    && |states| == |events| + 1
    && Initial(cfg, states[0])
    && forall i :: 0 <= i < |events| ==> Follows(cfg, states[i], events[i], states[i + 1])
  }

  ghost predicate Follows(cfg: Config, s: State, e: Event, s': State) {
    Enabled(cfg, s, e) && s' == Next(cfg, s, e)
  }

  lemma RunExtends(cfg: Config, states: seq<State>, events: seq<Event>, e: Event)
    requires IsRun(cfg, states, events) && Enabled(cfg, states[|events|], e)
    ensures IsRun(cfg, states + [Next(cfg, states[|events|], e)], events + [e])
  {
    var states' := states + [Next(cfg, states[|events|], e)];
    forall i | 0 <= i < |events| + 1 ensures Follows(cfg, states'[i], (events + [e])[i], states'[i + 1]) {
      if i < |events| {
        assert Follows(cfg, states[i], events[i], states[i + 1]);
      }
    }
  }

  // ----- a run as one value ----------------------------------------------------------------------

  datatype History = History(cfg: Config, states: seq<State>, events: seq<Event>)

  ghost predicate IsHistory(h: History) {
    IsRun(h.cfg, h.states, h.events)
  }

  const NOTHING_YET := History(Config(1, 0, true), [State(0, map[], Idle, map[], Ledger([], [], [], [], map[]))], [])

  type Run = h: History | IsHistory(h) ghost witness NOTHING_YET

  ghost function Last(run: Run): State {
    run.states[|run.events|]
  }

  ghost function Extended(run: Run, e: Event): (r: Run)
    requires Enabled(run.cfg, Last(run), e)
    ensures Last(r) == Next(run.cfg, Last(run), e) && r.cfg == run.cfg
  {
    RunExtends(run.cfg, run.states, run.events, e);
    History(run.cfg, run.states + [Next(run.cfg, Last(run), e)], run.events + [e])
  }

  ghost function Started(cfg: Config, s: State): (r: Run)
    requires cfg.maxRetries >= 1 && Initial(cfg, s)
    ensures Last(r) == s && r.cfg == cfg
  {
    History(cfg, [s], [])
  }

  // ----- where the tokens are --------------------------------------------------------------------

  function CallCell(call: Call, c: Cell): int {
    if call.key == c.key && (c.slot.Total? || c.slot.name == call.model) then call.delta.Get(c.col) else 0
  }

  function RecordedCell(calls: seq<Call>, c: Cell): int {
    if calls == [] then 0 else RecordedCell(calls[..|calls| - 1], c) + CallCell(calls[|calls| - 1], c)
  }

  function SentCell(sent: seq<Sent>, c: Cell): int {
    if sent == [] then 0 else SentCell(sent[..|sent| - 1], c) + BatchCell(sent[|sent| - 1].records, c)
  }

  function DroppedCell(dropped: seq<Dropped>, c: Cell): int {
    if dropped == [] then 0
    else DroppedCell(dropped[..|dropped| - 1], c) + BatchCell(dropped[|dropped| - 1].report.records, c)
  }

  function OverwrittenCell(lost: seq<FailedReport>, c: Cell): int {
    if lost == [] then 0 else OverwrittenCell(lost[..|lost| - 1], c) + BatchCell(lost[|lost| - 1].records, c)
  }

  ghost function FileCells(dir: map<FileName, FailedReport>, c: Cell): map<FileName, int> {
    map name | name in dir :: BatchCell(dir[name].records, c)
  }

  ghost function DirCell(dir: map<FileName, FailedReport>, c: Cell): int {
    Sum(FileCells(dir, c))
  }

  /** A batch being submitted from a file is counted with the files, where it still is. */
  function InFlightCell(p: Phase, c: Cell): int {
    if p.Submitting? && p.source.FromFlush? then BatchCell(p.records, c) else 0
  }

  ghost function Accounted(s: State, c: Cell): int {
    UsageCell(s.acc, c) + InFlightCell(s.phase, c) + DirCell(s.dir, c)
      + SentCell(s.ledger.acknowledged, c) + DroppedCell(s.ledger.discarded, c)
      + OverwrittenCell(s.ledger.overwritten, c)
  }

  lemma DirCellUpdate(dir: map<FileName, FailedReport>, name: FileName, r: FailedReport, c: Cell)
    ensures DirCell(dir[name := r], c)
         == DirCell(dir, c) - (if name in dir then BatchCell(dir[name].records, c) else 0) + BatchCell(r.records, c)
  {
    SumUpdate(FileCells(dir, c), name, BatchCell(r.records, c));
    assert FileCells(dir[name := r], c) == FileCells(dir, c)[name := BatchCell(r.records, c)];
  }

  lemma DirCellRemove(dir: map<FileName, FailedReport>, name: FileName, c: Cell)
    requires name in dir
    ensures DirCell(dir - {name}, c) == DirCell(dir, c) - BatchCell(dir[name].records, c)
  {
    SumTakes(FileCells(dir, c), name);
    assert FileCells(dir - {name}, c) == FileCells(dir, c) - {name};
  }

  // ----- invariants ------------------------------------------------------------------------------

  ghost predicate PhaseOk(cfg: Config, s: State) {
    match s.phase
    case Idle => true
    case Submitting(FromFlush, records, attempt, posts) => records != [] && posts == attempt < cfg.maxRetries
    case Submitting(FromFile(name), records, attempt, posts) =>
      && name in s.dir && name in s.ledger.postsOf && s.dir[name].records == records
          && s.dir[name].retries < cfg.maxRetries
      && attempt < cfg.maxRetries && posts == s.ledger.postsOf[name] + attempt
  }

  /** What the ledger says about batches that are gone. */
  ghost predicate LedgerOk(cfg: Config, l: Ledger) {
    && (forall i :: 0 <= i < |l.acknowledged| ==> 1 <= l.acknowledged[i].posts <= Budget(cfg, cfg.maxRetries))
    && (forall i :: 0 <= i < |l.discarded| ==> Expired(cfg, l.discarded[i].report, l.discarded[i].at))
  }

  ghost predicate Inv(cfg: Config, s: State) {
    && cfg.maxRetries >= 1
    && GoodFiles(cfg, s.now, s.dir, s.ledger.postsOf)
    && PhaseOk(cfg, s)
    && LedgerOk(cfg, s.ledger)
  }

  lemma {:induction false} BudgetGrows(cfg: Config, a: nat, b: nat)
    requires a <= b
    ensures Budget(cfg, a) <= Budget(cfg, b) && (a < b ==> Budget(cfg, a) + cfg.maxRetries <= Budget(cfg, b))
    decreases b
  {
    if a < b {
      BudgetGrows(cfg, a, b - 1);
    }
  }

  lemma {:induction false} BudgetClosedForm(cfg: Config, retries: nat)
    ensures Budget(cfg, retries) == cfg.maxRetries + retries * cfg.maxRetries
  {
    if retries > 0 {
      BudgetClosedForm(cfg, retries - 1);
      assert retries * cfg.maxRetries == (retries - 1) * cfg.maxRetries + cfg.maxRetries;
    }
  }

  /** A submission in progress stays within its batch's budget, and so does one more POST of it. */
  lemma PostsWithinBudget(cfg: Config, s: State)
    requires Inv(cfg, s) && s.phase.Submitting?
    ensures s.phase.source.FromFlush? ==> s.phase.posts + 1 <= Budget(cfg, 0)
    ensures s.phase.source.FromFile? ==> s.phase.posts + 1 <= Budget(cfg, s.dir[s.phase.source.name].retries + 1)
    ensures s.phase.posts + 1 <= Budget(cfg, cfg.maxRetries)
  {
    if s.phase.source.FromFile? {
      BudgetGrows(cfg, s.dir[s.phase.source.name].retries + 1, cfg.maxRetries);
    } else {
      BudgetGrows(cfg, 0, cfg.maxRetries);
    }
  }

  /** The file a submission that gives up leaves its batch in. */
  function LeftIn(s: State, s': State): FileName
    requires s.phase.Submitting?
  {
    if s.phase.source.FromFile? then s.phase.source.name else FailedReportFile(UnixSeconds(s'.now))
  }

  lemma StepKeepsFiles(cfg: Config, s: State, e: Event)
    requires Inv(cfg, s) && Enabled(cfg, s, e)
    ensures var s' := Next(cfg, s, e); GoodFiles(cfg, s'.now, s'.dir, s'.ledger.postsOf) && s.now <= s'.now
  {
    var s' := Next(cfg, s, e);
    if e.GiveUp? {
      GiveUpFile(cfg, s, e);
    }
    forall name | name in s'.dir
      ensures GoodFile(cfg, s'.now, name, s'.dir[name], s'.ledger.postsOf[name])
    {
      if !(e.GiveUp? && name == LeftIn(s, s')) {
        assert GoodFile(cfg, s.now, name, s.dir[name], s.ledger.postsOf[name]);
      }
    }
  }

  lemma GiveUpFile(cfg: Config, s: State, e: Event)
    requires Inv(cfg, s) && e.GiveUp? && Enabled(cfg, s, e)
    ensures var s' := Next(cfg, s, e); var name := LeftIn(s, s');
      && name in s'.dir && name in s'.ledger.postsOf
      && GoodFile(cfg, s'.now, name, s'.dir[name], s'.ledger.postsOf[name])
  {
    PostsWithinBudget(cfg, s);
    if s.phase.source.FromFile? {
      var name := s.phase.source.name;
      assert GoodFile(cfg, s.now, name, s.dir[name], s.ledger.postsOf[name]);
    }
  }

  lemma StepKeepsInv(cfg: Config, s: State, e: Event)
    requires Inv(cfg, s) && Enabled(cfg, s, e)
    ensures Inv(cfg, Next(cfg, s, e))
  {
    StepKeepsFiles(cfg, s, e);
    if e.Flush? {
      var key :| key in s.acc;
      assert Lists(e.records, key);
    }
    if s.phase.Submitting? {
      PostsWithinBudget(cfg, s);
    }
  }

  ghost predicate Balances(s: State, s': State, c: Cell) {
    Accounted(s', c) - Accounted(s, c) == RecordedCell(s'.ledger.recorded, c) - RecordedCell(s.ledger.recorded, c)
  }

  lemma RecordBalances(cfg: Config, s: State, call: Call, c: Cell)
    ensures Balances(s, Next(cfg, s, Event.Record(call)), c)
  {
    var s' := Next(cfg, s, Event.Record(call));
    assert s'.ledger.recorded[..|s.ledger.recorded|] == s.ledger.recorded;
    assert UsageCell(s'.acc, c) == UsageCell(s.acc, c) + CallCell(call, c);
  }

  lemma OpenBalances(cfg: Config, s: State, name: FileName, c: Cell)
    requires Enabled(cfg, s, Open(name))
    ensures Balances(s, Next(cfg, s, Open(name)), c)
  {
    if Expired(cfg, s.dir[name], s.now) {
      DirCellRemove(s.dir, name, c);
      var d := Next(cfg, s, Open(name)).ledger.discarded;
      assert d[..|s.ledger.discarded|] == s.ledger.discarded;
    }
  }

  lemma AcknowledgeBalances(cfg: Config, s: State, e: Event, c: Cell)
    requires Inv(cfg, s) && e.Acknowledge? && Enabled(cfg, s, e)
    ensures Balances(s, Next(cfg, s, e), c)
  {
    var a := Next(cfg, s, e).ledger.acknowledged;
    assert a[..|s.ledger.acknowledged|] == s.ledger.acknowledged;
    if s.phase.source.FromFile? {
      DirCellRemove(s.dir, s.phase.source.name, c);
    }
  }

  lemma GiveUpBalances(cfg: Config, s: State, e: Event, c: Cell)
    requires Inv(cfg, s) && e.GiveUp? && Enabled(cfg, s, e)
    ensures Balances(s, Next(cfg, s, e), c)
  {
    var s' := Next(cfg, s, e);
    var name := LeftIn(s, s');
    DirCellUpdate(s.dir, name, s'.dir[name], c);
    if s.phase.source.FromFlush? && name in s.dir {
      assert s'.ledger.overwritten[..|s.ledger.overwritten|] == s.ledger.overwritten;
    } else {
      assert s'.ledger.overwritten == s.ledger.overwritten;
    }
  }

  /** No step creates or destroys tokens: what it adds to the records it adds to exactly one place. */
  lemma StepBalances(cfg: Config, s: State, e: Event, c: Cell)
    requires Inv(cfg, s) && Enabled(cfg, s, e)
    ensures Balances(s, Next(cfg, s, e), c)
  {
    match e
    case Record(call) => RecordBalances(cfg, s, call, c);
    case Pass(_) =>
    case Flush(records) => BatchCellIsUsageCell(s.acc, records, c);
    case Open(name) => OpenBalances(cfg, s, name, c);
    case Retry(_) =>
    case Acknowledge(_) => AcknowledgeBalances(cfg, s, e, c);
    case GiveUp(_, _) => GiveUpBalances(cfg, s, e, c);
  }

  lemma {:induction false} RunKeepsInv(cfg: Config, states: seq<State>, events: seq<Event>, i: nat)
    requires IsRun(cfg, states, events) && i < |states|
    ensures Inv(cfg, states[i])
  {
    if i > 0 {
      RunKeepsInv(cfg, states, events, i - 1);
      assert Follows(cfg, states[i - 1], events[i - 1], states[i]);
      StepKeepsInv(cfg, states[i - 1], events[i - 1]);
    }
  }

  /**
     Conservation, in every state of every run, for every key, its total or any of its models, and
     every column: what was recorded (and was on disk at the start) is in the accumulator, in the
     batch in flight, in files, acknowledged, discarded or overwritten, and nowhere twice.
   */
  lemma {:induction false} Conservation(cfg: Config, states: seq<State>, events: seq<Event>, i: nat, c: Cell)
    requires IsRun(cfg, states, events) && i < |states|
    ensures RecordedCell(states[i].ledger.recorded, c) + DirCell(states[0].dir, c) == Accounted(states[i], c)
  {
    if i > 0 {
      Conservation(cfg, states, events, i - 1, c);
      RunKeepsInv(cfg, states, events, i - 1);
      assert Follows(cfg, states[i - 1], events[i - 1], states[i]);
      StepBalances(cfg, states[i - 1], events[i - 1], c);
    }
  }

  /**
     In every state of every run, each key's totals are the sums over its models; so they are in every batch flushed.
   */
  lemma {:induction false} TotalsAlwaysMatch(cfg: Config, states: seq<State>, events: seq<Event>, i: nat)
    requires IsRun(cfg, states, events) && i < |states|
    ensures AllTotalled(states[i].acc)
  {
    if i > 0 {
      TotalsAlwaysMatch(cfg, states, events, i - 1);
      var s, e := states[i - 1], events[i - 1];
      assert Follows(cfg, s, e, states[i]);
      if e.Record? {
        RecordedKeepsTotals(s.acc, e.call.key, e.call.model, e.call.delta, s.now);
      } else {
        assert states[i].acc == s.acc || states[i].acc == map[];
      }
    }
  }

  /** A batch is discarded only when more than a day old or out of retries. */
  lemma DiscardsAreExpired(cfg: Config, states: seq<State>, events: seq<Event>, i: nat, d: Dropped)
    requires IsRun(cfg, states, events) && i < |states| && d in states[i].ledger.discarded
    ensures d.at - d.report.timestamp > 86_400_000_000_000 || d.report.retries >= cfg.maxRetries
  {
    RunKeepsInv(cfg, states, events, i);
  }

  /**
     And it is, whenever it is read in that condition: in every run, reading a file discards its report
     exactly when that is more than 24 hours old or out of retries, and starts re-submitting it otherwise.
   */
  lemma {:induction false} ReadingDiscardsIff(cfg: Config, states: seq<State>, events: seq<Event>, i: nat,
        name: FileName)
    requires IsRun(cfg, states, events) && i < |events| && events[i] == Open(name)
    ensures name in states[i].dir
    ensures var s, s', r := states[i], states[i + 1], states[i].dir[name];
      if s.now - r.timestamp > 86_400_000_000_000 || r.retries >= cfg.maxRetries then
        && name !in s'.dir && s'.phase == Idle && s'.ledger.discarded == s.ledger.discarded + [Dropped(r, s.now)]
      else
        && s'.dir == s.dir && s'.ledger.discarded == s.ledger.discarded
        && s'.phase.Submitting? && s'.phase.source == FromFile(name)
        && s'.phase.records == r.records && s'.phase.attempt == 0
  {
    assert Follows(cfg, states[i], events[i], states[i + 1]);
  }

  // ----- bounded retry ---------------------------------------------------------------------------

  /** However the endpoint behaves, no batch is ever POSTed more than R + R * R times. */
  lemma PostsAreBounded(cfg: Config, states: seq<State>, events: seq<Event>, i: nat)
    requires IsRun(cfg, states, events) && i < |states|
    ensures var s := states[i]; var bound := cfg.maxRetries + cfg.maxRetries * cfg.maxRetries;
      && (s.phase.Submitting? ==> s.phase.posts < bound)
      && (forall name :: name in s.dir ==> name in s.ledger.postsOf && s.ledger.postsOf[name] <= bound)
      && (forall k :: 0 <= k < |s.ledger.acknowledged| ==> s.ledger.acknowledged[k].posts <= bound)
  {
    RunKeepsInv(cfg, states, events, i);
    BudgetClosedForm(cfg, cfg.maxRetries);
    var s := states[i];
    forall name | name in s.dir ensures s.ledger.postsOf[name] <= Budget(cfg, cfg.maxRetries) {
      BudgetGrows(cfg, s.dir[name].retries, cfg.maxRetries);
    }
    if s.phase.Submitting? {
      PostsWithinBudget(cfg, s);
    }
  }

  /** Submissions the batch has left after the one in progress, then POSTs left in that one. */
  function SubmissionsLeft(cfg: Config, s: State): int
    requires s.phase.Submitting? && (s.phase.source.FromFile? ==> s.phase.source.name in s.dir)
  {
    if s.phase.source.FromFlush? then cfg.maxRetries else cfg.maxRetries - s.dir[s.phase.source.name].retries - 1
  }

  function PostsLeft(cfg: Config, s: State): int
    requires s.phase.Submitting?
  {
    cfg.maxRetries - s.phase.attempt
  }

  /**
     The termination measure: a failed POST either leaves fewer POSTs in the submission, or ends it
     and leaves the batch in a file whose next submission, if any, has fewer submissions after it.
     Neither component is ever negative, so the failures of one batch come to an end.
   */
  lemma FailedPostDescends(cfg: Config, s: State, e: Event)
    requires Inv(cfg, s) && s.phase.Submitting? && Enabled(cfg, s, e)
    requires e.Retry? || e.GiveUp?
    ensures SubmissionsLeft(cfg, s) >= 0 && PostsLeft(cfg, s) > 0
    ensures var s' := Next(cfg, s, e);
      && (e.Retry? ==>
            SubmissionsLeft(cfg, s') == SubmissionsLeft(cfg, s) && 0 < PostsLeft(cfg, s') < PostsLeft(cfg, s))
      && (e.GiveUp? ==>
            var name := LeftIn(s, s');
            && name in s'.dir && s'.dir[name].records == s.phase.records
            && (var s'' := Next(cfg, s', Open(name));
                s''.phase.Submitting? ==> 0 <= SubmissionsLeft(cfg, s'') < SubmissionsLeft(cfg, s)))
  {
  }

  // ----- file names ------------------------------------------------------------------------------

  /** Time slept before attempt number `attempt`: the pause grows by one backoff each time. */
  function Slept(backoff: nat, attempt: nat): nat {
    if attempt == 0 then 0 else Slept(backoff, attempt - 1) + backoff * attempt
  }

  function Triangle(n: nat): nat {
    if n == 0 then 0 else Triangle(n - 1) + n
  }

  lemma {:induction false} TriangleClosedForm(n: nat)
    ensures 2 * Triangle(n) == n * (n + 1)
  {
    if n > 0 {
      TriangleClosedForm(n - 1);
    }
  }

  lemma Distributes(a: int, b: int, c: int)
    ensures a * (b + c) == a * b + a * c
  {
  }

  lemma {:induction false} SleptClosedForm(backoff: nat, attempt: nat)
    ensures Slept(backoff, attempt) == backoff * Triangle(attempt)
    ensures 2 * Triangle(attempt) == attempt * (attempt + 1)
  {
    TriangleClosedForm(attempt);
    if attempt > 0 {
      SleptClosedForm(backoff, attempt - 1);
      Distributes(backoff, Triangle(attempt - 1), attempt);
    }
  }

  /** What a submission that fails sleeps in all. */
  function FullPause(cfg: Config): nat
    requires cfg.maxRetries >= 1
  {
    Slept(cfg.retryBackoff, cfg.maxRetries - 1)
  }

  /** A submission that fails takes at least a second, so it never ends in an earlier file's second. */
  predicate FailuresAreSlow(cfg: Config) {
    cfg.urlParses && cfg.maxRetries >= 1 && FullPause(cfg) >= SECOND
  }

  ghost predicate NamesBehind(cfg: Config, s: State) {
    && s.ledger.overwritten == []
    && (s.phase.Submitting? && s.phase.source.FromFlush? ==>
          forall name :: name in s.dir ==>
              name.unixSeconds * SECOND + Slept(cfg.retryBackoff, s.phase.attempt) <= s.now)
  }

  lemma StepKeepsNamesBehind(cfg: Config, s: State, e: Event)
    requires FailuresAreSlow(cfg) && Inv(cfg, s) && NamesBehind(cfg, s) && Enabled(cfg, s, e)
    ensures NamesBehind(cfg, Next(cfg, s, e))
  {
    var s' := Next(cfg, s, e);
    if e.GiveUp? && s.phase.source.FromFlush? {
      assert s.phase.attempt == cfg.maxRetries - 1;
      assert forall name :: name in s.dir ==> name.unixSeconds + 1 <= UnixSeconds(s'.now);
    }
  }

  /**
     With files read in any order or not at all, as these steps allow, a full second of pauses in one
     failed submission is enough for no failed report ever to be overwritten.
   */
  lemma {:induction false} SlowFailuresNeverOverwrite(cfg: Config, states: seq<State>, events: seq<Event>, i: nat)
    requires FailuresAreSlow(cfg) && IsRun(cfg, states, events) && i < |states|
    ensures NamesBehind(cfg, states[i])
  {
    if i > 0 {
      SlowFailuresNeverOverwrite(cfg, states, events, i - 1);
      RunKeepsInv(cfg, states, events, i - 1);
      assert Follows(cfg, states[i - 1], events[i - 1], states[i]);
      StepKeepsNamesBehind(cfg, states[i - 1], events[i - 1]);
    }
  }

  // ----- the reporting loop's order ---------------------------------------------------------------

  /**
     The files not read since they were written, or found at the start. The loop reads every file at
     start-up and again after every flush it has dealt with, before it flushes the next time.
   */
  function NextUnread(s: State, e: Event, s': State, unread: set<FileName>): set<FileName> {
    if e.Open? then unread - {e.name}
    else if e.GiveUp? && s.phase.Submitting? && s.phase.source.FromFlush? then unread + {LeftIn(s, s')}
    else unread
  }

  ghost predicate LoopFollows(cfg: Config, s: State, e: Event, s': State, unread: set<FileName>,
        unread': set<FileName>)
  {
    && Follows(cfg, s, e, s')
    && (e.Flush? ==> unread == {})
    && unread' == NextUnread(s, e, s', unread)
  }

  /** A run in the order of `StartReportingLoop`, with the unread files at each of its states. */
  ghost predicate IsLoopRun(cfg: Config, states: seq<State>, events: seq<Event>, unread: seq<set<FileName>>) {
    && cfg.maxRetries >= 1
    && |states| == |unread| == |events| + 1
    && Initial(cfg, states[0]) && unread[0] == states[0].dir.Keys
    && forall i :: 0 <= i < |events| ==> LoopFollows(cfg, states[i], events[i], states[i + 1], unread[i], unread[i + 1])
  }

  lemma LoopRunIsRun(cfg: Config, states: seq<State>, events: seq<Event>, unread: seq<set<FileName>>)
    requires IsLoopRun(cfg, states, events, unread)
    ensures IsRun(cfg, states, events)
  {
    forall i | 0 <= i < |events| ensures Follows(cfg, states[i], events[i], states[i + 1]) {
      assert LoopFollows(cfg, states[i], events[i], states[i + 1], unread[i], unread[i + 1]);
    }
  }

  /**
     Between two flushes a file that stays has failed a submission of its own; with the next one that makes a second.
   */
  predicate FilesStayApart(cfg: Config) {
    cfg.urlParses && cfg.maxRetries >= 1 && 2 * FullPause(cfg) >= SECOND
  }

  /** How far behind the clock the second in a read file's name has fallen. */
  function Behind(cfg: Config, p: Phase, name: FileName): nat
    requires cfg.maxRetries >= 1
  {
    if p.Idle? then FullPause(cfg)
    else if p.source.FromFlush? then FullPause(cfg) + Slept(cfg.retryBackoff, p.attempt)
    else if p.source.name == name then Slept(cfg.retryBackoff, p.attempt)
    else FullPause(cfg)
  }

  ghost predicate ReadFilesBehind(cfg: Config, s: State, unread: set<FileName>)
    requires cfg.maxRetries >= 1
  {
    && s.ledger.overwritten == []
    && (s.phase.Submitting? && s.phase.source.FromFlush? ==> unread == {})
    && (s.phase.Submitting? && s.phase.source.FromFile? ==> s.phase.source.name !in unread)
    && forall name :: name in s.dir && name !in unread ==> IsBehind(cfg, s, name)
  }

  predicate IsBehind(cfg: Config, s: State, name: FileName)
    requires cfg.maxRetries >= 1
  {
    name.unixSeconds * SECOND + Behind(cfg, s.phase, name) <= s.now
  }

  /** No new file lands in the second of one that is there. */
  lemma NewFileIsApart(cfg: Config, s: State, e: Event, unread: set<FileName>)
    requires FilesStayApart(cfg) && Inv(cfg, s) && ReadFilesBehind(cfg, s, unread)
    requires e.GiveUp? && Enabled(cfg, s, e) && s.phase.source.FromFlush?
    ensures Next(cfg, s, e).ledger.overwritten == []
  {
    assert s.phase.attempt == cfg.maxRetries - 1;
    forall name | name in s.dir ensures name.unixSeconds + 1 <= UnixSeconds(s.now + e.latency + e.gap) {
      assert IsBehind(cfg, s, name);
    }
  }

  lemma SleptStep(cfg: Config, attempt: nat)
    ensures Slept(cfg.retryBackoff, attempt + 1) == Slept(cfg.retryBackoff, attempt) + cfg.retryBackoff * (attempt + 1)
    ensures cfg.retryBackoff * (attempt + 1) >= 0
  {
  }

  /** The clock moves at least as fast as the names fall behind. */
  lemma ClockKeepsUp(cfg: Config, s: State, e: Event, name: FileName)
    requires cfg.maxRetries >= 1 && PhaseOk(cfg, s) && cfg.urlParses && Enabled(cfg, s, e)
    requires e.Open? ==> e.name != name
    requires name in Next(cfg, s, e).dir
    ensures var s' := Next(cfg, s, e); Behind(cfg, s'.phase, name) - Behind(cfg, s.phase, name) <= s'.now - s.now
  {
    if e.Retry? {
      SleptStep(cfg, s.phase.attempt);
    } else if e.GiveUp? {
      assert s.phase.attempt == cfg.maxRetries - 1;
    }
  }

  lemma StepKeepsBehind(cfg: Config, s: State, e: Event, unread: set<FileName>, name: FileName)
    requires FilesStayApart(cfg) && Inv(cfg, s) && ReadFilesBehind(cfg, s, unread)
    requires Enabled(cfg, s, e) && (e.Flush? ==> unread == {})
    requires var s' := Next(cfg, s, e); name in s'.dir && name !in NextUnread(s, e, s', unread)
    ensures IsBehind(cfg, Next(cfg, s, e), name)
  {
    var s' := Next(cfg, s, e);
    assert name in s.dir;
    if e.Open? && e.name == name {
      assert GoodFile(cfg, s.now, name, s.dir[name], s.ledger.postsOf[name]);
    } else {
      assert IsBehind(cfg, s, name);
      ClockKeepsUp(cfg, s, e, name);
    }
  }

  lemma LoopStepKeepsBehind(cfg: Config, s: State, e: Event, s': State, unread: set<FileName>, unread': set<FileName>)
    requires FilesStayApart(cfg) && Inv(cfg, s) && ReadFilesBehind(cfg, s, unread)
    requires LoopFollows(cfg, s, e, s', unread, unread')
    ensures ReadFilesBehind(cfg, s', unread')
  {
    if e.GiveUp? && s.phase.source.FromFlush? {
      NewFileIsApart(cfg, s, e, unread);
    }
    forall name | name in s'.dir && name !in unread' ensures IsBehind(cfg, s', name) {
      StepKeepsBehind(cfg, s, e, unread, name);
    }
  }

  lemma {:induction false} LoopRunKeepsBehind(cfg: Config, states: seq<State>, events: seq<Event>,
        unread: seq<set<FileName>>, i: nat)
    requires FilesStayApart(cfg) && IsLoopRun(cfg, states, events, unread) && i < |states|
    ensures ReadFilesBehind(cfg, states[i], unread[i])
  {
    if i > 0 {
      LoopRunKeepsBehind(cfg, states, events, unread, i - 1);
      LoopRunIsRun(cfg, states, events, unread);
      RunKeepsInv(cfg, states, events, i - 1);
      assert LoopFollows(cfg, states[i - 1], events[i - 1], states[i], unread[i - 1], unread[i]);
      LoopStepKeepsBehind(cfg, states[i - 1], events[i - 1], states[i], unread[i - 1], unread[i]);
    }
  }

  // ----- a run that overwrites --------------------------------------------------------------------

  datatype LoopHistory = LoopHistory(states: seq<State>, events: seq<Event>, unread: seq<set<FileName>>)

  ghost predicate IsLoop(cfg: Config, h: LoopHistory) {
    IsLoopRun(cfg, h.states, h.events, h.unread)
  }

  ghost function End(h: LoopHistory): State
    requires |h.states| == |h.events| + 1
  {
    h.states[|h.events|]
  }

  ghost function UnreadAtEnd(h: LoopHistory): set<FileName>
    requires |h.unread| == |h.events| + 1
  {
    h.unread[|h.events|]
  }

  lemma LoopExtends(cfg: Config, h: LoopHistory, e: Event) returns (h': LoopHistory)
    requires IsLoop(cfg, h) && Enabled(cfg, End(h), e) && (e.Flush? ==> UnreadAtEnd(h) == {})
    ensures IsLoop(cfg, h') && End(h') == Next(cfg, End(h), e)
    ensures UnreadAtEnd(h') == NextUnread(End(h), e, End(h'), UnreadAtEnd(h)) && h'.states[0] == h.states[0]
  {
    var s' := Next(cfg, End(h), e);
    h' := LoopHistory(h.states + [s'], h.events + [e], h.unread + [NextUnread(End(h), e, s', UnreadAtEnd(h))]);
    forall i | 0 <= i < |h'.events|
      ensures LoopFollows(cfg, h'.states[i], h'.events[i], h'.states[i + 1], h'.unread[i], h'.unread[i + 1])
    {
      if i < |h.events| {
        assert LoopFollows(cfg, h.states[i], h.events[i], h.states[i + 1], h.unread[i], h.unread[i + 1]);
      }
    }
  }

  /** What is slept between attempt number `attempt` and the last, if any is made. */
  function PauseFrom(cfg: Config, attempt: nat): int
    requires cfg.maxRetries >= 1
  {
    if cfg.urlParses then FullPause(cfg) - Slept(cfg.retryBackoff, attempt) else 0
  }

  /** The end of a submission that failed as fast as the code allows. */
  ghost predicate IsFailed(cfg: Config, s: State, s': State, unread: set<FileName>, unread': set<FileName>)
    requires cfg.maxRetries >= 1 && s.phase.Submitting? && (s.phase.source.FromFile? ==> s.phase.source.name in s.dir)
  {
    && s'.now == s.now + PauseFrom(cfg, s.phase.attempt) && s'.acc == s.acc && s'.phase == Idle
    && if s.phase.source.FromFile? then
         var name, r := s.phase.source.name, s.dir[s.phase.source.name];
         && s'.dir == s.dir[name := r.(retries := r.retries + 1)] && unread' == unread
         && s'.ledger.overwritten == s.ledger.overwritten
       else
         var name := FailedReportFile(UnixSeconds(s'.now));
         && s'.dir == s.dir[name := FailedReport(s'.now, s.phase.records, 0)] && unread' == unread + {name}
         && s'.ledger.overwritten == s.ledger.overwritten + if name in s.dir then [s.dir[name]] else []
  }

  /** Drives the submission in progress to failure as fast as the code allows. */
  lemma {:induction false} FailSubmission(cfg: Config, h: LoopHistory) returns (h': LoopHistory)
    requires IsLoop(cfg, h)
    requires var s := End(h);
      && s.phase.Submitting? && s.phase.attempt < cfg.maxRetries
      && (s.phase.source.FromFile? ==> s.phase.source.name in s.dir)
    ensures IsLoop(cfg, h') && IsFailed(cfg, End(h), End(h'), UnreadAtEnd(h), UnreadAtEnd(h'))
        && h'.states[0] == h.states[0]
    decreases cfg.maxRetries - End(h).phase.attempt
  {
    var s := End(h);
    if cfg.urlParses && s.phase.attempt + 1 < cfg.maxRetries {
      h' := LoopExtends(cfg, h, Retry(0));
      h' := FailSubmission(cfg, h');
    } else {
      h' := LoopExtends(cfg, h, GiveUp(0, 0));
    }
  }

  lemma RecordOne(cfg: Config, h: LoopHistory) returns (h': LoopHistory)
    requires IsLoop(cfg, h) && End(h).acc == map[]
    ensures IsLoop(cfg, h') && UnreadAtEnd(h') == UnreadAtEnd(h) && h'.states[0] == h.states[0]
    ensures var s, s' := End(h), End(h');
      && s'.now == s.now && s'.acc == OneToken(s.now) && s'.phase == s.phase && s'.dir == s.dir
      && s'.ledger.overwritten == s.ledger.overwritten
  {
    h' := LoopExtends(cfg, h, Event.Record(Call("key", "model", Counts(1, 0, 0))));
  }

  lemma FlushAll(cfg: Config, h: LoopHistory, records: seq<ReportRecords.Record>) returns (h': LoopHistory)
    requires IsLoop(cfg, h) && Enabled(cfg, End(h), Flush(records)) && UnreadAtEnd(h) == {}
    ensures IsLoop(cfg, h') && UnreadAtEnd(h') == {} && h'.states[0] == h.states[0]
    ensures End(h') == End(h).(acc := map[], phase := Submitting(FromFlush, records, 0, 0))
  {
    h' := LoopExtends(cfg, h, Flush(records));
  }

  /** One recording and the flush that takes it. */
  lemma RecordAndFlush(cfg: Config, h: LoopHistory) returns (h': LoopHistory)
    requires IsLoop(cfg, h) && End(h).phase.Idle? && End(h).acc == map[] && UnreadAtEnd(h) == {}
    ensures IsLoop(cfg, h') && UnreadAtEnd(h') == {} && h'.states[0] == h.states[0]
    ensures var s, s' := End(h), End(h');
      && s'.now == s.now && s'.dir == s.dir && s'.ledger.overwritten == s.ledger.overwritten && s'.acc == map[]
      && s'.phase.Submitting? && s'.phase.source.FromFlush? && s'.phase.attempt == 0
      && BatchCell(s'.phase.records, Cell("key", Total, Input)) == 1
  {
    var records := OneTokenBatch(End(h).now);
    h' := RecordOne(cfg, h);
    h' := FlushAll(cfg, h', records);
  }

  function OneToken(now: int): Usage {
    Recorded(map[], "key", "model", Counts(1, 0, 0), now)
  }

  lemma SingleKeyRecords(usage: Usage, key: string) returns (records: seq<ReportRecords.Record>)
    requires usage.Keys == {key}
    ensures RecordsOf(usage, records)
  {
    records := [ReportRecords.Record(key, KeyDataOf(usage[key]))];
    assert records[0].apiKeyHash == key;
    assert Lists(records, key);
  }

  lemma OneTokenIsOne(now: int)
    ensures OneToken(now).Keys == {"key"} && OneToken(now) != map[]
    ensures UsageCell(OneToken(now), Cell("key", Total, Input)) == 1
  {
    assert "key" in OneToken(now);
  }

  lemma OneTokenBatch(now: int) returns (records: seq<ReportRecords.Record>)
    ensures RecordsOf(OneToken(now), records)
    ensures OneToken(now) != map[] && BatchCell(records, Cell("key", Total, Input)) == 1
  {
    OneTokenIsOne(now);
    var usage := OneToken(now);
    records := SingleKeyRecords(usage, "key");
    BatchCellIsUsageCell(usage, records, Cell("key", Total, Input));
  }

  /** A start with an empty directory: nothing to read before the first flush. */
  lemma LoopBegins(cfg: Config, now: int) returns (h: LoopHistory)
    requires cfg.maxRetries >= 1
    ensures IsLoop(cfg, h) && End(h) == State(now, map[], Idle, map[], Ledger([], [], [], [], map[]))
        && UnreadAtEnd(h) == {}
    ensures h.states[0] == End(h)
  {
    h := LoopHistory([State(now, map[], Idle, map[], Ledger([], [], [], [], map[]))], [], [{}]);
    assert h.states[0].dir.Keys == {};
  }

  /** A batch is flushed and fails, and its file is read, re-submitted and fails again. */
  lemma FailTwice(cfg: Config, now: int) returns (h: LoopHistory, name: FileName)
    requires cfg.maxRetries >= 1
    ensures IsLoop(cfg, h) && UnreadAtEnd(h) == {} && End(h).phase.Idle? && End(h).acc == map[]
        && h.states[0].dir == map[]
    ensures End(h).now == now + 2 * PauseFrom(cfg, 0) && End(h).ledger.overwritten == []
    ensures name == FailedReportFile(UnixSeconds(now + PauseFrom(cfg, 0))) && name in End(h).dir
    ensures BatchCell(End(h).dir[name].records, Cell("key", Total, Input)) == 1
  {
    h := LoopBegins(cfg, now);
    h := RecordAndFlush(cfg, h);
    h := FailSubmission(cfg, h);
    name := FailedReportFile(UnixSeconds(End(h).now));
    h := LoopExtends(cfg, h, Open(name));
    h := FailSubmission(cfg, h);
  }

  /**
     When failures can be fast, the reporting loop can lose a batch: the next one fails within the second
     in which the first one's file was written, although that has been re-submitted in between.
   */
  lemma OverwritingRun(cfg: Config) returns (h: LoopHistory)
    requires cfg.maxRetries >= 1 && !FilesStayApart(cfg)
    ensures IsLoop(cfg, h) && h.states[0].dir == map[]
    ensures OverwrittenCell(End(h).ledger.overwritten, Cell("key", Total, Input)) == 1
  {
    var c, name := Cell("key", Total, Input), FailedReportFile(1);
    h, name := FailTwice(cfg, SECOND - PauseFrom(cfg, 0));
    var lost := End(h).dir[name];
    h := RecordAndFlush(cfg, h);
    assert UnixSeconds(End(h).now + PauseFrom(cfg, 0)) == 1;
    h := FailSubmission(cfg, h);
    assert End(h).ledger.overwritten == [lost];
    assert OverwrittenCell([lost][..0], c) == 0;
  }

  /**
     Exactly when the reporting loop never overwrites a failed report: the metering URL parses (a URL that
     does not fails at once, without sleeping) and the pauses of two failed submissions - the file's own
     next one, and the next batch's - add up to a second. Then the `overwritten` column of `Conservation`
     is empty in every state of every such run.
   */
  lemma NeverOverwritesIff(cfg: Config)
    requires cfg.maxRetries >= 1
    ensures (forall h: LoopHistory, i: int | IsLoop(cfg, h) && 0 <= i < |h.states| ::
               h.states[i].ledger.overwritten == [])
      <==> FilesStayApart(cfg)
  {
    if FilesStayApart(cfg) {
      forall h: LoopHistory, i: int | IsLoop(cfg, h) && 0 <= i < |h.states|
        ensures h.states[i].ledger.overwritten == []
      {
        LoopRunKeepsBehind(cfg, h.states, h.events, h.unread, i);
      }
    } else {
      var h := OverwritingRun(cfg);
      assert h.states[|h.events|].ledger.overwritten != [];
    }
  }

  /** In closed form: R(R-1) backoffs add up to a second. */
  lemma FilesStayApartIff(cfg: Config)
    requires cfg.maxRetries >= 1
    ensures FilesStayApart(cfg) <==>
        cfg.urlParses && cfg.retryBackoff * (cfg.maxRetries * (cfg.maxRetries - 1)) >= SECOND
  {
    var n := cfg.maxRetries - 1;
    SleptClosedForm(cfg.retryBackoff, n);
    Doubles(cfg.retryBackoff, Triangle(n), n * (n + 1));
    assert n * (n + 1) == cfg.maxRetries * (cfg.maxRetries - 1);
  }

  lemma Doubles(a: nat, t: nat, m: nat)
    requires 2 * t == m
    ensures 2 * (a * t) == a * m
  {
  }

  /** The settings of `NewResilientReporter`: three attempts, five minutes; file names never collide. */
  lemma DefaultsNeverOverwrite(urlParses: bool)
    ensures FilesStayApart(Config(3, 300 * SECOND, urlParses)) <==> urlParses
  {
    FilesStayApartIff(Config(3, 300 * SECOND, urlParses));
  }

  /** One pause need not be a second: two attempts with six tenths of a second between them are enough. */
  lemma ShortPausesSuffice()
    ensures var cfg := Config(2, 600_000_000, true); FilesStayApart(cfg) && !FailuresAreSlow(cfg)
  {
    assert Slept(600_000_000, 1) == Slept(600_000_000, 0) + 600_000_000;
  }
}
