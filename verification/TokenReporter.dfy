/**
 The reporter object (token_reporter.go). The network, the latencies and the clock are chosen
 freely; every execution of these methods is a run of the `UsagePipeline` step system, kept as a
 ghost history, so everything proved there holds of the object.
 */
module TokenReporter {
  import opened MapSum
  import opened TokenMeter
  import opened ReportRecords
  import opened UsagePipeline

  type Batch = seq<ReportRecords.Record>

  /** One more acknowledgement, of `batch`. */
  ghost predicate Acknowledges(before: seq<Sent>, after: seq<Sent>, batch: Batch) {
    |after| == |before| + 1 && after[..|before|] == before && after[|before|].records == batch
  }

  /** `after` is `before` with one more file, or one replaced, holding `batch` and no retries yet. */
  ghost predicate IsPersisted(after: map<FileName, FailedReport>, before: map<FileName, FailedReport>, second: int,
        batch: Batch)
  {
    var file := FailedReportFile(second);
    && file in after && after[file].records == batch && after[file].retries == 0
    && after == before[file := after[file]]
  }

  /** Between two ledgers, at the end of one report's re-submission: acknowledged, discarded, or still to be retried. */
  ghost predicate Settles(before: Ledger, after: Ledger, report: FailedReport, gone: bool) {
    if !gone then after.acknowledged == before.acknowledged && after.discarded == before.discarded
    else
      || (after.discarded == before.discarded && Acknowledges(before.acknowledged, after.acknowledged, report.records))
      || (&& after.acknowledged == before.acknowledged && |after.discarded| == |before.discarded| + 1
          && after.discarded[..|before.discarded|] == before.discarded
          && after.discarded[|before.discarded|].report == report)
  }

  ghost predicate Extends(before: Ledger, after: Ledger) {
    |before.acknowledged| <= |after.acknowledged| && |before.discarded| <= |after.discarded|
  }

  /** Since `before`, the report's records were acknowledged, or the report was discarded. */
  ghost predicate IsSettled(before: Ledger, after: Ledger, report: FailedReport) {
    || (exists k ::
          |before.acknowledged| <= k < |after.acknowledged|
          && after.acknowledged[k].records == report.records)
    || (exists k :: |before.discarded| <= k < |after.discarded| && after.discarded[k].report == report)
  }

  lemma SettlesAlso(start: Ledger, before: Ledger, after: Ledger, report: FailedReport, gone: bool, other: FailedReport)
    requires Extends(start, before) && Settles(before, after, report, gone)
    ensures Extends(start, after)
    ensures gone ==> IsSettled(start, after, report)
    ensures IsSettled(start, before, other) ==> IsSettled(start, after, other)
  {
    if IsSettled(start, before, other) {
      if k :| |start.acknowledged| <= k < |before.acknowledged| && before.acknowledged[k].records == other.records {
        assert after.acknowledged[k] == before.acknowledged[k];
      } else {
        var k :| |start.discarded| <= k < |before.discarded| && before.discarded[k].report == other;
        assert after.discarded[k] == before.discarded[k];
      }
    }
  }

  /** One POST to the metering endpoint, and whether the answer was a 2xx. */
  datatype Exchange = Exchange(payload: Payload, ok: bool)

  function Failures(p: Payload, n: nat): seq<Exchange> {
    if n == 0 then [] else [Exchange(p, false)] + Failures(p, n - 1)
  }

  /** What one submission of `p` adds to the traffic: failures only, or some and then a 2xx. */
  ghost predicate SubmissionTraffic(cfg: Config, before: seq<Exchange>, after: seq<Exchange>, p: Payload,
        failed: bool)
  {
    if failed then after == before + Failures(p, if cfg.urlParses then cfg.maxRetries else 0)
    else exists n :: 0 <= n < cfg.maxRetries && after == before + Failures(p, n) + [Exchange(p, true)]
  }

  lemma {:induction false} FailuresAppend(p: Payload, n: nat)
    ensures Failures(p, n + 1) == Failures(p, n) + [Exchange(p, false)]
    ensures |Failures(p, n)| == n
  {
    if n > 0 {
      FailuresAppend(p, n - 1);
    }
  }

  lemma TrafficOfSubmission(cfg: Config, before: seq<Exchange>, after: seq<Exchange>, p: Payload, failed: bool,
        last: nat)
    requires last < cfg.maxRetries
    requires if failed then last == (if cfg.urlParses then cfg.maxRetries - 1 else 0) else cfg.urlParses
    requires after == before + Failures(p, last) + (if cfg.urlParses then [Exchange(p, !failed)] else [])
    ensures SubmissionTraffic(cfg, before, after, p, failed)
  {
    if !failed {
      assert after == before + Failures(p, last) + [Exchange(p, true)];
    } else if cfg.urlParses {
      FailuresAppend(p, last);
      assert after == before + (Failures(p, last) + [Exchange(p, false)]);
    }
  }

  /** Everything posted since `before` carries a report of `dir`, at most R POSTs for each of `n`. */
  ghost predicate PostsReports(cfg: Config, dir: map<FileName, FailedReport>, before: seq<Exchange>,
        after: seq<Exchange>, n: nat)
  {
    && before <= after && |after| - |before| <= Times(n, cfg.maxRetries)
    && forall k :: |before| <= k < |after| ==> Carries(dir, after[k])
  }

  ghost predicate Carries(dir: map<FileName, FailedReport>, e: Exchange) {
    exists name :: name in dir && e.payload == UsageData(dir[name].records)
  }

  lemma {:induction false} FailuresCarry(p: Payload, n: nat)
    ensures |Failures(p, n)| == n && forall k :: 0 <= k < n ==> Failures(p, n)[k] == Exchange(p, false)
  {
    if n > 0 {
      FailuresCarry(p, n - 1);
    }
  }

  lemma SubmissionCarries(cfg: Config, before: seq<Exchange>, after: seq<Exchange>, p: Payload, failed: bool)
    requires SubmissionTraffic(cfg, before, after, p, failed)
    ensures before <= after && |after| - |before| <= cfg.maxRetries
    ensures forall k :: |before| <= k < |after| ==> after[k].payload == p
  {
    if failed {
      FailuresCarry(p, if cfg.urlParses then cfg.maxRetries else 0);
    } else {
      var n :| 0 <= n < cfg.maxRetries && after == before + Failures(p, n) + [Exchange(p, true)];
      FailuresCarry(p, n);
    }
  }

  lemma SubmissionGrows(cfg: Config, before: seq<Exchange>, after: seq<Exchange>, p: Payload, failed: bool)
    requires SubmissionTraffic(cfg, before, after, p, failed) && cfg.maxRetries >= 1
    ensures cfg.urlParses || !failed ==> |after| > |before|
  {
    if failed {
      FailuresCarry(p, if cfg.urlParses then cfg.maxRetries else 0);
    }
  }

  lemma SubmissionPostsReports(cfg: Config, dir: map<FileName, FailedReport>, start: seq<Exchange>,
        before: seq<Exchange>, after: seq<Exchange>, n: nat, name: FileName, failed: bool)
    requires PostsReports(cfg, dir, start, before, n) && name in dir
    requires after == before || SubmissionTraffic(cfg, before, after, UsageData(dir[name].records), failed)
    ensures PostsReports(cfg, dir, start, after, n + 1)
  {
    if after != before {
      SubmissionCarries(cfg, before, after, UsageData(dir[name].records), failed);
      forall k | |start| <= k < |after| ensures Carries(dir, after[k]) {
        if k < |before| {
          assert after[k] == before[k];
        }
      }
    }
  }

  class ResilientReporter {
    const cfg: Config
    const accumulator: TokenAccumulator
    var directory: map<FileName, FailedReport>
    var now: int
    var slept: nat              // time spent in time.Sleep
    var posted: seq<Exchange>   // oldest first
    ghost var history: Run

    ghost predicate Valid()
      reads this, accumulator, accumulator.Repr
    {
      && this !in accumulator.Repr && accumulator.Valid()
      && history.cfg == cfg
      && Last(history).acc == accumulator.Contents()
      && Last(history).dir == directory
    }

    /** No submission is in progress. */
    ghost predicate AtRest()
      reads this, accumulator, accumulator.Repr
    {
      Valid() && Last(history).phase.Idle? && Last(history).now == now
    }

    constructor (cfg: Config, accumulator: TokenAccumulator, directory: map<FileName, FailedReport>, now: int,
                 ghost postsOf: map<FileName, nat>)
      requires cfg.maxRetries >= 1 && accumulator.Valid() && accumulator.Contents() == map[]
      requires GoodFiles(cfg, now, directory, postsOf)
      ensures AtRest() && this.cfg == cfg && this.accumulator == accumulator && this.directory == directory
      ensures posted == [] && slept == 0
    {
      this.cfg, this.accumulator, this.directory, this.now := cfg, accumulator, directory, now;
      slept, posted := 0, [];
      history := Started(cfg, State(now, map[], Idle, directory, Ledger([], [], [], [], postsOf)));
    }

    /** A request goroutine's recording, between two activities of the reporter. */
    method Record(key: string, model: string, delta: Counts)
      requires AtRest()
      modifies this`history, accumulator.Repr
      ensures AtRest()
      ensures accumulator.Contents() == Recorded(old(accumulator.Contents()), key, model, delta, now)
      ensures Last(history).ledger.recorded == old(Last(history)).ledger.recorded + [Call(key, model, delta)]
    {
      accumulator.RecordUsageWithModel(key, model, delta, now);
      history := Extended(history, Event.Record(Call(key, model, delta)));
    }

    /** One POST of `payload`: whether it was answered 2xx, and how long that took. */
    method Post(payload: Payload) returns (ok: bool, latency: nat)
      modifies this`now, this`posted
      ensures posted == old(posted) + [Exchange(payload, ok)] && now == old(now) + latency
    {
      ok, latency := *, *;
      now := now + latency;
      posted := posted + [Exchange(payload, ok)];
    }

    /**
       Succeeds only on a 2xx answer to its last POST, number `last`, which took `latency`. A failure
       has made every attempt it had and slept for exactly the linear backoff between them, or has
       sent nothing because the URL does not parse.
     */
    method SubmitWithRetry(records: Batch, attempt: nat) returns (failed: bool, ghost last: nat, ghost latency: nat)
      requires history.cfg == cfg && attempt < cfg.maxRetries
      requires records != [] ==> var p := Last(history).phase;
        p.Submitting? && p.records == records && p.attempt == attempt && Last(history).now == now
      modifies this`now, this`slept, this`posted, this`history
      ensures records == [] ==>
        !failed && posted == old(posted) && slept == old(slept) && history == old(history) && now == old(now)
      ensures records != [] ==> var s, s' := old(Last(history)), Last(history);
        && history.cfg == cfg && attempt <= last < cfg.maxRetries && now == s'.now + latency
        && s' == s.(now := s'.now, phase := s.phase.(attempt := last, posts := s.phase.posts + last - attempt))
      ensures records != [] ==>
        if failed then last == (if cfg.urlParses then cfg.maxRetries - 1 else attempt) else cfg.urlParses
      ensures records != [] ==>
        && slept == old(slept) + Slept(cfg.retryBackoff, last) - Slept(cfg.retryBackoff, attempt)
        && posted == old(posted) + Failures(UsageData(records), last - attempt)
                   + (if cfg.urlParses then [Exchange(UsageData(records), !failed)] else [])
      decreases cfg.maxRetries - attempt
    {
      last, latency := attempt, 0;
      if |records| == 0 {
        failed := false;
        return;
      }
      var payload := BuildUsageData(records);
      if !cfg.urlParses {
        failed := true;
        return;
      }
      var ok, time := Post(payload);
      latency := time;
      if ok {
        failed := false;
        return;
      }
      if attempt < cfg.maxRetries - 1 {
        var pause := cfg.retryBackoff * (attempt + 1);
        now, slept := now + pause, slept + pause;
        history := Extended(history, Retry(time));
        failed, last, latency := SubmitWithRetry(records, attempt + 1);
        assert Failures(payload, last - attempt) == [Exchange(payload, false)] + Failures(payload, last - attempt - 1);
        return;
      }
      failed := true;
    }

    /** A whole submission, from its first attempt. */
    method Submit(records: Batch) returns (failed: bool, ghost latency: nat)
      requires history.cfg == cfg && records != []
      requires var p := Last(history).phase;
        p.Submitting? && p.records == records && p.attempt == 0 && Last(history).now == now
      modifies this`now, this`slept, this`posted, this`history
      ensures history.cfg == cfg && now == Last(history).now + latency
      ensures var s, s' := old(Last(history)), Last(history);
        && s'.phase.Submitting? && s' == s.(now := s'.now, phase := s'.phase)
        && s'.phase.records == records && s'.phase.source == s.phase.source
      ensures Enabled(cfg, Last(history).(phase := Last(history).phase.(source := FromFlush)),
                      if failed then GiveUp(latency, 0) else Acknowledge(latency))
      ensures SubmissionTraffic(cfg, old(posted), posted, UsageData(records), failed)
      ensures failed && cfg.urlParses ==> slept == old(slept) + Slept(cfg.retryBackoff, cfg.maxRetries - 1)
    {
      ghost var last;
      failed, last, latency := SubmitWithRetry(records, 0);
      TrafficOfSubmission(cfg, old(posted), posted, UsageData(records), failed, last);
    }

    method PersistFailedReport(records: Batch, ghost latency: nat)
      requires Valid() && now == Last(history).now + latency
      requires var p := Last(history).phase; p.Submitting? && p.source.FromFlush? && p.records == records
      requires Enabled(cfg, Last(history), GiveUp(latency, 0))
      modifies this`now, this`directory, this`history
      ensures AtRest()
      ensures directory == old(directory)[FailedReportFile(UnixSeconds(now)) := FailedReport(old(now), records, 0)]
      ensures Last(history).ledger.acknowledged == old(Last(history)).ledger.acknowledged
    {
      var report := FailedReport(now, records, 0);
      var gap: nat := *;
      now := now + gap;
      directory := directory[FailedReportFile(UnixSeconds(now)) := report];
      history := Extended(history, GiveUp(latency, gap));
      assert Last(history).dir == directory;
    }

    /** Nothing is left to do for a batch that was delivered. */
    ghost method Deliver(records: Batch, latency: nat)
      requires Valid() && now == Last(history).now + latency
      requires var p := Last(history).phase; p.Submitting? && p.source.FromFlush? && p.records == records
      requires Enabled(cfg, Last(history), Acknowledge(latency))
      modifies this`history
      ensures AtRest()
      ensures Acknowledges(old(Last(history)).ledger.acknowledged, Last(history).ledger.acknowledged, records)
    {
      history := Extended(history, Acknowledge(latency));
      assert Last(history).dir == directory;
    }

    /** The second half of a cycle with something to report: deliver the batch or write it to disk. */
    method SubmitOrPersist(records: Batch)
      requires Valid() && now == Last(history).now && records != []
      requires Last(history).phase == Submitting(FromFlush, records, 0, 0)
      modifies this`now, this`slept, this`posted, this`directory, this`history
      ensures AtRest()
      ensures var l, l' := old(Last(history)).ledger, Last(history).ledger;
        || (&& directory == old(directory) && Acknowledges(l.acknowledged, l'.acknowledged, records)
            && SubmissionTraffic(cfg, old(posted), posted, UsageData(records), false))
        || (&& l'.acknowledged == l.acknowledged && IsPersisted(directory, old(directory), UnixSeconds(now), records)
            && SubmissionTraffic(cfg, old(posted), posted, UsageData(records), true))
    {
      RunKeepsInv(cfg, history.states, history.events, |history.events|);
      var failed, latency := Submit(records);
      if failed {
        PersistFailedReport(records, latency);
      } else {
        Deliver(records, latency);
      }
    }

    /** Takes everything accumulated; nothing is in progress when there was nothing. */
    method FlushIntoRecords() returns (records: Batch)
      requires AtRest()
      modifies this`history, accumulator
      ensures Valid() && accumulator.Contents() == map[] && now == Last(history).now
      ensures Last(history).ledger == old(Last(history)).ledger
      ensures old(accumulator.Contents()) == map[] ==> records == [] && history == old(history)
      ensures old(accumulator.Contents()) != map[] ==>
        && RecordsOf(old(accumulator.Contents()), records) && records != []
        && Last(history).phase == Submitting(FromFlush, records, 0, 0)
    {
      records := [];
      var usage := accumulator.FlushUsage();
      if |usage| == 0 {
        assert CopiesValue(usage) == map[];
        return;
      }
      ghost var key :| key in usage;
      assert key in CopiesValue(usage);
      records := BuildRecords(usage);
      assert Lists(records, key);
      history := Extended(history, Flush(records));
    }

    /** Everything accumulated is acknowledged or persisted, in a file named after the current second. */
    method ProcessCurrentUsage() returns (ghost batch: Batch)
      requires AtRest()
      modifies this`now, this`slept, this`posted, this`directory, this`history, accumulator
      ensures AtRest() && accumulator.Contents() == map[]
      ensures old(accumulator.Contents()) == map[] ==>
          batch == [] && posted == old(posted) && directory == old(directory)
      ensures old(accumulator.Contents()) != map[] ==> RecordsOf(old(accumulator.Contents()), batch)
      ensures old(accumulator.Contents()) != map[] ==> var l, l' := old(Last(history)).ledger, Last(history).ledger;
        || (&& directory == old(directory) && Acknowledges(l.acknowledged, l'.acknowledged, batch)
            && SubmissionTraffic(cfg, old(posted), posted, UsageData(batch), false))
        || (&& l'.acknowledged == l.acknowledged && IsPersisted(directory, old(directory), UnixSeconds(now), batch)
            && SubmissionTraffic(cfg, old(posted), posted, UsageData(batch), true))
    {
      var records := FlushIntoRecords();
      batch := records;
      if |records| != 0 {
        SubmitOrPersist(records);
      }
    }

    /** Ends the submission of a file: rewrite it with one more retry, or remove it. */
    method SettleFile(name: FileName, report: FailedReport, failed: bool, ghost latency: nat)
      requires Valid() && name in directory && directory[name] == report && now == Last(history).now + latency
      requires Last(history).phase.Submitting? && Last(history).phase.source == FromFile(name)
      requires Enabled(cfg, Last(history), if failed then GiveUp(latency, 0) else Acknowledge(latency))
      modifies this`directory, this`history
      ensures AtRest()
      ensures directory == if failed then old(directory)[name := report.(retries := report.retries + 1)]
                           else old(directory) - {name}
      ensures Last(history).phase == Idle
      ensures var l, l' := old(Last(history)).ledger, Last(history).ledger;
        && l'.discarded == l.discarded
        && l'.acknowledged == if failed then l.acknowledged
                              else l.acknowledged + [Sent(old(Last(history)).phase.records,
                                old(Last(history)).phase.posts + 1)]
    {
      if failed {
        directory := directory[name := report.(retries := report.retries + 1)];
        history := Extended(history, GiveUp(latency, 0));
      } else {
        directory := directory - {name};
        history := Extended(history, Acknowledge(latency));
      }
    }

    /** Re-submits one report read from its file; afterwards the file is gone, or says one more retry. */
    method Resubmit(name: FileName, report: FailedReport)
      requires AtRest() && name in directory && directory[name] == report && !Expired(cfg, report, now)
      modifies this`now, this`slept, this`posted, this`directory, this`history
      ensures AtRest()
      ensures || directory == old(directory) - {name}
              || directory == old(directory)[name := report.(retries := report.retries + 1)]
      ensures SubmissionTraffic(cfg, old(posted), posted, UsageData(report.records),
        directory != old(directory) - {name})
      ensures Settles(old(Last(history)).ledger, Last(history).ledger, report, name !in directory)
      ensures Last(history).ledger.discarded == old(Last(history)).ledger.discarded
      ensures cfg.urlParses ==> |posted| > |old(posted)|
    {
      RunKeepsInv(cfg, history.states, history.events, |history.events|);
      assert GoodFile(cfg, now, name, report, Last(history).ledger.postsOf[name]);
      history := Extended(history, Open(name));
      var failed, latency := Submit(report.records);
      SubmissionGrows(cfg, old(posted), posted, UsageData(report.records), failed);
      SettleFile(name, report, failed, latency);
    }

    /** One failed report: an expired one is removed without a POST, any other is re-submitted. */
    method RetryFailedReport(name: FileName)
      requires AtRest()
      modifies this`now, this`slept, this`posted, this`directory, this`history
      ensures AtRest()
      ensures name !in old(directory) ==> directory == old(directory) && posted == old(posted)
      ensures name in old(directory) && Expired(cfg, old(directory)[name], old(now)) ==>
        directory == old(directory) - {name} && posted == old(posted)
      ensures name in old(directory) && !Expired(cfg, old(directory)[name], old(now)) ==>
        var report := old(directory)[name];
        && (|| directory == old(directory) - {name}
            || directory == old(directory)[name := report.(retries := report.retries + 1)])
        && SubmissionTraffic(cfg, old(posted), posted, UsageData(report.records), directory != old(directory) - {name})
      ensures name in old(directory) ==>
        Settles(old(Last(history)).ledger, Last(history).ledger, old(directory)[name], name !in directory)
      ensures name !in old(directory) ==> history == old(history)
      ensures name in old(directory) ==>
        var report := old(directory)[name];
        var was, now' := old(Last(history)).ledger.discarded, Last(history).ledger.discarded;
        if old(now) - report.timestamp > 86_400_000_000_000 || report.retries >= cfg.maxRetries then
          name !in directory && posted == old(posted) && now' == was + [Dropped(report, old(now))]
        else
          now' == was && (cfg.urlParses ==> |posted| > |old(posted)|)
    {
      if name !in directory {
        return;
      }
      var report := directory[name];
      if now - report.timestamp > DAY || report.retries >= cfg.maxRetries {
        directory := directory - {name};
        history := Extended(history, Open(name));
        return;
      }
      Resubmit(name, report);
    }

    /** In a pass over the directory as it was, with the files `todo` still to be read. */
    ghost predicate InPass(todo: set<FileName>, was: map<FileName, FailedReport>, start: Ledger, sent: seq<Exchange>)
      reads this`directory, this`history, this`posted
    {
      && |todo| <= |was| && PostsReports(cfg, was, sent, posted, |was| - |todo|)
      && todo <= directory.Keys <= was.Keys && Extends(start, Last(history).ledger)
      && (forall name :: name in directory ==>
            directory[name] == if name in todo then was[name] else was[name].(retries := was[name].retries + 1))
      && (forall name :: name in was && name !in directory ==> IsSettled(start, Last(history).ledger, was[name]))
    }

    method RetryNext(name: FileName, ghost todo: set<FileName>, ghost was: map<FileName, FailedReport>,
        ghost start: Ledger, ghost sent: seq<Exchange>)
      requires AtRest() && InPass(todo, was, start, sent) && name in todo
      modifies this`now, this`slept, this`posted, this`directory, this`history
      ensures AtRest() && InPass(todo - {name}, was, start, sent)
    {
      ghost var report, before := directory[name], Last(history).ledger;
      RetryFailedReport(name);
      SubmissionPostsReports(cfg, was, sent, old(posted), posted, |was| - |todo|, name, name in directory);
      assert |todo - {name}| == |todo| - 1;
      forall other: FailedReport
        ensures Extends(start, Last(history).ledger)
        ensures name !in directory ==> IsSettled(start, Last(history).ledger, report)
        ensures IsSettled(start, before, other) ==> IsSettled(start, Last(history).ledger, other)
      {
        SettlesAlso(start, before, Last(history).ledger, report, name !in directory, other);
      }
    }

    method RetryEach(ghost was: map<FileName, FailedReport>, ghost start: Ledger, ghost sent: seq<Exchange>)
      requires AtRest() && directory == was && Last(history).ledger == start && posted == sent
      modifies this`now, this`slept, this`posted, this`directory, this`history
      ensures AtRest() && InPass({}, was, start, sent)
    {
      var todo := directory.Keys;
      while todo != {}
        invariant AtRest() && InPass(todo, was, start, sent)
        decreases todo
      {
        var name :| name in todo;
        RetryNext(name, todo, was, start, sent);
        todo := todo - {name};
      }
    }

    /**
       One pass over the directory: no file appears, each that stays has one more retry on it, and each
       that is gone was acknowledged or discarded in this pass. Only its reports are posted, and no more
       than R times each.
     */
    method RetryFailedReports()
      requires AtRest()
      modifies this`now, this`slept, this`posted, this`directory, this`history
      ensures AtRest()
      ensures forall name :: name in directory ==>
        name in old(directory) && directory[name] == old(directory)[name].(retries := old(directory)[name].retries + 1)
      ensures forall name :: name in old(directory) && name !in directory ==>
        IsSettled(old(Last(history)).ledger, Last(history).ledger, old(directory)[name])
      ensures PostsReports(cfg, old(directory), old(posted), posted, |old(directory)|)
    {
      RetryEach(directory, Last(history).ledger, posted);
    }

    /** Conservation, read off the object: for every cell, everything recorded through it is accounted for. */
    lemma Conserves(c: Cell)
      requires AtRest()
      ensures RecordedCell(Last(history).ledger.recorded, c) + DirCell(history.states[0].dir, c)
           == UsageCell(accumulator.Contents(), c) + DirCell(directory, c)
              + SentCell(Last(history).ledger.acknowledged, c) + DroppedCell(Last(history).ledger.discarded, c)
              + OverwrittenCell(Last(history).ledger.overwritten, c)
    {
      Conservation(cfg, history.states, history.events, |history.events|, c);
    }
  }
}
