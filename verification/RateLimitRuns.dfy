/**
 Whole runs of the rate limiter: any number of clients check, work and later record or give up, with
 cleanups and the passing of time in between, in any order. Every operation is one critical section.
 */
module RateLimitRuns {
  import opened Wrappers
  import opened MapSum
  import opened RateLimiter

  /** A request that passed its check and has not recorded its usage yet. */
  datatype Ticket = Ticket(key: string, estimate: nat)

  datatype State = State(now: int, windows: Windows, inFlight: map<nat, Ticket>)

  datatype Event =
    | Pass(time: nat)
    | Check(id: nat, ticket: Ticket, verdict: Verdict)
    | Record(id: nat, actual: nat)
    | Abandon(id: nat)
    | Cleanup

  ghost predicate Follows(cfg: Config, s: State, e: Event, s': State) {
    match e
    case Pass(time) => s' == s.(now := s.now + time)
    case Check(id, t, v) =>
      && id !in s.inFlight
      && IsCheck(cfg, s.windows, t.key, t.estimate, s.now, s'.windows, v)
      && s' == State(s.now, s'.windows, if v.Allowed? then s.inFlight[id := t] else s.inFlight)
    case Record(id, actual) =>
      && id in s.inFlight && actual <= s.inFlight[id].estimate
      && IsRecord(cfg, s.windows, s.inFlight[id].key, actual, s.now, s'.windows)
      && s' == State(s.now, s'.windows, s.inFlight - {id})
    case Abandon(id) => s' == s.(inFlight := s.inFlight - {id})
    case Cleanup => IsCleanup(s.windows, s.now, s'.windows) && s' == s.(windows := s'.windows)
  }

  datatype History = History(cfg: Config, states: seq<State>, events: seq<Event>)

  ghost predicate IsRun(h: History) {
    && |h.states| == |h.events| + 1
    && h.states[0].windows == map[] && h.states[0].inFlight == map[]
    && forall i :: 0 <= i < |h.events| ==> Follows(h.cfg, h.states[i], h.events[i], h.states[i + 1])
  }

  /** A run from an empty limiter. */
  type Run = h: History | IsRun(h) ghost witness History(Config(0, 0, 0), [State(0, map[], map[])], [])

  ghost function Length(run: Run): nat {
    |run.events|
  }

  ghost function StateAt(run: Run, i: nat): State
    requires i <= Length(run)
  {
    run.states[i]
  }

  ghost function EventAt(run: Run, i: nat): Event
    requires i < Length(run)
  {
    run.events[i]
  }

  lemma RunSteps(run: Run, i: nat)
    requires i < Length(run)
    ensures Follows(run.cfg, StateAt(run, i), EventAt(run, i), StateAt(run, i + 1))
  {
  }

  lemma RunBegins(run: Run)
    ensures StateAt(run, 0).windows == map[] && StateAt(run, 0).inFlight == map[]
  {
  }

  // ----- requests in flight ----------------------------------------------------------------------

  ghost function Estimates(s: State, key: string): map<nat, int> {
    map id | id in s.inFlight && s.inFlight[id].key == key :: s.inFlight[id].estimate
  }

  ghost function Pending(s: State, key: string): int {
    Sum(Estimates(s, key))
  }

  /** The hypothesis on clients: at most `k` requests of the key in flight, each estimated at most `e`. */
  ghost predicate Restrained(s: State, key: string, k: nat, e: nat) {
    && |Estimates(s, key)| <= k
    && forall id :: id in s.inFlight && s.inFlight[id].key == key ==> s.inFlight[id].estimate <= e
  }

  ghost predicate AllRestrained(run: Run, key: string, k: nat, e: nat) {
    forall i :: 0 <= i <= Length(run) ==> Restrained(StateAt(run, i), key, k, e)
  }

  /** The bound on tokens used and in flight: the limit, and `e` for every request but one. */
  function Cap(limit: int, k: nat, e: nat): int
    requires k >= 1
  {
    limit + Times(k - 1, e)
  }

  lemma PendingAfterTake(s: State, s': State, id: nat, key: string)
    requires id in s.inFlight && s'.inFlight == s.inFlight - {id}
    ensures Pending(s', key) == Pending(s, key) - if s.inFlight[id].key == key then s.inFlight[id].estimate else 0
    ensures Pending(s', key) >= 0
  {
    if s.inFlight[id].key == key {
      SumTakes(Estimates(s, key), id);
      assert Estimates(s', key) == Estimates(s, key) - {id};
    } else {
      assert Estimates(s', key) == Estimates(s, key);
    }
    SumNonNegative(Estimates(s', key));
  }

  /** A request let in finds at most `k - 1` others in flight. */
  lemma PendingAfterPut(s: State, s': State, id: nat, t: Ticket, key: string, k: nat, e: nat)
    requires k >= 1 && id !in s.inFlight && s'.inFlight == s.inFlight[id := t]
    requires Restrained(s', key, k, e)
    ensures t.key != key ==> Pending(s', key) == Pending(s, key)
    ensures t.key == key ==> Pending(s', key) == Pending(s, key) + t.estimate && Pending(s, key) <= Times(k - 1, e)
  {
    if t.key == key {
      var others := Estimates(s, key);
      EstimatesPut(s, s', id, t);
      SumUpdate(others, id, t.estimate);
      forall i | i in others ensures others[i] <= e {
        assert i in s'.inFlight && others[i] == s'.inFlight[i].estimate;
      }
      SumAtMost(others, e);
      TimesMonotone(|others|, k - 1, e);
    } else {
      assert Estimates(s', key) == Estimates(s, key);
    }
  }

  lemma EstimatesPut(s: State, s': State, id: nat, t: Ticket)
    requires id !in s.inFlight && s'.inFlight == s.inFlight[id := t]
    ensures Estimates(s', t.key) == Estimates(s, t.key)[id := t.estimate]
    ensures |Estimates(s', t.key)| == |Estimates(s, t.key)| + 1
  {
    assert Estimates(s', t.key) == Estimates(s, t.key)[id := t.estimate];
    assert Estimates(s', t.key).Keys == Estimates(s, t.key).Keys + {id};
  }

  // ----- one window's life -----------------------------------------------------------------------

  /**
     Bookkeeping for one key and kind: when its latest window began, and the tokens recorded for the
     key since, whether the window was charged with them or they were dropped.
   */
  datatype Meter = Meter(start: Option<int>, charged: int)

  ghost function NextMeter(cfg: Config, key: string, k: Kind, s: State, e: Event, m: Meter): Meter {
    var live := Live(WindowOf(s.windows, key, k), s.now);
    match e
    case Check(_, t, _) =>
      if t.key == key && !live && Reached(cfg, s.windows, key, k, t.estimate, s.now) then Meter(Some(s.now), 0) else m
    case Record(id, actual) =>
      if id !in s.inFlight || s.inFlight[id].key != key then m
      else if key in s.windows && !live then Meter(Some(s.now), actual)
      else m.(charged := m.charged + actual)
    case _ => m
  }

  ghost predicate MeterOk(cfg: Config, key: string, k: Kind, cap: int, s: State, m: Meter) {
    var o := WindowOf(s.windows, key, k);
    && 0 <= m.charged && m.charged + Pending(s, key) <= cap && 0 <= Pending(s, key)
    && (o.Some? ==> m.start == Some(o.value.resetTime - Duration(k)) && o.value.tokensUsed == m.charged)
    && (m.start.Some? ==> m.start.value <= s.now && (o.None? ==> m.start.value + Duration(k) <= s.now))
  }

  lemma CheckKeepsMeter(cfg: Config, key: string, k: Kind, n: nat, est: nat, s: State, e: Event, s': State, m: Meter)
    requires cfg.Limit(k) > 0 && n >= 1 && e.Check? && Follows(cfg, s, e, s') && Restrained(s', key, n, est)
    requires MeterOk(cfg, key, k, Cap(cfg.Limit(k), n, est), s, m)
    ensures MeterOk(cfg, key, k, Cap(cfg.Limit(k), n, est), s', NextMeter(cfg, key, k, s, e, m))
  {
    if e.verdict.Allowed? {
      PendingAfterPut(s, s', e.id, e.ticket, key, n, est);
    }
    if e.ticket.key == key {
      OwnCheckKeepsMeter(cfg, key, k, n, est, s, e, s', m);
    } else {
      assert WindowOf(s'.windows, key, k) == WindowOf(s.windows, key, k);
    }
  }

  lemma OwnCheckKeepsMeter(cfg: Config, key: string, k: Kind, n: nat, est: nat, s: State, e: Event, s': State, m: Meter)
    requires cfg.Limit(k) > 0 && n >= 1 && e.Check? && e.ticket.key == key && Follows(cfg, s, e, s')
    requires e.verdict.Allowed? ==>
        Pending(s', key) == Pending(s, key) + e.ticket.estimate && Pending(s, key) <= Times(n - 1, est)
    requires MeterOk(cfg, key, k, Cap(cfg.Limit(k), n, est), s, m)
    ensures MeterOk(cfg, key, k, Cap(cfg.Limit(k), n, est), s', NextMeter(cfg, key, k, s, e, m))
  {
    if e.verdict.Allowed? {
      assert Fits(cfg, s.windows, key, k, e.ticket.estimate, s.now);
      assert Reached(cfg, s.windows, key, k, e.ticket.estimate, s.now);
    } else {
      assert Estimates(s', key) == Estimates(s, key);
    }
  }

  lemma RecordKeepsMeter(cfg: Config, key: string, k: Kind, cap: int, s: State, e: Event, s': State, m: Meter)
    requires cfg.Limit(k) > 0 && e.Record? && Follows(cfg, s, e, s')
    requires MeterOk(cfg, key, k, cap, s, m)
    ensures MeterOk(cfg, key, k, cap, s', NextMeter(cfg, key, k, s, e, m))
  {
    PendingAfterTake(s, s', e.id, key);
    if s.inFlight[e.id].key != key {
      assert WindowOf(s'.windows, key, k) == WindowOf(s.windows, key, k);
    }
  }

  lemma OtherStepsKeepMeter(cfg: Config, key: string, k: Kind, cap: int, s: State, e: Event, s': State, m: Meter)
    requires (e.Pass? || e.Abandon? || e.Cleanup?) && Follows(cfg, s, e, s')
    requires MeterOk(cfg, key, k, cap, s, m)
    ensures MeterOk(cfg, key, k, cap, s', m)
  {
    if e.Abandon? && e.id in s.inFlight {
      PendingAfterTake(s, s', e.id, key);
    } else {
      assert s'.inFlight == s.inFlight;
      assert Estimates(s', key) == Estimates(s, key);
    }
  }

  lemma StepKeepsMeter(run: Run, key: string, k: Kind, n: nat, est: nat, i: nat, m: Meter)
    requires i < Length(run) && Restrained(StateAt(run, i + 1), key, n, est)
    requires run.cfg.Limit(k) > 0 && n >= 1
    requires MeterOk(run.cfg, key, k, Cap(run.cfg.Limit(k), n, est), StateAt(run, i), m)
    ensures MeterOk(run.cfg, key, k, Cap(run.cfg.Limit(k), n, est), StateAt(run, i + 1),
                    NextMeter(run.cfg, key, k, StateAt(run, i), EventAt(run, i), m))
  {
    RunSteps(run, i);
    var cap, s, e, s' := Cap(run.cfg.Limit(k), n, est), StateAt(run, i), EventAt(run, i), StateAt(run, i + 1);
    if e.Check? {
      CheckKeepsMeter(run.cfg, key, k, n, est, s, e, s', m);
    } else if e.Record? {
      RecordKeepsMeter(run.cfg, key, k, cap, s, e, s', m);
    } else {
      OtherStepsKeepMeter(run.cfg, key, k, cap, s, e, s', m);
    }
  }

  ghost function MeterAt(run: Run, key: string, k: Kind, i: nat): Meter
    requires i <= Length(run)
  {
    if i == 0 then Meter(None, 0)
    else NextMeter(run.cfg, key, k, StateAt(run, i - 1), EventAt(run, i - 1), MeterAt(run, key, k, i - 1))
  }

  /** The meter at `i`, under the cap of `n` requests of at most `est` each. */
  ghost predicate MeterHolds(run: Run, key: string, k: Kind, n: nat, est: nat, i: nat)
    requires i <= Length(run) && n >= 1
  {
    MeterOk(run.cfg, key, k, Cap(run.cfg.Limit(k), n, est), StateAt(run, i), MeterAt(run, key, k, i))
  }

  lemma MeterBegins(run: Run, key: string, k: Kind, n: nat, est: nat)
    requires run.cfg.Limit(k) > 0 && n >= 1
    ensures MeterHolds(run, key, k, n, est, 0)
  {
    RunBegins(run);
    assert Estimates(StateAt(run, 0), key) == map[];
  }

  lemma StepHolds(run: Run, key: string, k: Kind, n: nat, est: nat, i: nat)
    requires i < Length(run) && run.cfg.Limit(k) > 0 && n >= 1
    requires Restrained(StateAt(run, i + 1), key, n, est) && MeterHolds(run, key, k, n, est, i)
    ensures MeterHolds(run, key, k, n, est, i + 1)
  {
    StepKeepsMeter(run, key, k, n, est, i, MeterAt(run, key, k, i));
  }

  lemma {:induction false} RunHolds(run: Run, key: string, k: Kind, n: nat, est: nat, i: nat)
    requires i <= Length(run) && run.cfg.Limit(k) > 0 && n >= 1
    requires forall j :: 0 < j <= i ==> Restrained(StateAt(run, j), key, n, est)
    ensures MeterHolds(run, key, k, n, est, i)
  {
    if i == 0 {
      MeterBegins(run, key, k, n, est);
    } else {
      RunHolds(run, key, k, n, est, i - 1);
      StepHolds(run, key, k, n, est, i - 1);
    }
  }

  lemma {:induction false} RunKeepsMeter(run: Run, key: string, k: Kind, n: nat, est: nat, i: nat)
    requires i <= Length(run)
    requires run.cfg.Limit(k) > 0 && n >= 1 && AllRestrained(run, key, n, est)
    ensures MeterOk(run.cfg, key, k, Cap(run.cfg.Limit(k), n, est), StateAt(run, i), MeterAt(run, key, k, i))
  {
    RunHolds(run, key, k, n, est, i);
  }

  /**
     The in-flight invariant: in every reachable state, whatever resets, cleanups and records came
     before, what a configured window has used and what is in flight stay within the cap.
   */
  lemma InFlightBound(run: Run, key: string, k: Kind, n: nat, est: nat, i: nat)
    requires i <= Length(run)
    requires run.cfg.Limit(k) > 0 && n >= 1 && AllRestrained(run, key, n, est)
    ensures var o := WindowOf(StateAt(run, i).windows, key, k);
      o.Some? ==>
        && 0 <= o.value.tokensUsed && 0 <= Pending(StateAt(run, i), key)
        && o.value.tokensUsed + Pending(StateAt(run, i), key) <= run.cfg.Limit(k) + (n - 1) * est
  {
    RunKeepsMeter(run, key, k, n, est, i);
    TimesIsProduct(n - 1, est);
  }

  /** With the checks and records of a key strictly alternating, no window is ever over its limit. */
  lemma AlternatingNeverExceeds(run: Run, key: string, k: Kind, est: nat, i: nat)
    requires i <= Length(run)
    requires run.cfg.Limit(k) > 0 && AllRestrained(run, key, 1, est)
    ensures var o := WindowOf(StateAt(run, i).windows, key, k); o.Some? ==> o.value.tokensUsed <= run.cfg.Limit(k)
  {
    InFlightBound(run, key, k, 1, est, i);
  }

  // ----- any interval of one window length -------------------------------------------------------

  ghost function RecordedNow(key: string, s: State, e: Event): int {
    if e.Record? && e.id in s.inFlight && s.inFlight[e.id].key == key then e.actual else 0
  }

  /** Of those, the ones recorded in the half-open interval of length `d` from `t`. */
  ghost function RecordedWithin(key: string, t: int, d: int, s: State, e: Event): int {
    if t <= s.now < t + d then RecordedNow(key, s, e) else 0
  }

  /** Tokens recorded for the key in that interval by the first `i` events, dropped ones included. */
  ghost function RecordedIn(run: Run, key: string, t: int, d: int, i: nat): int
    requires i <= Length(run)
  {
    if i == 0 then 0
    else RecordedIn(run, key, t, d, i - 1) + RecordedWithin(key, t, d, StateAt(run, i - 1), EventAt(run, i - 1))
  }

  /** Which windows the tokens of the interval were recorded in: the current one, it and one before, or both gone. */
  ghost predicate IntervalOk(t: int, d: int, cap: int, now: int, m: Meter, x: int) {
    && (now < t ==> x == 0)
    && (m.start.None? || m.start.value < t ==> x <= m.charged)
    && (m.start.Some? && t <= m.start.value < t + d ==> x <= cap + m.charged)
    && (m.start.Some? && t + d <= m.start.value ==> x <= 2 * cap)
  }

  lemma StepKeepsInterval(run: Run, key: string, k: Kind, cap: int, t: int, i: nat, m: Meter, x: int)
    requires i < Length(run) && run.cfg.Limit(k) > 0
    requires MeterOk(run.cfg, key, k, cap, StateAt(run, i), m)
    requires IntervalOk(t, Duration(k), cap, StateAt(run, i).now, m, x)
    ensures IntervalOk(t, Duration(k), cap, StateAt(run, i + 1).now,
                       NextMeter(run.cfg, key, k, StateAt(run, i), EventAt(run, i), m),
                       x + RecordedWithin(key, t, Duration(k), StateAt(run, i), EventAt(run, i)))
  {
    RunSteps(run, i);
    var m' := NextMeter(run.cfg, key, k, StateAt(run, i), EventAt(run, i), m);
    if m'.start != m.start && m.start.Some? {
      assert m.start.value + Duration(k) <= StateAt(run, i).now;
    }
  }

  ghost predicate IntervalOkAt(run: Run, key: string, k: Kind, cap: int, t: int, i: nat)
    requires i <= Length(run)
  {
    IntervalOk(t, Duration(k), cap, StateAt(run, i).now, MeterAt(run, key, k, i),
               RecordedIn(run, key, t, Duration(k), i))
  }

  lemma StepKeepsIntervalAt(run: Run, key: string, k: Kind, cap: int, t: int, i: nat)
    requires i < Length(run) && run.cfg.Limit(k) > 0
    requires MeterOk(run.cfg, key, k, cap, StateAt(run, i), MeterAt(run, key, k, i))
    requires IntervalOkAt(run, key, k, cap, t, i)
    ensures IntervalOkAt(run, key, k, cap, t, i + 1)
  {
    var m, x := MeterAt(run, key, k, i), RecordedIn(run, key, t, Duration(k), i);
    StepKeepsInterval(run, key, k, cap, t, i, m, x);
    assert MeterAt(run, key, k, i + 1) == NextMeter(run.cfg, key, k, StateAt(run, i), EventAt(run, i), m);
    assert RecordedIn(run, key, t, Duration(k), i + 1)
        == x + RecordedWithin(key, t, Duration(k), StateAt(run, i), EventAt(run, i));
  }

  ghost predicate MeterOkAt(run: Run, key: string, k: Kind, cap: int, i: nat)
    requires i <= Length(run)
  {
    MeterOk(run.cfg, key, k, cap, StateAt(run, i), MeterAt(run, key, k, i))
  }

  lemma {:induction false} RunKeepsInterval(run: Run, key: string, k: Kind, cap: int, t: int, i: nat)
    requires i <= Length(run) && run.cfg.Limit(k) > 0
    requires forall j: nat :: j <= Length(run) ==> MeterOkAt(run, key, k, cap, j)
    ensures IntervalOkAt(run, key, k, cap, t, i)
  {
    if i > 0 {
      RunKeepsInterval(run, key, k, cap, t, i - 1);
      assert MeterOkAt(run, key, k, cap, i - 1);
      StepKeepsIntervalAt(run, key, k, cap, t, i - 1);
    }
  }

  /**
     The sliding bound: the tokens recorded for a key in any half-open interval as long as a window,
     aligned with nothing, are at most twice the cap, because windows begin at least that far apart.
   */
  lemma SlidingIntervalBound(run: Run, key: string, k: Kind, n: nat, est: nat, t: int)
    requires run.cfg.Limit(k) > 0 && n >= 1 && AllRestrained(run, key, n, est)
    ensures RecordedIn(run, key, t, Duration(k), Length(run)) <= 2 * (run.cfg.Limit(k) + (n - 1) * est)
  {
    var cap := Cap(run.cfg.Limit(k), n, est);
    forall j: nat | j <= Length(run) ensures MeterOkAt(run, key, k, cap, j) {
      RunKeepsMeter(run, key, k, n, est, j);
    }
    RunKeepsInterval(run, key, k, cap, t, Length(run));
    assert MeterOkAt(run, key, k, cap, Length(run));
    TimesIsProduct(n - 1, est);
  }
}
