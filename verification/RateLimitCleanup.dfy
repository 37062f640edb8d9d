/**
 When cleaning up is invisible: a limiter whose `CleanupExpiredWindows` fires at arbitrary moments,
 side by side with one that never cleans up, both serving the same calls.
 */
module RateLimitCleanup {
  import opened Wrappers
  import opened RateLimiter

  datatype Op =
    | Check(key: string, tokens: int)
    | Record(key: string, tokens: int)
    | Status(key: string)
    | Cleanup

  datatype Call = Call(op: Op, now: int)

  datatype Answer = Verdict(v: RateLimiter.Verdict) | StatusIs(s: map<Kind, StatusEntry>) | Silent

  /** One call on a limiter; `cleans` says whether this limiter performs cleanups. */
  ghost predicate Serves(cfg: Config, cleans: bool, w: Windows, c: Call, w': Windows, a: Answer) {
    match c.op
    case Check(key, tokens) => a.Verdict? && IsCheck(cfg, w, key, tokens, c.now, w', a.v)
    case Record(key, tokens) => a.Silent? && IsRecord(cfg, w, key, tokens, c.now, w')
    case Status(key) => a.StatusIs? && w' == w && IsStatus(cfg, w, key, c.now, a.s)
    case Cleanup => a.Silent? && if cleans then IsCleanup(w, c.now, w') else w' == w
  }

  /** The states and answers of one limiter serving `calls`. */
  datatype Session = Session(windows: seq<Windows>, answers: seq<Answer>)

  ghost predicate IsSession(cfg: Config, cleans: bool, calls: seq<Call>, s: Session) {
    && |s.windows| == |calls| + 1 && |s.answers| == |calls| && s.windows[0] == map[]
    && forall i :: 0 <= i < |calls| ==> Serves(cfg, cleans, s.windows[i], calls[i], s.windows[i + 1], s.answers[i])
  }

  /**
     The moments to avoid: a cleanup at the exact reset time of some window (a check would still have
     used it), and, if any limit is configured, a recording for a key whose whole entry has been
     cleaned away (it would be dropped).
   */
  ghost predicate Harmless(cfg: Config, w: Windows, u: Windows, c: Call) {
    match c.op
    case Cleanup =>
      forall key: string, k: Kind :: WindowOf(w, key, k).Some? ==> WindowOf(w, key, k).value.resetTime != c.now
    case Record(key, _) => (key in u ==> key in w) || forall k: Kind :: cfg.Limit(k) <= 0
    case _ => true
  }

  /** `w` is `u` without some windows that are past their reset time. */
  ghost predicate Simulates(w: Windows, u: Windows, now: int) {
    && w.Keys <= u.Keys
    && forall key: string, k: Kind ::
         WindowOf(w, key, k) == WindowOf(u, key, k)
         || (WindowOf(w, key, k).None? && WindowOf(u, key, k).value.resetTime < now)
  }

  lemma SameEffective(w: Windows, u: Windows, now: int, key: string, k: Kind)
    requires Simulates(w, u, now)
    ensures var a, b := WindowOf(w, key, k), WindowOf(u, key, k);
      && Live(a, now) == Live(b, now) && UsedNow(a, now) == UsedNow(b, now) && Renewed(a, k, now) == Renewed(b, k, now)
  {
    var a, b := WindowOf(w, key, k), WindowOf(u, key, k);
    assert a == b || (a.None? && b.value.resetTime < now);
  }

  lemma SameJudgement(cfg: Config, w: Windows, u: Windows, key: string, tokens: int, now: int)
    requires Simulates(w, u, now)
    ensures forall k: Kind :: Fits(cfg, w, key, k, tokens, now) == Fits(cfg, u, key, k, tokens, now)
    ensures forall k: Kind :: RejectedBy(cfg, w, key, k, now) == RejectedBy(cfg, u, key, k, now)
    ensures forall k: Kind :: Reached(cfg, w, key, k, tokens, now) == Reached(cfg, u, key, k, tokens, now)
  {
    forall k: Kind
      ensures Fits(cfg, w, key, k, tokens, now) == Fits(cfg, u, key, k, tokens, now)
      ensures RejectedBy(cfg, w, key, k, now) == RejectedBy(cfg, u, key, k, now)
    {
      SameEffective(w, u, now, key, k);
    }
  }

  lemma CheckAnswersAgree(cfg: Config, w: Windows, u: Windows, key: string, tokens: int, now: int,
                          w': Windows, v: RateLimiter.Verdict, u': Windows, x: RateLimiter.Verdict)
    requires Simulates(w, u, now)
    requires IsCheck(cfg, w, key, tokens, now, w', v) && IsCheck(cfg, u, key, tokens, now, u', x)
    ensures v == x
  {
    SameJudgement(cfg, w, u, key, tokens, now);
    if v.Exceeded? {
      assert !Fits(cfg, u, key, v.kind, tokens, now) && Reached(cfg, u, key, v.kind, tokens, now);
      assert Rank(v.kind) <= Rank(x.kind) && Rank(x.kind) <= Rank(v.kind);
    }
  }

  lemma CheckSimulates(cfg: Config, w: Windows, u: Windows, key: string, tokens: int, now: int,
                       w': Windows, v: RateLimiter.Verdict, u': Windows, x: RateLimiter.Verdict)
    requires Simulates(w, u, now)
    requires IsCheck(cfg, w, key, tokens, now, w', v) && IsCheck(cfg, u, key, tokens, now, u', x)
    ensures Simulates(w', u', now)
  {
    SameJudgement(cfg, w, u, key, tokens, now);
    forall o: string, k: Kind
      ensures WindowOf(w', o, k) == WindowOf(u', o, k)
           || (WindowOf(w', o, k).None? && WindowOf(u', o, k).value.resetTime < now)
    {
      if o == key {
        SameEffective(w, u, now, key, k);
      } else {
        assert WindowOf(w', o, k) == WindowOf(w, o, k) && WindowOf(u', o, k) == WindowOf(u, o, k);
      }
    }
  }

  /** One recording keeps the simulation exactly when it finds the key in both limiters, or charges nothing. */
  lemma RecordSimulatesIff(cfg: Config, w: Windows, u: Windows, key: string, tokens: int, now: int, w': Windows,
        u': Windows)
    requires Simulates(w, u, now)
    requires IsRecord(cfg, w, key, tokens, now, w') && IsRecord(cfg, u, key, tokens, now, u')
    ensures Simulates(w', u', now) <==> Harmless(cfg, w, u, Call(Record(key, tokens), now))
  {
    if Harmless(cfg, w, u, Call(Record(key, tokens), now)) {
      forall o: string, k: Kind
        ensures WindowOf(w', o, k) == WindowOf(u', o, k)
             || (WindowOf(w', o, k).None? && WindowOf(u', o, k).value.resetTime < now)
      {
        SameEffective(w, u, now, o, k);
        if o != key {
          assert WindowOf(w', o, k) == WindowOf(w, o, k) && WindowOf(u', o, k) == WindowOf(u, o, k);
        }
      }
    } else {
      var k: Kind :| cfg.Limit(k) > 0;
      assert WindowOf(w', key, k).None? && WindowOf(u', key, k) == Some(Charged(WindowOf(u, key, k), k, tokens, now));
    }
  }

  lemma StatusAgrees(cfg: Config, w: Windows, u: Windows, key: string, now: int,
                     s: map<Kind, StatusEntry>, t: map<Kind, StatusEntry>)
    requires Simulates(w, u, now)
    requires IsStatus(cfg, w, key, now, s) && IsStatus(cfg, u, key, now, t)
    ensures s == t
  {
    forall k: Kind ensures (k in s <==> k in t) && (k in s ==> s[k] == t[k]) {
      assert WindowOf(w, key, k) == WindowOf(u, key, k)
          || (WindowOf(w, key, k).None? && WindowOf(u, key, k).value.resetTime < now);
    }
  }

  /**
     One cleanup keeps the simulation exactly when no window left in the cleaned limiter resets at that very instant.
   */
  lemma CleanupSimulatesIff(cfg: Config, w: Windows, u: Windows, now: int, w': Windows)
    requires Simulates(w, u, now) && IsCleanup(w, now, w')
    ensures Simulates(w', u, now) <==> Harmless(cfg, w, u, Call(Cleanup, now))
  {
    if Harmless(cfg, w, u, Call(Cleanup, now)) {
      forall o: string, k: Kind
        ensures WindowOf(w', o, k) == WindowOf(u, o, k)
             || (WindowOf(w', o, k).None? && WindowOf(u, o, k).value.resetTime < now)
      {
        assert WindowOf(w, o, k) == WindowOf(u, o, k) || WindowOf(w, o, k).None?;
      }
    } else {
      var key: string, k: Kind :| WindowOf(w, key, k).Some? && WindowOf(w, key, k).value.resetTime == now;
      assert WindowOf(w, key, k) == WindowOf(u, key, k);
      assert WindowOf(w', key, k).None?;
    }
  }

  lemma StepSimulates(cfg: Config, w: Windows, u: Windows, c: Call, w': Windows, a: Answer, u': Windows, b: Answer)
    requires Simulates(w, u, c.now) && Harmless(cfg, w, u, c)
    requires Serves(cfg, true, w, c, w', a) && Serves(cfg, false, u, c, u', b)
    ensures a == b && Simulates(w', u', c.now)
  {
    match c.op
    case Check(key, tokens) =>
      CheckAnswersAgree(cfg, w, u, key, tokens, c.now, w', a.v, u', b.v);
      CheckSimulates(cfg, w, u, key, tokens, c.now, w', a.v, u', b.v);
    case Record(key, tokens) => RecordSimulatesIff(cfg, w, u, key, tokens, c.now, w', u');
    case Status(key) => StatusAgrees(cfg, w, u, key, c.now, a.s, b.s);
    case Cleanup => CleanupSimulatesIff(cfg, w, u, c.now, w');
  }

  ghost predicate Ordered(calls: seq<Call>) {
    forall i :: 0 < i < |calls| ==> calls[i - 1].now <= calls[i].now
  }

  ghost predicate HarmlessAt(cfg: Config, calls: seq<Call>, cleaned: Session, plain: Session, j: nat)
    requires j < |calls| && j < |cleaned.windows| && j < |plain.windows|
  {
    Harmless(cfg, cleaned.windows[j], plain.windows[j], calls[j])
  }

  lemma {:induction false} SessionSimulates(cfg: Config, calls: seq<Call>, cleaned: Session, plain: Session, i: nat)
    requires IsSession(cfg, true, calls, cleaned) && IsSession(cfg, false, calls, plain)
    requires Ordered(calls) && i < |calls|
    requires forall j :: 0 <= j < i ==> HarmlessAt(cfg, calls, cleaned, plain, j)
    ensures Simulates(cleaned.windows[i], plain.windows[i], calls[i].now)
  {
    if i > 0 {
      SessionSimulates(cfg, calls, cleaned, plain, i - 1);
      assert HarmlessAt(cfg, calls, cleaned, plain, i - 1);
      StepSimulates(cfg, cleaned.windows[i - 1], plain.windows[i - 1], calls[i - 1],
                    cleaned.windows[i], cleaned.answers[i - 1], plain.windows[i], plain.answers[i - 1]);
      assert Simulates(cleaned.windows[i], plain.windows[i], calls[i - 1].now);
    }
  }

  /**
     Cleanup is invisible: however often and whenever it fires, outside the two harmful moments, every
     check verdict, message and status of the cleaned limiter is the one the uncleaned limiter gives.
   */
  lemma CleanupIsInvisible(cfg: Config, calls: seq<Call>, cleaned: Session, plain: Session)
    requires IsSession(cfg, true, calls, cleaned) && IsSession(cfg, false, calls, plain)
    requires Ordered(calls)
    requires forall j :: 0 <= j < |calls| ==> HarmlessAt(cfg, calls, cleaned, plain, j)
    ensures cleaned.answers == plain.answers
  {
    forall i | 0 <= i < |calls| ensures cleaned.answers[i] == plain.answers[i] {
      assert HarmlessAt(cfg, calls, cleaned, plain, i);
      SessionSimulates(cfg, calls, cleaned, plain, i);
      StepSimulates(cfg, cleaned.windows[i], plain.windows[i], calls[i],
                    cleaned.windows[i + 1], cleaned.answers[i], plain.windows[i + 1], plain.answers[i]);
    }
  }

  // ----- harm shows -------------------------------------------------------------------------------

  /** A client looking closely: a check and a recording of no tokens, and a status. */
  datatype Probe = Probe(
    checked: Windows, verdict: RateLimiter.Verdict, recorded: Windows, status: map<Kind, StatusEntry>)

  ghost predicate IsProbe(cfg: Config, w: Windows, key: string, now: int, p: Probe) {
    && IsCheck(cfg, w, key, 0, now, p.checked, p.verdict)
    && IsRecord(cfg, p.checked, key, 0, now, p.recorded)
    && IsStatus(cfg, p.recorded, key, now, p.status)
  }

  /** At `now` a status, or a probe, has different answers from `w` and from `u`. */
  ghost predicate ToldApart(cfg: Config, w: Windows, u: Windows, key: string, now: int) {
    || (exists s, t :: IsStatus(cfg, w, key, now, s) && IsStatus(cfg, u, key, now, t) && s != t)
    || (exists p, q ::
          IsProbe(cfg, w, key, now, p) && IsProbe(cfg, u, key, now, q)
          && (p.verdict != q.verdict || p.status != q.status))
  }

  ghost predicate ToldApartAt(cfg: Config, calls: seq<Call>, cleaned: Session, plain: Session, j: nat, key: string)
    requires j < |calls| && j + 1 < |cleaned.windows| && j + 1 < |plain.windows|
  {
    ToldApart(cfg, cleaned.windows[j + 1], plain.windows[j + 1], key, calls[j].now)
  }

  lemma StatusExists(cfg: Config, w: Windows, key: string, now: int) returns (s: map<Kind, StatusEntry>)
    ensures IsStatus(cfg, w, key, now, s)
  {
    s := map k: Kind | WindowOf(w, key, k).Some? && now < WindowOf(w, key, k).value.resetTime ::
      var win := WindowOf(w, key, k).value;
      StatusEntry(win.tokensUsed, cfg.Limit(k), cfg.Limit(k) - win.tokensUsed, win.resetTime);
  }

  lemma RecordExists(cfg: Config, w: Windows, key: string, tokens: int, now: int) returns (w': Windows)
    ensures IsRecord(cfg, w, key, tokens, now, w')
  {
    w' := w;
    if key in w {
      w' := w[key := map k: Kind | cfg.Limit(k) > 0 || k in w[key] ::
        if cfg.Limit(k) > 0 then Charged(WindowOf(w, key, k), k, tokens, now) else w[key][k]];
    }
  }

  lemma CheckExists(cfg: Config, w: Windows, key: string, tokens: int, now: int)
    returns (w': Windows, v: RateLimiter.Verdict)
    ensures IsCheck(cfg, w, key, tokens, now, w', v)
  {
    var had := if key in w then w[key] else map[];
    w' := w[key := map k: Kind | Reached(cfg, w, key, k, tokens, now) || k in had ::
      if Reached(cfg, w, key, k, tokens, now) then Renewed(WindowOf(w, key, k), k, now) else had[k]];
    v := Allowed;
    if !Fits(cfg, w, key, Minute, tokens, now) {
      v := RejectedBy(cfg, w, key, Minute, now);
    } else if !Fits(cfg, w, key, Hour, tokens, now) {
      v := RejectedBy(cfg, w, key, Hour, now);
    } else if !Fits(cfg, w, key, Day, tokens, now) {
      v := RejectedBy(cfg, w, key, Day, now);
    }
  }

  lemma ProbeExists(cfg: Config, w: Windows, key: string, now: int) returns (p: Probe)
    ensures IsProbe(cfg, w, key, now, p)
  {
    var checked, v := CheckExists(cfg, w, key, 0, now);
    var recorded := RecordExists(cfg, checked, key, 0, now);
    var s := StatusExists(cfg, recorded, key, now);
    p := Probe(checked, v, recorded, s);
  }

  /** Equivalent limiters cannot be told apart. */
  lemma SimulatesHides(cfg: Config, w: Windows, u: Windows, key: string, now: int)
    requires Simulates(w, u, now)
    ensures !ToldApart(cfg, w, u, key, now)
  {
    forall s, t | IsStatus(cfg, w, key, now, s) && IsStatus(cfg, u, key, now, t) ensures s == t {
      StatusAgrees(cfg, w, u, key, now, s, t);
    }
    forall p, q | IsProbe(cfg, w, key, now, p) && IsProbe(cfg, u, key, now, q)
      ensures p.verdict == q.verdict && p.status == q.status
    {
      CheckAnswersAgree(cfg, w, u, key, 0, now, p.checked, p.verdict, q.checked, q.verdict);
      CheckSimulates(cfg, w, u, key, 0, now, p.checked, p.verdict, q.checked, q.verdict);
      RecordSimulatesIff(cfg, p.checked, q.checked, key, 0, now, p.recorded, q.recorded);
      StatusAgrees(cfg, p.recorded, q.recorded, key, now, p.status, q.status);
    }
  }

  /** Only configured kinds have windows. */
  ghost predicate Configured(cfg: Config, w: Windows) {
    forall key: string, k: Kind :: WindowOf(w, key, k).Some? ==> cfg.Limit(k) > 0
  }

  lemma ServesKeepsConfigured(cfg: Config, cleans: bool, w: Windows, c: Call, w': Windows, a: Answer)
    requires Configured(cfg, w) && Serves(cfg, cleans, w, c, w', a)
    ensures Configured(cfg, w')
  {
    forall key: string, k: Kind | WindowOf(w', key, k).Some? ensures cfg.Limit(k) > 0 {
      assert cfg.Limit(k) <= 0 ==> WindowOf(w', key, k) == WindowOf(w, key, k);
    }
  }

  lemma {:induction false} SessionConfigured(cfg: Config, cleans: bool, calls: seq<Call>, s: Session, i: nat)
    requires IsSession(cfg, cleans, calls, s) && i <= |calls|
    ensures Configured(cfg, s.windows[i])
  {
    if i > 0 {
      SessionConfigured(cfg, cleans, calls, s, i - 1);
      ServesKeepsConfigured(cfg, cleans, s.windows[i - 1], calls[i - 1], s.windows[i], s.answers[i - 1]);
    }
  }

  /**
     A window cleaned away at its reset time is begun anew by a probe, and is still the old one in the other limiter.
   */
  lemma CleanupHarmShows(cfg: Config, w: Windows, u: Windows, now: int, w': Windows, key: string, k: Kind)
    requires Simulates(w, u, now) && IsCleanup(w, now, w') && Configured(cfg, w)
    requires WindowOf(w, key, k).Some? && WindowOf(w, key, k).value.resetTime == now
    ensures ToldApart(cfg, w', u, key, now)
  {
    var p := ProbeExists(cfg, w', key, now);
    var q := ProbeExists(cfg, u, key, now);
    assert WindowOf(w, key, k) == WindowOf(u, key, k) && WindowOf(w', key, k).None?;
    ProbeOpensWindow(cfg, w', key, now, p, k);
    ProbeKeepsWindow(cfg, u, key, now, q, k);
  }

  lemma ProbeOpensWindow(cfg: Config, w: Windows, key: string, now: int, p: Probe, k: Kind)
    requires IsProbe(cfg, w, key, now, p) && WindowOf(w, key, k).None? && cfg.Limit(k) > 0
    ensures k in p.status
  {
    assert WindowOf(p.recorded, key, k) == Some(Charged(WindowOf(p.checked, key, k), k, 0, now));
  }

  lemma ProbeKeepsWindow(cfg: Config, w: Windows, key: string, now: int, p: Probe, k: Kind)
    requires IsProbe(cfg, w, key, now, p) && cfg.Limit(k) > 0
    requires WindowOf(w, key, k).Some? && WindowOf(w, key, k).value.resetTime == now
    ensures k !in p.status
  {
    assert WindowOf(p.checked, key, k) == WindowOf(w, key, k);
    assert WindowOf(p.recorded, key, k) == Some(Charged(WindowOf(p.checked, key, k), k, 0, now));
  }

  /** A recording dropped by one limiter shows in the status of the other. */
  lemma RecordHarmShows(cfg: Config, w: Windows, u: Windows, now: int, key: string, tokens: int, w': Windows,
        u': Windows, k: Kind)
    requires Simulates(w, u, now) && key in u && key !in w && cfg.Limit(k) > 0
    requires IsRecord(cfg, w, key, tokens, now, w') && IsRecord(cfg, u, key, tokens, now, u')
    ensures ToldApart(cfg, w', u', key, now)
  {
    var s := StatusExists(cfg, w', key, now);
    var t := StatusExists(cfg, u', key, now);
    assert WindowOf(w, key, k).None?;
    assert WindowOf(u', key, k) == Some(Charged(WindowOf(u, key, k), k, tokens, now));
    assert k !in s && k in t;
  }

  lemma HarmShows(cfg: Config, w: Windows, u: Windows, c: Call, w': Windows, a: Answer, u': Windows, b: Answer)
    returns (key: string)
    requires Simulates(w, u, c.now) && !Harmless(cfg, w, u, c) && Configured(cfg, w)
    requires Serves(cfg, true, w, c, w', a) && Serves(cfg, false, u, c, u', b)
    ensures ToldApart(cfg, w', u', key, c.now)
  {
    match c.op
    case Record(name, tokens) =>
      key := name;
      var k: Kind :| cfg.Limit(k) > 0;
      RecordHarmShows(cfg, w, u, c.now, key, tokens, w', u', k);
    case Cleanup =>
      var k: Kind;
      key, k :| WindowOf(w, key, k).Some? && WindowOf(w, key, k).value.resetTime == c.now;
      CleanupHarmShows(cfg, w, u, c.now, w', key, k);
    case _ =>
  }

  lemma {:induction false} HarmlessHides(cfg: Config, calls: seq<Call>, cleaned: Session, plain: Session, i: nat,
        key: string)
    requires IsSession(cfg, true, calls, cleaned) && IsSession(cfg, false, calls, plain) && Ordered(calls)
        && i < |calls|
    requires forall j :: 0 <= j <= i ==> HarmlessAt(cfg, calls, cleaned, plain, j)
    ensures !ToldApartAt(cfg, calls, cleaned, plain, i, key)
  {
    SessionSimulates(cfg, calls, cleaned, plain, i);
    assert HarmlessAt(cfg, calls, cleaned, plain, i);
    StepSimulates(cfg, cleaned.windows[i], plain.windows[i], calls[i],
                  cleaned.windows[i + 1], cleaned.answers[i], plain.windows[i + 1], plain.answers[i]);
    SimulatesHides(cfg, cleaned.windows[i + 1], plain.windows[i + 1], key, calls[i].now);
  }

  lemma {:induction false} FirstHarmShows(cfg: Config, calls: seq<Call>, cleaned: Session, plain: Session, i: nat)
    returns (key: string)
    requires IsSession(cfg, true, calls, cleaned) && IsSession(cfg, false, calls, plain) && Ordered(calls)
        && i < |calls|
    requires forall j :: 0 <= j < i ==> HarmlessAt(cfg, calls, cleaned, plain, j)
    requires !HarmlessAt(cfg, calls, cleaned, plain, i)
    ensures ToldApartAt(cfg, calls, cleaned, plain, i, key)
  {
    SessionSimulates(cfg, calls, cleaned, plain, i);
    SessionConfigured(cfg, true, calls, cleaned, i);
    key := HarmShows(cfg, cleaned.windows[i], plain.windows[i], calls[i],
                     cleaned.windows[i + 1], cleaned.answers[i], plain.windows[i + 1], plain.answers[i]);
  }

  /**
     Exactly when cleanups cannot be noticed: over a whole session no call was harmful if and only if at
     no point of it, at the instant of the last call, could any client tell the two limiters apart.
   */
  lemma {:induction false} CleanupUnnoticedIff(cfg: Config, calls: seq<Call>, cleaned: Session, plain: Session)
    requires IsSession(cfg, true, calls, cleaned) && IsSession(cfg, false, calls, plain) && Ordered(calls)
    ensures (forall j :: 0 <= j < |calls| ==> HarmlessAt(cfg, calls, cleaned, plain, j)) <==>
      forall j, key :: 0 <= j < |calls| ==> !ToldApartAt(cfg, calls, cleaned, plain, j, key)
  {
    var i := 0;
    while i < |calls| && HarmlessAt(cfg, calls, cleaned, plain, i)
      invariant 0 <= i <= |calls|
      invariant forall j :: 0 <= j < i ==> HarmlessAt(cfg, calls, cleaned, plain, j)
      invariant forall j, key :: 0 <= j < i ==> !ToldApartAt(cfg, calls, cleaned, plain, j, key)
    {
      forall key ensures !ToldApartAt(cfg, calls, cleaned, plain, i, key) {
        HarmlessHides(cfg, calls, cleaned, plain, i, key);
      }
      i := i + 1;
    }
    if i < |calls| {
      var key := FirstHarmShows(cfg, calls, cleaned, plain, i);
    }
  }

  // ----- the two harmful moments -----------------------------------------------------------------

  /** With only a minute limit configured, a check's answer is decided by the minute window. */
  lemma MinuteOnly(limit: int, w: Windows, tokens: int, now: int, w': Windows, v: RateLimiter.Verdict)
    requires limit > 0 && IsCheck(Config(limit, 0, 0), w, "key", tokens, now, w', v)
    ensures v == if UsedNow(WindowOf(w, "key", Minute), now) + tokens <= limit then Allowed
                 else RejectedBy(Config(limit, 0, 0), w, "key", Minute, now)
  {
    assert Fits(Config(limit, 0, 0), w, "key", Minute, tokens, now) <==> v.Allowed?;
  }

  /** A limiter that has let one request in and not heard of it again. */
  method InFlight(limit: int, estimate: int, now: int) returns (l: TokenRateLimiter)
    requires 0 < limit && estimate <= limit
    ensures fresh(l) && l.config == Config(limit, 0, 0)
    ensures l.windows.Keys == {"key"} && WindowOf(l.windows, "key", Minute) == Some(Window(0, now + MINUTE))
    ensures WindowOf(l.windows, "key", Hour).None? && WindowOf(l.windows, "key", Day).None?
  {
    l := new TokenRateLimiter(Config(limit, 0, 0));
    var v := l.CheckRateLimit("key", estimate, now);
    assert v.Allowed?;
  }

  /** At its exact reset time a used-up window still rejects; a cleanup at that instant lets the request in. */
  method CleanupAtResetTime(limit: int, now: int, cleans: bool) returns (answer: RateLimiter.Verdict)
    requires limit > 0
    ensures answer == if cleans then Allowed else Exceeded(Minute, limit, limit, 0, now + MINUTE)
  {
    var l := InFlight(limit, limit, now);
    l.RecordUsage("key", limit, now);
    if cleans {
      l.CleanupExpiredWindows(now + MINUTE);
      assert WindowOf(l.windows, "key", Minute).None?;
    }
    ghost var w := l.windows;
    answer := l.CheckRateLimit("key", 1, now + MINUTE);
    MinuteOnly(limit, w, 1, now + MINUTE, l.windows, answer);
  }

  /**
     A request in flight while its key is cleaned away: its usage is dropped, and the next window knows nothing
     of it.
   */
  method CleanupBeforeRecord(limit: int, now: int, cleans: bool) returns (answer: RateLimiter.Verdict)
    requires limit > 0
    ensures answer.Allowed? <==> cleans
  {
    var later := now + MINUTE + 1;
    var l := InFlight(limit, limit, now);
    if cleans {
      l.CleanupExpiredWindows(later);
      NoWindowsNoKey(l.windows);
    }
    l.RecordUsage("key", limit, later);
    ghost var w := l.windows;
    answer := l.CheckRateLimit("key", 1, later);
    MinuteOnly(limit, w, 1, later, l.windows, answer);
  }

  lemma NoWindowsNoKey(w: Windows)
    requires WindowOf(w, "key", Minute).None? && WindowOf(w, "key", Hour).None? && WindowOf(w, "key", Day).None?
    ensures "key" in w ==> w["key"] == map[]
  {
    forall k: Kind ensures "key" in w ==> k !in w["key"] {
      match k case Minute => case Hour => case Day =>
    }
    assert "key" in w ==> w["key"] == map[];
  }
}
