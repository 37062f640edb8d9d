/**
 The fixed-window token rate limiter (metering/token_rate_limiter.go).

 Instants are integer nanoseconds passed in by the caller, non-decreasing in lock order. A check and
 the recording that follows it are separate critical sections: a check reserves nothing.
 */
module RateLimiter {
  import opened Wrappers

  const MINUTE := 60 * 1_000_000_000

  datatype Kind = Minute | Hour | Day

  function Duration(k: Kind): int {
    match k
    case Minute => MINUTE
    case Hour => 60 * MINUTE
    case Day => 24 * 60 * MINUTE
  }

  /** A limit that is not positive is not configured. */
  datatype Config = Config(tokensPerMinute: int, tokensPerHour: int, tokensPerDay: int) {
    function Limit(k: Kind): int {
      match k
      case Minute => tokensPerMinute
      case Hour => tokensPerHour
      case Day => tokensPerDay
    }
  }

  datatype Window = Window(tokensUsed: int, resetTime: int)

  type KeyWindows = map<Kind, Window>
  type Windows = map<string, KeyWindows>

  datatype Verdict = Allowed | Exceeded(kind: Kind, used: int, limit: int, remaining: int, resetTime: int)

  datatype StatusEntry = StatusEntry(used: int, limit: int, remaining: int, resetTime: int)

  // ----- what the operations mean, window by window ----------------------------------------------

  function WindowOf(w: Windows, key: string, k: Kind): Option<Window> {
    if key in w && k in w[key] then Some(w[key][k]) else None
  }

  /** A check or a recording still uses a window at its very reset time. */
  predicate Live(o: Option<Window>, now: int) {
    o.Some? && now <= o.value.resetTime
  }

  function UsedNow(o: Option<Window>, now: int): int {
    if Live(o, now) then o.value.tokensUsed else 0
  }

  /** The window a check looks at: the one there, or a fresh one. */
  function Renewed(o: Option<Window>, k: Kind, now: int): Window {
    if Live(o, now) then o.value else Window(0, now + Duration(k))
  }

  function Charged(o: Option<Window>, k: Kind, tokens: int, now: int): Window {
    Window(UsedNow(o, now) + tokens, Renewed(o, k, now).resetTime)
  }

  predicate Fits(cfg: Config, w: Windows, key: string, k: Kind, tokens: int, now: int) {
    cfg.Limit(k) <= 0 || UsedNow(WindowOf(w, key, k), now) + tokens <= cfg.Limit(k)
  }

  predicate Earlier(j: Kind, k: Kind) {
    Rank(j) < Rank(k)
  }

  /** A check stops at the first window the request does not fit in; later ones are not looked at. */
  predicate Reached(cfg: Config, w: Windows, key: string, k: Kind, tokens: int, now: int) {
    cfg.Limit(k) > 0 && forall j: Kind :: Earlier(j, k) ==> Fits(cfg, w, key, j, tokens, now)
  }

  function RejectedBy(cfg: Config, w: Windows, key: string, k: Kind, now: int): Verdict {
    var win := Renewed(WindowOf(w, key, k), k, now);
    var left := cfg.Limit(k) - win.tokensUsed;
    Exceeded(k, win.tokensUsed, cfg.Limit(k), if left < 0 then 0 else left, win.resetTime)
  }

  ghost predicate IsCheck(cfg: Config, w: Windows, key: string, tokens: int, now: int, w': Windows, v: Verdict) {
    && w'.Keys == w.Keys + {key}
    && (forall other :: other in w && other != key ==> w'[other] == w[other])
    && (forall k: Kind :: WindowOf(w', key, k) ==
          if Reached(cfg, w, key, k, tokens, now) then Some(Renewed(WindowOf(w, key, k), k, now))
          else WindowOf(w, key, k))
    && (v.Allowed? <==> forall k: Kind :: Fits(cfg, w, key, k, tokens, now))
    && (v.Exceeded? ==>
          && Reached(cfg, w, key, v.kind, tokens, now) && !Fits(cfg, w, key, v.kind, tokens, now)
          && v == RejectedBy(cfg, w, key, v.kind, now))
  }

  /** A key without an entry is not charged at all; otherwise every configured window is. */
  ghost predicate IsRecord(cfg: Config, w: Windows, key: string, tokens: int, now: int, w': Windows) {
    && w'.Keys == w.Keys
    && (forall other :: other in w && other != key ==> w'[other] == w[other])
    && (forall k: Kind :: WindowOf(w', key, k) ==
          if key in w && cfg.Limit(k) > 0 then Some(Charged(WindowOf(w, key, k), k, tokens, now))
          else WindowOf(w, key, k))
  }

  /** Cleanup drops a window already at its reset time, and a key none of whose windows is left. */
  ghost predicate IsCleanup(w: Windows, now: int, w': Windows) {
    && (forall key: string, k: Kind :: WindowOf(w', key, k) ==
          if WindowOf(w, key, k).Some? && now < WindowOf(w, key, k).value.resetTime then WindowOf(w, key, k) else None)
    && (forall key :: key in w' ==> key in w && w'[key] != map[])
    && (forall key :: key in w && key !in w' ==> forall k: Kind :: k in w[key] ==> now >= w[key][k].resetTime)
  }

  ghost predicate IsStatus(cfg: Config, w: Windows, key: string, now: int, s: map<Kind, StatusEntry>) {
    forall k: Kind ::
      && (k in s <==> WindowOf(w, key, k).Some? && now < WindowOf(w, key, k).value.resetTime)
      && (k in s ==> var win := WindowOf(w, key, k).value;
            s[k] == StatusEntry(win.tokensUsed, cfg.Limit(k), cfg.Limit(k) - win.tokensUsed, win.resetTime))
  }

  /** `w'` is `w` with one window of one key set. */
  ghost predicate SetsWindow(w: Windows, w': Windows, key: string, k: Kind, win: Window) {
    && key in w && w'.Keys == w.Keys
    && (forall other :: other in w && other != key ==> w'[other] == w[other])
    && WindowOf(w', key, k) == Some(win)
    && (forall j: Kind :: j != k ==> WindowOf(w', key, j) == WindowOf(w, key, j))
  }

  /** The effect of a check on the key's windows, when the first `n` kinds have been looked at. */
  ghost predicate CheckedSoFar(cfg: Config, w: Windows, key: string, tokens: int, now: int, w': Windows, n: nat) {
    && w'.Keys == w.Keys + {key}
    && (forall other :: other in w && other != key ==> w'[other] == w[other])
    && (forall k: Kind :: WindowOf(w', key, k) ==
          if Rank(k) < n && cfg.Limit(k) > 0 then Some(Renewed(WindowOf(w, key, k), k, now)) else WindowOf(w, key, k))
    && (forall k: Kind :: Rank(k) < n ==> Fits(cfg, w, key, k, tokens, now))
  }

  function Rank(k: Kind): nat {
    match k case Minute => 0 case Hour => 1 case Day => 2
  }

  /** One more window looked at: the check goes on, or ends there with its rejection. */
  lemma CheckGoesOn(cfg: Config, w: Windows, key: string, tokens: int, now: int, mid: Windows, k: Kind, w': Windows,
        v: Verdict)
    requires CheckedSoFar(cfg, w, key, tokens, now, mid, Rank(k)) && cfg.Limit(k) > 0
    requires SetsWindow(mid, w', key, k, Renewed(WindowOf(mid, key, k), k, now))
    requires v == if Fits(cfg, mid, key, k, tokens, now) then Allowed else RejectedBy(cfg, mid, key, k, now)
    ensures v.Allowed? ==> CheckedSoFar(cfg, w, key, tokens, now, w', Rank(k) + 1)
    ensures v.Exceeded? ==> IsCheck(cfg, w, key, tokens, now, w', v)
  {
    assert WindowOf(mid, key, k) == WindowOf(w, key, k);
    forall j: Kind ensures WindowOf(w', key, j) == if Rank(j) <= Rank(k) && cfg.Limit(j) > 0
      then Some(Renewed(WindowOf(w, key, j), j, now)) else WindowOf(w, key, j)
    {
    }
    if v.Exceeded? {
      assert !Fits(cfg, w, key, k, tokens, now);
      forall j: Kind ensures Reached(cfg, w, key, j, tokens, now) <==> Rank(j) <= Rank(k) && cfg.Limit(j) > 0 {
        assert Rank(j) > Rank(k) ==> Earlier(k, j);
      }
    }
  }

  lemma CheckEnds(cfg: Config, w: Windows, key: string, tokens: int, now: int, w': Windows)
    requires CheckedSoFar(cfg, w, key, tokens, now, w', 3)
    ensures IsCheck(cfg, w, key, tokens, now, w', Allowed)
  {
  }

  // ----- the limiter -----------------------------------------------------------------------------

  class TokenRateLimiter {
    const config: Config
    var windows: Windows

    constructor (config: Config)
      ensures this.config == config && windows == map[]
    {
      this.config := config;
      windows := map[];
    }

    method CheckWindow(apiKeyHash: string, k: Kind, limit: int, estimatedTokens: int, now: int, duration: int)
      returns (v: Verdict)
      requires apiKeyHash in windows && limit == config.Limit(k) > 0 && duration == Duration(k)
      modifies this
      ensures SetsWindow(old(windows), windows, apiKeyHash, k, Renewed(WindowOf(old(windows), apiKeyHash, k), k, now))
      ensures v == if Fits(config, old(windows), apiKeyHash, k, estimatedTokens, now) then Allowed
                   else RejectedBy(config, old(windows), apiKeyHash, k, now)
    {
      var userWindows := windows[apiKeyHash];
      if k !in userWindows || now > userWindows[k].resetTime {
        userWindows := userWindows[k := Window(0, now + duration)];
        windows := windows[apiKeyHash := userWindows];
      }
      var window := userWindows[k];
      if window.tokensUsed + estimatedTokens > limit {
        var remaining := limit - window.tokensUsed;
        if remaining < 0 {
          remaining := 0;
        }
        return Exceeded(k, window.tokensUsed, limit, remaining, window.resetTime);
      }
      v := Allowed;
    }

    /** `CheckWindow`, with what it means for the whole check that began with the windows `before`. */
    method NextWindow(ghost before: Windows, apiKeyHash: string, k: Kind, limit: int, estimatedTokens: int, now: int,
          duration: int)
      returns (v: Verdict)
      requires CheckedSoFar(config, before, apiKeyHash, estimatedTokens, now, windows, Rank(k))
      requires limit == config.Limit(k) > 0 && duration == Duration(k)
      modifies this
      ensures v.Allowed? ==> CheckedSoFar(config, before, apiKeyHash, estimatedTokens, now, windows, Rank(k) + 1)
      ensures v.Exceeded? ==> IsCheck(config, before, apiKeyHash, estimatedTokens, now, windows, v)
    {
      v := CheckWindow(apiKeyHash, k, limit, estimatedTokens, now, duration);
      CheckGoesOn(config, before, apiKeyHash, estimatedTokens, now, old(windows), k, windows, v);
    }

    method CheckRateLimit(apiKeyHash: string, estimatedTokens: int, now: int) returns (v: Verdict)
      modifies this
      ensures IsCheck(config, old(windows), apiKeyHash, estimatedTokens, now, windows, v)
    {
      ghost var before := windows;
      if apiKeyHash !in windows {
        windows := windows[apiKeyHash := map[]];
      }
      assert CheckedSoFar(config, before, apiKeyHash, estimatedTokens, now, windows, 0);
      if config.tokensPerMinute > 0 {
        v := NextWindow(before, apiKeyHash, Minute, config.tokensPerMinute, estimatedTokens, now, MINUTE);
        if v.Exceeded? {
          return;
        }
      }
      assert CheckedSoFar(config, before, apiKeyHash, estimatedTokens, now, windows, 1);
      if config.tokensPerHour > 0 {
        v := NextWindow(before, apiKeyHash, Hour, config.tokensPerHour, estimatedTokens, now, 60 * MINUTE);
        if v.Exceeded? {
          return;
        }
      }
      assert CheckedSoFar(config, before, apiKeyHash, estimatedTokens, now, windows, 2);
      if config.tokensPerDay > 0 {
        v := NextWindow(before, apiKeyHash, Day, config.tokensPerDay, estimatedTokens, now, 24 * 60 * MINUTE);
        if v.Exceeded? {
          return;
        }
      }
      assert CheckedSoFar(config, before, apiKeyHash, estimatedTokens, now, windows, 3);
      CheckEnds(config, before, apiKeyHash, estimatedTokens, now, windows);
      v := Allowed;
    }

    method UpdateWindow(apiKeyHash: string, k: Kind, actualTokens: int, now: int, duration: int)
      requires apiKeyHash in windows && duration == Duration(k)
      modifies this
      ensures SetsWindow(old(windows), windows, apiKeyHash, k,
        Charged(WindowOf(old(windows), apiKeyHash, k), k, actualTokens, now))
    {
      var userWindows := windows[apiKeyHash];
      if k !in userWindows || now > userWindows[k].resetTime {
        userWindows := userWindows[k := Window(actualTokens, now + duration)];
      } else {
        var window := userWindows[k];
        userWindows := userWindows[k := window.(tokensUsed := window.tokensUsed + actualTokens)];
      }
      windows := windows[apiKeyHash := userWindows];
    }

    method RecordUsage(apiKeyHash: string, actualTokens: int, now: int)
      modifies this
      ensures IsRecord(config, old(windows), apiKeyHash, actualTokens, now, windows)
    {
      if apiKeyHash !in windows {
        return;
      }
      if config.tokensPerMinute > 0 {
        UpdateWindow(apiKeyHash, Minute, actualTokens, now, MINUTE);
      }
      if config.tokensPerHour > 0 {
        UpdateWindow(apiKeyHash, Hour, actualTokens, now, 60 * MINUTE);
      }
      if config.tokensPerDay > 0 {
        UpdateWindow(apiKeyHash, Day, actualTokens, now, 24 * 60 * MINUTE);
      }
    }

    method CleanupExpiredWindows(now: int)
      modifies this
      ensures IsCleanup(old(windows), now, windows)
    {
      var keysToDelete: set<string> := {};
      var todo := windows.Keys;
      while todo != {}
        invariant todo <= windows.Keys == old(windows).Keys && keysToDelete <= windows.Keys - todo
        invariant forall key :: key in todo ==> windows[key] == old(windows)[key]
        invariant forall key :: key in windows.Keys - todo ==>
          && windows[key] == Unexpired(old(windows)[key], now)
          && (key in keysToDelete <==> windows[key] == map[])
        decreases todo
      {
        var key :| key in todo;
        var allExpired, kept := DropExpired(windows[key], now);
        windows := windows[key := kept];
        if allExpired || |kept| == 0 {
          keysToDelete := keysToDelete + {key};
        }
        todo := todo - {key};
      }
      windows := windows - keysToDelete;
      ghost var was := old(windows);
      forall key, k: Kind
        ensures WindowOf(windows, key, k) ==
          if WindowOf(was, key, k).Some? && now < WindowOf(was, key, k).value.resetTime
          then WindowOf(was, key, k) else None
      {
        if key in was {
          assert k in Unexpired(was[key], now) <==> k in was[key] && now < was[key][k].resetTime;
        }
      }
      forall key, k | key in was && key !in windows && k in was[key]
        ensures now >= was[key][k].resetTime
      {
        assert k !in Unexpired(was[key], now);
      }
    }

    method DropExpired(userWindows: KeyWindows, now: int) returns (allExpired: bool, kept: KeyWindows)
      ensures kept == Unexpired(userWindows, now)
      ensures allExpired <==> kept == map[]
    {
      allExpired, kept := true, userWindows;
      var todo := userWindows.Keys;
      while todo != {}
        invariant todo <= userWindows.Keys
        invariant kept == map k | k in userWindows && (k in todo || now < userWindows[k].resetTime) :: userWindows[k]
        invariant allExpired <==> forall k :: k in userWindows && k !in todo ==> k !in kept
        decreases todo
      {
        var k :| k in todo;
        if now < userWindows[k].resetTime {
          allExpired := false;
        } else {
          kept := kept - {k};
        }
        todo := todo - {k};
      }
    }

    method GetRateLimitStatus(apiKeyHash: string, now: int) returns (status: map<Kind, StatusEntry>)
      ensures IsStatus(config, windows, apiKeyHash, now, status)
    {
      status := map[];
      if apiKeyHash !in windows {
        return;
      }
      var userWindows := windows[apiKeyHash];
      var todo := userWindows.Keys;
      while todo != {}
        invariant todo <= userWindows.Keys
        invariant status == map k | k in userWindows && k !in todo && now < userWindows[k].resetTime ::
          StatusEntry(userWindows[k].tokensUsed, config.Limit(k), config.Limit(k) - userWindows[k].tokensUsed,
            userWindows[k].resetTime)
        decreases todo
      {
        var k :| k in todo;
        var window := userWindows[k];
        if now < window.resetTime {
          var limit := match k
            case Minute => config.tokensPerMinute
            case Hour => config.tokensPerHour
            case Day => config.tokensPerDay;
          status := status[k := StatusEntry(window.tokensUsed, limit, limit - window.tokensUsed, window.resetTime)];
        }
        todo := todo - {k};
      }
    }
  }

  function Unexpired(ws: KeyWindows, now: int): KeyWindows {
    map k | k in ws && now < ws[k].resetTime :: ws[k]
  }

  // ----- how long a window lasts ------------------------------------------------------------------

  function Only(k: Kind, limit: int): Config {
    Config(if k.Minute? then limit else 0, if k.Hour? then limit else 0, if k.Day? then limit else 0)
  }

  /** With one limit configured, a check's answer is decided by that window alone. */
  lemma OnlyDecides(k: Kind, limit: int, w: Windows, tokens: int, now: int, w': Windows, v: Verdict)
    requires limit > 0 && IsCheck(Only(k, limit), w, "key", tokens, now, w', v)
    ensures v == if UsedNow(WindowOf(w, "key", k), now) + tokens <= limit then Allowed
                 else RejectedBy(Only(k, limit), w, "key", k, now)
  {
    assert Fits(Only(k, limit), w, "key", k, tokens, now) <==> v.Allowed?;
  }

  /** A limiter in which `used` tokens have been recorded in a window opened at `t`. */
  method Opened(k: Kind, limit: int, used: int, t: int) returns (l: TokenRateLimiter)
    requires limit > 0
    ensures fresh(l) && l.config == Only(k, limit) && l.windows.Keys == {"key"}
    ensures WindowOf(l.windows, "key", k) == Some(Window(used, t + Duration(k)))
    ensures forall j: Kind :: j != k ==> WindowOf(l.windows, "key", j).None?
  {
    l := new TokenRateLimiter(Only(k, limit));
    var v := l.CheckRateLimit("key", 0, t);
    assert Reached(l.config, map[], "key", k, 0, t);
    l.RecordUsage("key", used, t);
  }

  /**
     A window lasts a minute, an hour or a day to the nanosecond: what was used in it counts up to and
     including the instant of its end, which a rejection reports, and no longer one nanosecond later.
   */
  method WindowLasts(k: Kind, limit: int, used: int, tokens: int, t: int, at: int) returns (v: Verdict)
    requires limit > 0 && t <= at
    ensures var length :=
        if k.Minute? then 60_000_000_000 else if k.Hour? then 3_600_000_000_000 else 86_400_000_000_000;
      && (at <= t + length ==>
            v == if used + tokens <= limit then Allowed
                 else Exceeded(k, used, limit, if used < limit then limit - used else 0, t + length))
      && (at > t + length ==>
            v == if tokens <= limit then Allowed else Exceeded(k, 0, limit, limit, at + length))
  {
    var l := Opened(k, limit, used, t);
    ghost var w := l.windows;
    v := l.CheckRateLimit("key", tokens, at);
    OnlyDecides(k, limit, w, tokens, at, l.windows, v);
  }

  /** The same of all three windows, with every limit configured. */
  method AllOpened(config: Config, used: int, t: int) returns (l: TokenRateLimiter)
    requires config.tokensPerMinute > 0 && config.tokensPerHour > 0 && config.tokensPerDay > 0
    ensures fresh(l) && l.config == config
    ensures forall k: Kind :: WindowOf(l.windows, "key", k) == Some(Window(used, t + Duration(k)))
  {
    l := new TokenRateLimiter(config);
    var v := l.CheckRateLimit("key", 0, t);
    assert forall k: Kind :: Reached(config, map[], "key", k, 0, t);
    l.RecordUsage("key", used, t);
  }

  lemma ShortestDecides(config: Config, w: Windows, tokens: int, now: int, w': Windows, v: Verdict)
    requires IsCheck(config, w, "key", tokens, now, w', v)
    ensures v ==
      if !Fits(config, w, "key", Minute, tokens, now) then RejectedBy(config, w, "key", Minute, now)
      else if !Fits(config, w, "key", Hour, tokens, now) then RejectedBy(config, w, "key", Hour, now)
      else if !Fits(config, w, "key", Day, tokens, now) then RejectedBy(config, w, "key", Day, now)
      else Allowed
  {
    assert Earlier(Minute, Hour) && Earlier(Minute, Day) && Earlier(Hour, Day);
    assert forall k: Kind :: k.Minute? || k.Hour? || k.Day?;
  }

  /** With all three limits set, a rejection is the minute's if there is one, else the hour's, else the day's. */
  method ShortestFirst(config: Config, used: int, tokens: int, t: int) returns (v: Verdict)
    requires config.tokensPerMinute > 0 && config.tokensPerHour > 0 && config.tokensPerDay > 0
    ensures v ==
      if used + tokens > config.tokensPerMinute then
        var left := config.tokensPerMinute - used;
        Exceeded(Minute, used, config.tokensPerMinute, if left > 0 then left else 0, t + 60_000_000_000)
      else if used + tokens > config.tokensPerHour then
        var left := config.tokensPerHour - used;
        Exceeded(Hour, used, config.tokensPerHour, if left > 0 then left else 0, t + 3_600_000_000_000)
      else if used + tokens > config.tokensPerDay then
        var left := config.tokensPerDay - used;
        Exceeded(Day, used, config.tokensPerDay, if left > 0 then left else 0, t + 86_400_000_000_000)
      else Allowed
  {
    var l := AllOpened(config, used, t);
    ghost var w := l.windows;
    v := l.CheckRateLimit("key", tokens, t);
    ShortestDecides(config, w, tokens, t, l.windows, v);
  }

  /** The status shows the window, with what is left of it, until the instant of its end. */
  method StatusLasts(k: Kind, limit: int, used: int, t: int, at: int) returns (status: map<Kind, StatusEntry>)
    requires limit > 0 && t <= at
    ensures var length :=
        if k.Minute? then 60_000_000_000 else if k.Hour? then 3_600_000_000_000 else 86_400_000_000_000;
      status == if at < t + length then map[k := StatusEntry(used, limit, limit - used, t + length)] else map[]
  {
    var l := Opened(k, limit, used, t);
    status := l.GetRateLimitStatus("key", at);
    assert forall j: Kind :: j in status ==> j == k;
  }

  lemma NothingLeft(w: Windows)
    requires forall j: Kind :: WindowOf(w, "key", j).None?
    ensures "key" in w ==> w["key"] == map[]
  {
    forall j: Kind ensures "key" in w ==> j !in w["key"] {
      assert WindowOf(w, "key", j).None?;
    }
    assert "key" in w ==> w["key"] == map[];
  }

  /** A cleanup leaves the window until the instant of its end, and takes it away, with its key, from then on. */
  method CleanupLasts(k: Kind, limit: int, used: int, t: int, at: int) returns (windows: Windows)
    requires limit > 0 && t <= at
    ensures var length :=
        if k.Minute? then 60_000_000_000 else if k.Hour? then 3_600_000_000_000 else 86_400_000_000_000;
      windows == if at < t + length then map["key" := map[k := Window(used, t + length)]] else map[]
  {
    var l := Opened(k, limit, used, t);
    ghost var w := l.windows;
    l.CleanupExpiredWindows(at);
    windows := l.windows;
    if at < t + Duration(k) {
      assert WindowOf(windows, "key", k) == WindowOf(w, "key", k);
      assert forall j: Kind :: j != k ==> WindowOf(windows, "key", j).None?;
      assert forall j: Kind :: j in windows["key"] ==> WindowOf(windows, "key", j).Some?;
      assert windows["key"] == map[k := Window(used, t + Duration(k))];
    } else {
      assert forall j: Kind :: WindowOf(windows, "key", j).None?;
      NothingLeft(windows);
      assert windows.Keys == {};
    }
  }
}
