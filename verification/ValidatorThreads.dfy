/**
 Concurrent calls of `ValidateAPIKey`, with `CleanupCache` firing at any moment. The contract query runs
 outside the lock, so a lookup, a query, a store and the final reading of one call interleave with
 those of the others.

 Each lock-protected section is one step. `log` lists the stores and cleanups in lock order, and a
 returned call remembers what its result rests on; no step reads either.
 */
module ValidatorThreads {
  import opened Wrappers
  import opened ApiKeyValidator

  datatype LogEntry = Stored(keys: set<string>, at: int) | Cleaned

  /** What a returned result rests on; the positions are in `log`. */
  datatype Basis =
    | MasterKeys(m: Masters)
    | Lookup(at: int, position: nat)
    | Reading(ownStore: nat, position: nat)
    | Failure

  datatype Pc =
    | Called
    | Missed                      // no fresh entry: must ask the contract
    | Asked(keys: set<string>)    // the contract's answer, not stored yet
    | Updated(ownStore: nat)      // stored; about to read the cache again
    | Returned(outcome: Outcome, basis: Basis)

  /** A call of `ValidateAPIKey`; `began` is the length of the log when it was made. */
  datatype Thread = Thread(key: string, began: nat, pc: Pc)

  datatype State = State(now: int, cache: map<string, bool>, lastUpdate: Option<int>, threads: map<nat, Thread>,
        log: seq<LogEntry>)

  datatype Event =
    | Pass(time: nat)
    | Cleanup
    | Call(id: nat, key: string)
    | LookUp(id: nat, m: Masters)       // the master keys, then the cache under the read lock
    | Query(id: nat, q: QueryResult)
    | Store(id: nat)                    // under the write lock
    | ReadAgain(id: nat)                // under the read lock

  function PcOf(s: State, id: nat): Option<Pc> {
    if id in s.threads then Some(s.threads[id].pc) else None
  }

  predicate Enabled(s: State, e: Event) {
    match e
    case Pass(_) => true
    case Cleanup => true
    case Call(id, _) => id !in s.threads
    case LookUp(id, _) => PcOf(s, id) == Some(Called)
    case Query(id, _) => PcOf(s, id) == Some(Missed)
    case Store(id) => id in s.threads && s.threads[id].pc.Asked?
    case ReadAgain(id) => id in s.threads && s.threads[id].pc.Updated?
  }

  function Moved(s: State, id: nat, pc: Pc): State
    requires id in s.threads
  {
    s.(threads := s.threads[id := s.threads[id].(pc := pc)])
  }

  function LookUpPc(cfg: Config, s: State, key: string, m: Masters): Pc {
    var before := BeforeCache(cfg, key, m);
    var h := cfg.hash(key);
    if before == Valid(true) then Returned(before, MasterKeys(m))
    else if before == Error then Returned(Error, Failure)
    else if h in s.cache && !IsStale(cfg, s.lastUpdate, s.now) then Returned(Valid(s.cache[h]), Lookup(s.now, |s.log|))
    else Missed
  }

  function Next(cfg: Config, s: State, e: Event): State
    requires Enabled(s, e)
  {
    match e
    case Pass(time) => s.(now := s.now + time)
    case Cleanup => s.(cache := map[], log := s.log + [Cleaned])
    case Call(id, key) => s.(threads := s.threads[id := Thread(key, |s.log|, Called)])
    case LookUp(id, m) => Moved(s, id, LookUpPc(cfg, s, s.threads[id].key, m))
    case Query(id, q) =>
      Moved(s, id, if Listed(q).None? then Returned(Error, Failure) else Asked(Listed(q).value))
    case Store(id) =>
      var keys := s.threads[id].pc.keys;
      var s' := s.(cache := AllTrue(keys), lastUpdate := Some(s.now), log := s.log + [Stored(keys, s.now)]);
      Moved(s', id, Updated(|s.log|))
    case ReadAgain(id) =>
      var h := cfg.hash(s.threads[id].key);
      Moved(s, id, Returned(Valid(h in s.cache && s.cache[h]), Reading(s.threads[id].pc.ownStore, |s.log|)))
  }

  // ----- the invariant ----------------------------------------------------------------------------

  /** When the last store happened. */
  function LastStore(log: seq<LogEntry>): Option<int> {
    if log == [] then None
    else if log[|log| - 1].Stored? then Some(log[|log| - 1].at)
    else LastStore(log[..|log| - 1])
  }

  /** The cache is exactly what the last entry of the log left: that answer's keys, or nothing. */
  ghost predicate Mirrors(s: State) {
    && s.lastUpdate == LastStore(s.log)
    && s.cache == if s.log != [] && s.log[|s.log| - 1].Stored? then AllTrue(s.log[|s.log| - 1].keys) else map[]
  }

  predicate StoredIn(log: seq<LogEntry>, i: int, h: string) {
    0 <= i < |log| && log[i].Stored? && h in log[i].keys
  }

  ghost predicate Justified(cfg: Config, log: seq<LogEntry>, t: Thread, outcome: Outcome, basis: Basis) {
    var h := cfg.hash(t.key);
    match basis
    case Failure => outcome == Error
    case MasterKeys(m) => outcome == Valid(true) && BeforeCache(cfg, t.key, m) == Valid(true)
    case Lookup(at, position) =>
      && outcome == Valid(true) && position <= |log|
      && StoredIn(log, position - 1, h) && at - log[position - 1].at <= cfg.cacheTTL
    case Reading(own, position) =>
      && t.began <= own < position <= |log| && log[own].Stored?
      && (outcome == Valid(true) || outcome == Valid(false))
      && (outcome == Valid(true) <==> StoredIn(log, position - 1, h))
  }

  ghost predicate ThreadOk(cfg: Config, log: seq<LogEntry>, t: Thread) {
    && t.began <= |log|
    && match t.pc
       case Updated(own) => t.began <= own < |log| && log[own].Stored?
       case Returned(outcome, basis) => Justified(cfg, log, t, outcome, basis)
       case _ => true
  }

  ghost predicate Inv(cfg: Config, s: State) {
    Mirrors(s) && forall id :: id in s.threads ==> ThreadOk(cfg, s.log, s.threads[id])
  }

  lemma LogGrows(cfg: Config, log: seq<LogEntry>, e: LogEntry, t: Thread)
    requires ThreadOk(cfg, log, t)
    ensures ThreadOk(cfg, log + [e], t)
  {
  }

  lemma StepKeepsMirror(cfg: Config, s: State, e: Event)
    requires Mirrors(s) && Enabled(s, e)
    ensures Mirrors(Next(cfg, s, e))
  {
    var s' := Next(cfg, s, e);
    if e.Cleanup? || e.Store? {
      assert s'.log[..|s.log|] == s.log;
    }
  }

  /** The thread a step moves is justified in its new place. */
  lemma MovedIsOk(cfg: Config, s: State, e: Event, id: nat)
    requires Inv(cfg, s) && Enabled(s, e)
    requires id in Next(cfg, s, e).threads && (id !in s.threads || Next(cfg, s, e).threads[id] != s.threads[id])
    ensures ThreadOk(cfg, Next(cfg, s, e).log, Next(cfg, s, e).threads[id])
  {
    assert id in s.threads ==> ThreadOk(cfg, s.log, s.threads[id]);
    if e.LookUp? {
      LookUpIsJustified(cfg, s, s.threads[id], e.m);
    }
  }

  lemma StepKeepsInv(cfg: Config, s: State, e: Event)
    requires Inv(cfg, s) && Enabled(s, e)
    ensures Inv(cfg, Next(cfg, s, e))
  {
    StepKeepsMirror(cfg, s, e);
    var s' := Next(cfg, s, e);
    forall id | id in s'.threads ensures ThreadOk(cfg, s'.log, s'.threads[id]) {
      if id !in s.threads || s'.threads[id] != s.threads[id] {
        MovedIsOk(cfg, s, e, id);
      } else if s'.log != s.log {
        LogGrows(cfg, s.log, s'.log[|s.log|], s.threads[id]);
      }
    }
  }

  lemma LookUpIsJustified(cfg: Config, s: State, t: Thread, m: Masters)
    requires Mirrors(s)
    ensures var pc := LookUpPc(cfg, s, t.key, m);
      pc.Returned? ==> Justified(cfg, s.log, t, pc.outcome, pc.basis)
  {
  }

  // ----- runs -------------------------------------------------------------------------------------

  datatype History = History(cfg: Config, states: seq<State>, events: seq<Event>)

  ghost predicate Follows(cfg: Config, s: State, e: Event, s': State) {
    Enabled(s, e) && s' == Next(cfg, s, e)
  }

  ghost predicate IsRun(h: History) {
    && |h.states| == |h.events| + 1
    && h.states[0].cache == map[] && h.states[0].lastUpdate == None && h.states[0].threads == map[]
        && h.states[0].log == []
    && forall i :: 0 <= i < |h.events| ==> Follows(h.cfg, h.states[i], h.events[i], h.states[i + 1])
  }

  lemma {:induction false} RunKeepsInv(h: History, i: nat)
    requires IsRun(h) && i < |h.states|
    ensures Inv(h.cfg, h.states[i])
  {
    if i > 0 {
      RunKeepsInv(h, i - 1);
      assert Follows(h.cfg, h.states[i - 1], h.events[i - 1], h.states[i]);
      StepKeepsInv(h.cfg, h.states[i - 1], h.events[i - 1]);
    }
  }

  // ----- where stored answers come from -----------------------------------------------------------

  /** Event `m` is the call `id` receiving an answer of the contract that lists exactly `keys`. */
  ghost predicate Answered(h: History, m: int, id: nat, keys: set<string>) {
    0 <= m < |h.events| && h.events[m].Query? && h.events[m].id == id && Listed(h.events[m].q) == Some(keys)
  }

  /** Event `n` is the same call storing that answer, as entry `j` of the log. */
  ghost predicate StoredBy(h: History, m: int, n: int, j: int, e: LogEntry) {
    && 0 <= m < n < |h.events| && n < |h.states| && h.events[n].Store? && e.Stored?
    && Answered(h, m, h.events[n].id, e.keys) && |h.states[n].log| == j && h.states[n].now == e.at
  }

  ghost predicate AsksRest(h: History, i: nat)
    requires i < |h.states|
  {
    forall id :: id in h.states[i].threads && h.states[i].threads[id].pc.Asked? ==>
      exists m :: m < i && Answered(h, m, id, h.states[i].threads[id].pc.keys)
  }

  ghost predicate StoresRest(h: History, i: nat)
    requires i < |h.states|
  {
    forall j :: 0 <= j < |h.states[i].log| && h.states[i].log[j].Stored? ==>
      exists m, n :: n < i && StoredBy(h, m, n, j, h.states[i].log[j])
  }

  lemma {:induction false} RunKeepsAsks(h: History, i: nat)
    requires IsRun(h) && i < |h.states|
    ensures AsksRest(h, i)
  {
    if i > 0 {
      RunKeepsAsks(h, i - 1);
      var s, e, s' := h.states[i - 1], h.events[i - 1], h.states[i];
      assert Follows(h.cfg, s, e, s');
      forall id | id in s'.threads && s'.threads[id].pc.Asked?
        ensures exists m :: m < i && Answered(h, m, id, s'.threads[id].pc.keys)
      {
        if e.Query? && e.id == id {
          assert Answered(h, i - 1, id, s'.threads[id].pc.keys);
        } else {
          assert s'.threads[id] == s.threads[id];
        }
      }
    }
  }

  lemma {:induction false} RunKeepsStores(h: History, i: nat)
    requires IsRun(h) && i < |h.states|
    ensures StoresRest(h, i)
  {
    if i > 0 {
      RunKeepsStores(h, i - 1);
      RunKeepsAsks(h, i - 1);
      var s, e, s' := h.states[i - 1], h.events[i - 1], h.states[i];
      assert Follows(h.cfg, s, e, s');
      forall j | 0 <= j < |s'.log| && s'.log[j].Stored?
        ensures exists m, n :: n < i && StoredBy(h, m, n, j, s'.log[j])
      {
        if j < |s.log| {
          assert s'.log[j] == s.log[j];
          var m, n :| n < i - 1 && StoredBy(h, m, n, j, s.log[j]);
        } else {
          var m :| m < i - 1 && Answered(h, m, e.id, s.threads[e.id].pc.keys);
          assert StoredBy(h, m, i - 1, j, s'.log[j]);
        }
      }
    }
  }

  /** The entry `j` of the log lists the key, and was put there from an answer the contract gave in this run. */
  ghost predicate ListedByContract(h: History, i: nat, j: int, hash: string)
    requires i < |h.states|
  {
    StoredIn(h.states[i].log, j, hash) && exists m, n :: n < i && StoredBy(h, m, n, j, h.states[i].log[j])
  }

  /**
     Acceptance is safe under every interleaving: a call that returned true had a master key, or the
     contract gave an answer in this run that lists the key's hash, and that answer was stored within
     the TTL before the call's lookup, or during the call and before its final reading.
   */
  lemma AcceptanceIsSafe(h: History, i: nat, id: nat)
    requires IsRun(h) && i < |h.states|
    requires id in h.states[i].threads && h.states[i].threads[id].pc.Returned?
    requires h.states[i].threads[id].pc.outcome == Valid(true)
    ensures var s := h.states[i]; var t := s.threads[id]; var b := t.pc.basis;
      || (b.MasterKeys? && BeforeCache(h.cfg, t.key, b.m) == Valid(true))
      || (exists j :: ListedByContract(h, i, j, h.cfg.hash(t.key))
            && ((b.Lookup? && j < b.position && b.at - s.log[j].at <= h.cfg.cacheTTL)
                || (b.Reading? && t.began <= j < b.position)))
  {
    RunKeepsInv(h, i);
    RunKeepsStores(h, i);
    var s := h.states[i];
    var t := s.threads[id];
    assert ThreadOk(h.cfg, s.log, t);
    var b := t.pc.basis;
    if !b.MasterKeys? {
      assert ListedByContract(h, i, b.position - 1, h.cfg.hash(t.key));
    }
  }

  /**
     A rejection that is not an error rests on an answer stored during the same call and not listing
     the key, unless a cleanup came between the call's own store and its final reading.
   */
  lemma RejectionIsFresh(h: History, i: nat, id: nat)
    requires IsRun(h) && i < |h.states|
    requires id in h.states[i].threads && h.states[i].threads[id].pc.Returned?
    requires h.states[i].threads[id].pc.outcome == Valid(false)
    ensures var s := h.states[i]; var t := s.threads[id]; var b := t.pc.basis;
      && b.Reading? && t.began <= b.ownStore < b.position <= |s.log|
      && ((forall j :: b.ownStore < j < b.position ==> !s.log[j].Cleaned?) ==>
            s.log[b.position - 1].Stored? && h.cfg.hash(t.key) !in s.log[b.position - 1].keys)
  {
    RunKeepsInv(h, i);
    var s := h.states[i];
    assert ThreadOk(h.cfg, s.log, s.threads[id]);
  }

  /** In every reachable state the cache is empty or exactly the keys of the answer stored last. */
  lemma CacheMirrorsContract(h: History, i: nat)
    requires IsRun(h) && i < |h.states|
    ensures var s := h.states[i];
      s.cache == map[] || (exists j :: 0 <= j < |s.log| && s.log[j].Stored? && s.cache == AllTrue(s.log[j].keys)
                            && s.lastUpdate == Some(s.log[j].at) && forall k :: j < k < |s.log| ==> !s.log[k].Stored?)
  {
    RunKeepsInv(h, i);
  }
}
