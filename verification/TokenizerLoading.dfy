/**
 Double-checked loading of tokenizers under a read-write lock (getOrLoadHFTokenizer and
 getOrLoadSPTokenizer in metering/accurate_tokenizer.go). The lock is modelled: readers and the
 writer exclude each other because of its acquire and release steps, not by assumption.
 */
module TokenizerLoading {
  import opened Wrappers

  /** An object identity. */
  type Tokenizer = nat

  datatype Pc =
    | Called
    | Reading                              // holds the read lock
    | DoneReading(found: Option<Tokenizer>)
    | Waiting                              // not found; wants the write lock
    | Locked                               // holds the write lock
    | Loading
    | Built(built: Tokenizer)              // loaded, not in the table yet
    | DoneWriting(result: Option<Tokenizer>)
    | Returned(result: Option<Tokenizer>)  // None is an error

  datatype Thread = Thread(identifier: string, pc: Pc)

  datatype Load = Load(identifier: string, tokenizer: Tokenizer)

  /** `loads` lists the successful loads; nothing reads it. */
  datatype State = State(
    table: map<string, Tokenizer>, readers: set<nat>, writer: Option<nat>, threads: map<nat, Thread>,
    nextObject: Tokenizer, loads: seq<Load>)

  datatype Event =
    | Call(id: nat, identifier: string)
    | RLock(id: nat)
    | FastCheck(id: nat)
    | RUnlock(id: nat)
    | Lock(id: nat)
    | SlowCheck(id: nat)
    | TryLoad(id: nat, ok: bool)
    | Insert(id: nat)
    | Unlock(id: nat)

  predicate At(s: State, id: nat, pc: Pc) {
    id in s.threads && s.threads[id].pc == pc
  }

  predicate Enabled(s: State, e: Event) {
    match e
    case Call(id, _) => id !in s.threads
    case RLock(id) => At(s, id, Called) && s.writer == None
    case FastCheck(id) => At(s, id, Reading)
    case RUnlock(id) => id in s.threads && s.threads[id].pc.DoneReading?
    case Lock(id) => At(s, id, Waiting) && s.writer == None && s.readers == {}
    case SlowCheck(id) => At(s, id, Locked)
    case TryLoad(id, _) => At(s, id, Loading)
    case Insert(id) => id in s.threads && s.threads[id].pc.Built?
    case Unlock(id) => id in s.threads && s.threads[id].pc.DoneWriting?
  }

  function Moved(s: State, id: nat, pc: Pc): State
    requires id in s.threads
  {
    s.(threads := s.threads[id := s.threads[id].(pc := pc)])
  }

  function InTable(s: State, identifier: string): Option<Tokenizer> {
    if identifier in s.table then Some(s.table[identifier]) else None
  }

  function Next(s: State, e: Event): State
    requires Enabled(s, e)
  {
    match e
    case Call(id, identifier) => s.(threads := s.threads[id := Thread(identifier, Called)])
    case RLock(id) => Moved(s, id, Reading).(readers := s.readers + {id})
    case FastCheck(id) => Moved(s, id, DoneReading(InTable(s, s.threads[id].identifier)))
    case RUnlock(id) =>
      var found := s.threads[id].pc.found;
      Moved(s, id, if found.Some? then Returned(found) else Waiting).(readers := s.readers - {id})
    case Lock(id) => Moved(s, id, Locked).(writer := Some(id))
    case SlowCheck(id) =>
      var found := InTable(s, s.threads[id].identifier);
      Moved(s, id, if found.Some? then DoneWriting(found) else Loading)
    case TryLoad(id, ok) =>
      if ok then
        Moved(s, id, Built(s.nextObject)).(nextObject := s.nextObject + 1,
          loads := s.loads + [Load(s.threads[id].identifier, s.nextObject)])
      else Moved(s, id, DoneWriting(None))
    case Insert(id) =>
      var t := s.threads[id].pc.built;
      Moved(s, id, DoneWriting(Some(t))).(table := s.table[s.threads[id].identifier := t])
    case Unlock(id) => Moved(s, id, Returned(s.threads[id].pc.result)).(writer := None)
  }

  // ----- the invariant ----------------------------------------------------------------------------

  predicate HoldsRead(pc: Pc) {
    pc.Reading? || pc.DoneReading?
  }

  predicate HoldsWrite(pc: Pc) {
    pc.Locked? || pc.Loading? || pc.Built? || pc.DoneWriting?
  }

  ghost predicate LockOk(s: State) {
    && (s.writer.Some? ==> s.readers == {})
    && (forall id :: id in s.threads ==> (HoldsRead(s.threads[id].pc) <==> id in s.readers))
    && (forall id :: id in s.threads ==> (HoldsWrite(s.threads[id].pc) <==> s.writer == Some(id)))
    && (forall id :: id in s.readers ==> id in s.threads)
    && (s.writer.Some? ==> s.writer.value in s.threads)
  }

  predicate Holds(table: map<string, Tokenizer>, identifier: string, t: Option<Tokenizer>) {
    t.Some? ==> identifier in table && table[identifier] == t.value
  }

  predicate ThreadOk(table: map<string, Tokenizer>, t: Thread) {
    match t.pc
    case DoneReading(found) => Holds(table, t.identifier, found)
    case Loading => t.identifier !in table
    case Built(_) => t.identifier !in table
    case DoneWriting(result) => Holds(table, t.identifier, result)
    case Returned(result) => Holds(table, t.identifier, result)
    case _ => true
  }

  /** A loaded tokenizer is in the table, or in the writer's hands on its way there. */
  predicate Placed(s: State, l: Load) {
    || (l.identifier in s.table && s.table[l.identifier] == l.tokenizer)
    || (s.writer.Some? && s.writer.value in s.threads
        && s.threads[s.writer.value] == Thread(l.identifier, Built(l.tokenizer)))
  }

  ghost predicate LoadsOk(s: State) {
    && (forall i :: 0 <= i < |s.loads| ==> Placed(s, s.loads[i]) && s.loads[i].tokenizer < s.nextObject)
    && (forall i, j :: 0 <= i < j < |s.loads| ==>
          s.loads[i].identifier != s.loads[j].identifier && s.loads[i].tokenizer != s.loads[j].tokenizer)
    && (forall k :: k in s.table ==> Load(k, s.table[k]) in s.loads)
    && (forall id :: id in s.threads && s.threads[id].pc.Built? ==>
          Load(s.threads[id].identifier, s.threads[id].pc.built) in s.loads)
  }

  ghost predicate Inv(s: State) {
    && LockOk(s) && LoadsOk(s)
    && forall id :: id in s.threads ==> ThreadOk(s.table, s.threads[id])
  }

  lemma StepKeepsLock(s: State, e: Event)
    requires LockOk(s) && Enabled(s, e)
    ensures LockOk(Next(s, e))
  {
  }

  /** The table only grows: no entry is replaced or removed. */
  lemma TableGrows(s: State, e: Event)
    requires Inv(s) && Enabled(s, e)
    ensures forall k :: k in s.table ==> k in Next(s, e).table && Next(s, e).table[k] == s.table[k]
  {
    if e.Insert? {
      assert ThreadOk(s.table, s.threads[e.id]);
    }
  }

  lemma StepKeepsThreads(s: State, e: Event, id: nat)
    requires Inv(s) && Enabled(s, e) && id in Next(s, e).threads
    ensures ThreadOk(Next(s, e).table, Next(s, e).threads[id])
  {
    TableGrows(s, e);
    assert id in s.threads ==> ThreadOk(s.table, s.threads[id]);
    if e.Insert? && id != e.id {
      assert HoldsWrite(s.threads[e.id].pc) && s.writer == Some(e.id);
      assert !HoldsWrite(s.threads[id].pc);
    }
  }

  /** The thread about to load holds the lock alone, so nobody has loaded its identifier before. */
  lemma LoadIsFirst(s: State, id: nat)
    requires Inv(s) && At(s, id, Loading)
    ensures forall i :: 0 <= i < |s.loads| ==> s.loads[i].identifier != s.threads[id].identifier
  {
    assert HoldsWrite(s.threads[id].pc) && s.writer == Some(id);
    forall i | 0 <= i < |s.loads| ensures s.loads[i].identifier != s.threads[id].identifier {
      assert Placed(s, s.loads[i]);
      assert ThreadOk(s.table, s.threads[id]);
    }
  }

  /** A tokenizer that has its place keeps it; the writer's reaches the table with its insertion. */
  lemma StepKeepsPlace(s: State, e: Event, l: Load)
    requires Inv(s) && Enabled(s, e) && Placed(s, l)
    ensures Placed(Next(s, e), l)
  {
    TableGrows(s, e);
    if e.TryLoad? || e.Insert? || e.Unlock? || e.SlowCheck? {
      assert HoldsWrite(s.threads[e.id].pc) && s.writer == Some(e.id);
    }
  }

  lemma StepKeepsPlaces(s: State, e: Event)
    requires Inv(s) && Enabled(s, e)
    ensures forall i :: 0 <= i < |s.loads| ==> Placed(Next(s, e), s.loads[i])
  {
    forall i | 0 <= i < |s.loads| ensures Placed(Next(s, e), s.loads[i]) {
      StepKeepsPlace(s, e, s.loads[i]);
    }
  }

  /** The one step that adds a load. */
  lemma LoadingKeepsLoads(s: State, e: Event)
    requires Inv(s) && Enabled(s, e) && e.TryLoad?
    ensures LoadsOk(Next(s, e))
  {
    StepKeepsPlaces(s, e);
    LoadIsFirst(s, e.id);
    assert HoldsWrite(s.threads[e.id].pc) && s.writer == Some(e.id);
    assert e.ok ==> Next(s, e).loads[|s.loads|] == Load(s.threads[e.id].identifier, s.nextObject);
  }

  lemma StepKeepsLoads(s: State, e: Event)
    requires Inv(s) && Enabled(s, e)
    ensures LoadsOk(Next(s, e))
  {
    if e.TryLoad? {
      LoadingKeepsLoads(s, e);
    } else {
      StepKeepsPlaces(s, e);
    }
  }

  lemma StepKeepsInv(s: State, e: Event)
    requires Inv(s) && Enabled(s, e)
    ensures Inv(Next(s, e))
  {
    StepKeepsLock(s, e);
    StepKeepsLoads(s, e);
    forall id | id in Next(s, e).threads ensures ThreadOk(Next(s, e).table, Next(s, e).threads[id]) {
      StepKeepsThreads(s, e, id);
    }
  }

  // ----- runs -------------------------------------------------------------------------------------

  ghost predicate Follows(s: State, e: Event, s': State) {
    Enabled(s, e) && s' == Next(s, e)
  }

  ghost predicate IsRun(states: seq<State>, events: seq<Event>) {
    && |states| == |events| + 1
    && (exists f :: states[0] == State(map[], {}, None, map[], f, []))
    && forall i :: 0 <= i < |events| ==> Follows(states[i], events[i], states[i + 1])
  }

  lemma {:induction false} RunKeepsInv(states: seq<State>, events: seq<Event>, i: nat)
    requires IsRun(states, events) && i < |states|
    ensures Inv(states[i])
  {
    if i > 0 {
      RunKeepsInv(states, events, i - 1);
      assert Follows(states[i - 1], events[i - 1], states[i]);
      StepKeepsInv(states[i - 1], events[i - 1]);
    }
  }

  /** Under every interleaving, each identifier is successfully loaded at most once. */
  lemma LoadedAtMostOnce(states: seq<State>, events: seq<Event>, i: nat, a: nat, b: nat)
    requires IsRun(states, events) && i < |states|
    requires a < |states[i].loads| && b < |states[i].loads|
        && states[i].loads[a].identifier == states[i].loads[b].identifier
    ensures a == b
  {
    RunKeepsInv(states, events, i);
  }

  lemma {:induction false} TableOnlyGrows(states: seq<State>, events: seq<Event>, i: nat, j: nat)
    requires IsRun(states, events) && i <= j < |states|
    ensures forall k :: k in states[i].table ==> k in states[j].table && states[j].table[k] == states[i].table[k]
    decreases j
  {
    if i < j {
      TableOnlyGrows(states, events, i, j - 1);
      RunKeepsInv(states, events, j - 1);
      assert Follows(states[j - 1], events[j - 1], states[j]);
      TableGrows(states[j - 1], events[j - 1]);
    }
  }

  /** All successful callers for one identifier, whenever they return, get the same tokenizer: the one loaded. */
  lemma CallersAgree(states: seq<State>, events: seq<Event>, i: nat, j: nat, a: nat, b: nat)
    requires IsRun(states, events) && i <= j < |states|
    requires a in states[i].threads && b in states[j].threads
    requires states[i].threads[a].identifier == states[j].threads[b].identifier
    requires states[i].threads[a].pc.Returned? && states[i].threads[a].pc.result.Some?
    requires states[j].threads[b].pc.Returned? && states[j].threads[b].pc.result.Some?
    ensures states[i].threads[a].pc.result == states[j].threads[b].pc.result
    ensures Load(states[i].threads[a].identifier, states[i].threads[a].pc.result.value) in states[j].loads
  {
    RunKeepsInv(states, events, i);
    RunKeepsInv(states, events, j);
    TableOnlyGrows(states, events, i, j);
    assert ThreadOk(states[i].table, states[i].threads[a]);
    assert ThreadOk(states[j].table, states[j].threads[b]);
  }

  /** While a thread holds the write lock no other holds either lock. */
  lemma WriterIsAlone(states: seq<State>, events: seq<Event>, i: nat, a: nat, b: nat)
    requires IsRun(states, events) && i < |states| && a != b
    requires a in states[i].threads && b in states[i].threads && HoldsWrite(states[i].threads[a].pc)
    ensures !HoldsWrite(states[i].threads[b].pc) && !HoldsRead(states[i].threads[b].pc)
  {
    RunKeepsInv(states, events, i);
  }

  /** A failed load leaves no entry: afterwards the identifier is in the table exactly if a later load succeeded. */
  lemma FailureLeavesNothing(states: seq<State>, events: seq<Event>, i: nat, id: nat)
    requires IsRun(states, events) && i < |events| && events[i] == TryLoad(id, false)
    ensures states[i + 1].table == states[i].table && states[i + 1].loads == states[i].loads
    ensures states[i].threads[id].identifier !in states[i + 1].table
  {
    RunKeepsInv(states, events, i);
    assert Follows(states[i], events[i], states[i + 1]);
    assert ThreadOk(states[i].table, states[i].threads[id]);
  }
}
