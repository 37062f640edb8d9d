/**
 The in-memory accumulator of token counts per hashed API key (token_meter.go).

 Go's `ModelUsage` maps are references: copying a `TokenUsage` struct copies the reference, not the
 table. They are heap objects here (`ModelTable`), so that sharing between a flushed batch, a
 snapshot and the live entries is visible.
 */
module TokenMeter {
  import opened MapSum

  // ----- values ---------------------------------------------------------------------------------

  datatype Counts = Counts(input: int, output: int, cached: int) {
    function Plus(d: Counts): Counts {
      Counts(input + d.input, output + d.output, cached + d.cached)
    }

    function Get(col: Column): int {
      match col
      case Input => input
      case Output => output
      case Cached => cached
    }
  }

  datatype Column = Input | Output | Cached

  const ZERO := Counts(0, 0, 0)

  /** One key's usage as a value: what a `TokenUsage` struct and the table it refers to hold. */
  datatype TokenUsage = TokenUsage(totals: Counts, lastUpdatedAt: int, models: map<string, Counts>)

  type Usage = map<string, TokenUsage>

  function CountsOf(models: map<string, Counts>, model: string): Counts {
    if model in models then models[model] else ZERO
  }

  ghost function ColumnOf(models: map<string, Counts>, col: Column): map<string, int> {
    map m | m in models :: models[m].Get(col)
  }

  /** The totals of a key are the sums over its models, column by column. */
  ghost predicate Totalled(e: TokenUsage) {
    forall col: Column :: e.totals.Get(col) == Sum(ColumnOf(e.models, col))
  }

  ghost predicate AllTotalled(u: Usage) {
    forall key :: key in u ==> Totalled(u[key])
  }

  /** The usage after one recording; the specification of `RecordUsageWithModel`. */
  function Recorded(u: Usage, key: string, model: string, delta: Counts, now: int): Usage {
    var t := Touched(u, key, now);
    t[key := EntryRecorded(t[key], model, delta, now)]
  }

  /** A key seen for the first time gets an entry with nothing in it. */
  function Touched(u: Usage, key: string, now: int): Usage {
    if key in u then u else u[key := TokenUsage(ZERO, now, map[])]
  }

  function EntryRecorded(e: TokenUsage, model: string, delta: Counts, now: int): TokenUsage {
    TokenUsage(e.totals.Plus(delta), now, e.models[model := CountsOf(e.models, model).Plus(delta)])
  }

  /** One recording, for any key, model and counts, keeps every key's totals equal to its model sums. */
  lemma RecordedKeepsTotals(u: Usage, key: string, model: string, delta: Counts, now: int)
    requires AllTotalled(u)
    ensures AllTotalled(Recorded(u, key, model, delta, now))
  {
    var e := Touched(u, key, now)[key];
    var e' := Recorded(u, key, model, delta, now)[key];
    forall col: Column ensures e'.totals.Get(col) == Sum(ColumnOf(e'.models, col)) {
      assert e.totals.Get(col) == Sum(ColumnOf(e.models, col));
      SumUpdate(ColumnOf(e.models, col), model, e'.models[model].Get(col));
      assert ColumnOf(e'.models, col) == ColumnOf(e.models, col)[model := e'.models[model].Get(col)];
    }
  }

  /**
     What one recording changes, field by field: the counts go to the key's totals and to the model's, each
     to its own column; a key or model seen for the first time starts from zero; nothing else moves.
   */
  lemma RecordedMeans(u: Usage, key: string, model: string, delta: Counts, now: int)
    ensures var u' := Recorded(u, key, model, delta, now);
      && u'.Keys == u.Keys + {key} && (forall other :: other in u && other != key ==> u'[other] == u[other])
      && var e, e' := if key in u then u[key] else TokenUsage(Counts(0, 0, 0), now, map[]), u'[key];
         && e'.lastUpdatedAt == now
         && e'.totals.input == e.totals.input + delta.input && e'.totals.output == e.totals.output + delta.output
         && e'.totals.cached == e.totals.cached + delta.cached
         && e'.models.Keys == e.models.Keys + {model}
         && (forall other :: other in e.models && other != model ==> e'.models[other] == e.models[other])
         && var c, c' := if model in e.models then e.models[model] else Counts(0, 0, 0), e'.models[model];
            c' == Counts(c.input + delta.input, c.output + delta.output, c.cached + delta.cached)
  {
  }

  // ----- the heap -------------------------------------------------------------------------------

  class ModelTable {
    ghost const key: string  // the API key hash this table was made for
    var counts: map<string, Counts>

    constructor (ghost key: string)
      ensures this.key == key && counts == map[]
    {
      this.key := key;
      counts := map[];
    }
  }

  class UsageEntry {
    ghost const key: string
    var inputTokens: int
    var outputTokens: int
    var cachedTokens: int
    var lastUpdatedAt: int
    var modelUsage: ModelTable

    constructor (ghost key: string, now: int, table: ModelTable)
      ensures this.key == key && modelUsage == table
      ensures inputTokens == outputTokens == cachedTokens == 0 && lastUpdatedAt == now
    {
      this.key := key;
      inputTokens, outputTokens, cachedTokens, lastUpdatedAt := 0, 0, 0, now;
      modelUsage := table;
    }

    ghost function Value(): TokenUsage
      reads this, modelUsage
    {
      TokenUsage(Counts(inputTokens, outputTokens, cachedTokens), lastUpdatedAt, modelUsage.counts)
    }

    method Add(modelName: string, delta: Counts, now: int)
      modifies this, modelUsage
      ensures modelUsage == old(modelUsage)
      ensures Value() == EntryRecorded(old(Value()), modelName, delta, now)
    {
      inputTokens := inputTokens + delta.input;
      outputTokens := outputTokens + delta.output;
      cachedTokens := cachedTokens + delta.cached;
      lastUpdatedAt := now;

      var counts := CountsOf(modelUsage.counts, modelName);
      counts := Counts(counts.input + delta.input, counts.output + delta.output, counts.cached + delta.cached);
      modelUsage.counts := modelUsage.counts[modelName := counts];
      assert Value().models == EntryRecorded(old(Value()), modelName, delta, now).models;
    }
  }

  /** A copied `TokenUsage` struct: the counters by value, the model table by reference. */
  datatype UsageCopy = UsageCopy(totals: Counts, lastUpdatedAt: int, modelUsage: ModelTable)

  ghost function CopyValue(c: UsageCopy): TokenUsage
    reads c.modelUsage
  {
    TokenUsage(c.totals, c.lastUpdatedAt, c.modelUsage.counts)
  }

  ghost function TablesOf(copies: map<string, UsageCopy>): set<object> {
    set key | key in copies :: copies[key].modelUsage
  }

  /** What a reader of a flushed batch or snapshot sees now. */
  ghost function CopiesValue(copies: map<string, UsageCopy>): Usage
    reads TablesOf(copies)
  {
    map key | key in copies :: CopyValue(copies[key])
  }

  class TokenAccumulator {
    var usage: map<string, UsageEntry>
    ghost var Repr: set<object>

    /** The entries and their tables are the accumulator's own, and no two keys share one. */
    ghost predicate Owned()
      reads this, Repr
    {
      && this in Repr
      && (forall key :: key in usage ==>
            && usage[key] in Repr && usage[key].modelUsage in Repr
            && usage[key].key == key && usage[key].modelUsage.key == key)
    }

    ghost function Contents(): Usage
      reads this, Repr
      requires Owned()
    {
      map key | key in usage :: usage[key].Value()
    }

    ghost predicate Valid()
      reads this, Repr
      ensures Valid() ==> this in Repr
    {
      Owned() && AllTotalled(Contents())
    }

    constructor ()
      ensures Valid() && fresh(Repr) && Contents() == map[]
    {
      usage := map[];
      Repr := {this};
    }

    method Adopt(apiKeyHash: string, entry: UsageEntry)
      requires Owned() && apiKeyHash !in usage
      requires entry.key == entry.modelUsage.key == apiKeyHash
      modifies this
      ensures Owned() && Repr == old(Repr) + {entry, entry.modelUsage}
      ensures usage == old(usage)[apiKeyHash := entry]
      ensures Contents() == old(Contents())[apiKeyHash := entry.Value()]
    {
      usage := usage[apiKeyHash := entry];
      Repr := Repr + {entry, entry.modelUsage};
    }

    method EnsureEntry(apiKeyHash: string, now: int)
      requires Owned()
      modifies this
      ensures Owned() && fresh(Repr - old(Repr)) && old(Repr) <= Repr
      ensures apiKeyHash in usage && forall key :: key in old(usage) ==> key in usage && usage[key] == old(usage)[key]
      ensures Contents() == Touched(old(Contents()), apiKeyHash, now)
    {
      if apiKeyHash !in usage {
        var table := new ModelTable(apiKeyHash);
        var entry := new UsageEntry(apiKeyHash, now, table);
        assert entry.Value().models == map[];
        assert Contents() == old(Contents());
        Adopt(apiKeyHash, entry);
      }
    }

    method AddToEntry(apiKeyHash: string, modelName: string, delta: Counts, now: int)
      requires Owned() && apiKeyHash in usage
      modifies usage[apiKeyHash], usage[apiKeyHash].modelUsage
      ensures Owned() && usage[apiKeyHash].modelUsage == old(usage[apiKeyHash].modelUsage)
      ensures Contents() ==
        old(Contents())[apiKeyHash := EntryRecorded(old(Contents())[apiKeyHash], modelName, delta, now)]
    {
      ghost var before := Contents();
      var entry := usage[apiKeyHash];
      entry.Add(modelName, delta, now);
      assert forall key :: key in before && key != apiKeyHash ==> usage[key].Value() == before[key];
    }

    method RecordUsageWithModel(apiKeyHash: string, modelName: string, delta: Counts, now: int)
      requires Valid()
      modifies Repr
      ensures Valid() && fresh(Repr - old(Repr))
      ensures forall key :: key in old(usage) ==> key in usage && usage[key] == old(usage[key])
      ensures forall key :: key in old(usage) ==> usage[key].modelUsage == old(usage[key].modelUsage)
      ensures Contents() == Recorded(old(Contents()), apiKeyHash, modelName, delta, now)
    {
      RecordedKeepsTotals(Contents(), apiKeyHash, modelName, delta, now);
      EnsureEntry(apiKeyHash, now);
      AddToEntry(apiKeyHash, modelName, delta, now);
    }

    method RecordUsage(apiKeyHash: string, inputTokens: int, outputTokens: int, now: int)
      requires Valid()
      modifies Repr
      ensures Valid() && fresh(Repr - old(Repr))
      ensures Contents() == Recorded(old(Contents()), apiKeyHash, "unknown", Counts(inputTokens, outputTokens, 0), now)
    {
      RecordUsageWithModel(apiKeyHash, "unknown", Counts(inputTokens, outputTokens, 0), now);
    }

    /** Copies the entries; the model tables are shared with the live entries, which are left alone. */
    method PeekUsage() returns (snapshot: map<string, UsageCopy>)
      requires Valid()
      ensures CopiesValue(snapshot) == Contents()
      ensures snapshot.Keys == usage.Keys
      ensures forall key :: key in usage ==> snapshot[key].modelUsage == usage[key].modelUsage
    {
      snapshot := map[];
      var todo := usage.Keys;
      while todo != {}
        invariant todo <= usage.Keys
        invariant snapshot.Keys == usage.Keys - todo
        invariant forall key :: key in snapshot ==>
          && CopyValue(snapshot[key]) == usage[key].Value()
          && snapshot[key].modelUsage == usage[key].modelUsage
        decreases todo
      {
        var key :| key in todo;
        var v := usage[key];
        snapshot := snapshot[key := UsageCopy(Counts(v.inputTokens, v.outputTokens, v.cachedTokens),
                                              v.lastUpdatedAt, v.modelUsage)];
        todo := todo - {key};
      }
    }

    /**
     Hands over everything accumulated and starts again from nothing. The copy is shallow, but the
     tables leave the accumulator's representation, so no later call on it can write to them.
     */
    method FlushUsage() returns (flushed: map<string, UsageCopy>)
      requires Valid()
      modifies this
      ensures Valid() && Contents() == map[]
      ensures CopiesValue(flushed) == old(Contents()) && AllTotalled(CopiesValue(flushed))
      ensures Repr <= old(Repr) && TablesOf(flushed) <= old(Repr) && TablesOf(flushed) !! Repr
      ensures forall a, b :: a in flushed && b in flushed && a != b ==> flushed[a].modelUsage != flushed[b].modelUsage
    {
      flushed := PeekUsage();
      usage := map[];
      Repr := {this};
    }
  }

  // ----- isolation ------------------------------------------------------------------------------

  datatype RecordCall = RecordCall(key: string, model: string, delta: Counts, now: int)

  ghost function RecordedAll(u: Usage, calls: seq<RecordCall>): Usage
    decreases |calls|
  {
    if calls == [] then u
    else
      var c := calls[|calls| - 1];
      Recorded(RecordedAll(u, calls[..|calls| - 1]), c.key, c.model, c.delta, c.now)
  }

  /** Any recordings, one after the other; entries already there stay, with their tables. */
  method RecordEach(acc: TokenAccumulator, calls: seq<RecordCall>)
    requires acc.Valid()
    modifies acc.Repr
    ensures acc.Valid() && fresh(acc.Repr - old(acc.Repr))
    ensures forall key :: key in old(acc.usage) ==>
        key in acc.usage && acc.usage[key].modelUsage == old(acc.usage[key].modelUsage)
    ensures acc.Contents() == RecordedAll(old(acc.Contents()), calls)
  {
    for i := 0 to |calls|
      invariant acc.Valid() && fresh(acc.Repr - old(acc.Repr))
      invariant forall key :: key in old(acc.usage) ==>
          key in acc.usage && acc.usage[key].modelUsage == old(acc.usage[key].modelUsage)
      invariant acc.Contents() == RecordedAll(old(acc.Contents()), calls[..i])
    {
      acc.RecordUsageWithModel(calls[i].key, calls[i].model, calls[i].delta, calls[i].now);
      assert calls[..i + 1][..i] == calls[..i];
    }
    assert calls[..|calls|] == calls;
  }

  /**
     However many recordings follow a flush, for whatever keys, the flushed batch still reads as the
     contents at the moment of the flush, and the recordings all land in the new accumulation.
   */
  method FlushThenRecord(acc: TokenAccumulator, calls: seq<RecordCall>) returns (flushed: map<string, UsageCopy>)
    requires acc.Valid()
    modifies acc.Repr
    ensures acc.Valid()
    ensures CopiesValue(flushed) == old(acc.Contents()) && AllTotalled(CopiesValue(flushed))
    ensures acc.Contents() == RecordedAll(map[], calls)
  {
    flushed := acc.FlushUsage();
    label flush:
    RecordEach(acc, calls);
    assert forall key :: key in flushed ==> unchanged@flush(flushed[key].modelUsage);
    assert CopiesValue(flushed) == old@flush(CopiesValue(flushed));
  }

  /** A recording leaves the entry's model table as it was exactly when it adds nothing to a model already there. */
  lemma TableUnchangedIff(e: TokenUsage, model: string, delta: Counts, now: int)
    ensures EntryRecorded(e, model, delta, now).models == e.models <==> model in e.models && delta == ZERO
  {
    if EntryRecorded(e, model, delta, now).models == e.models {
      assert model in e.models && e.models[model] == e.models[model].Plus(delta);
    }
  }

  /**
     A snapshot taken by `PeekUsage` is not isolated. After any recordings every key in it has kept
     its totals and time but shows the live model table, so its totals match its models exactly when
     the key's live totals have come back to what they were.
   */
  method PeekThenRecord(acc: TokenAccumulator, calls: seq<RecordCall>) returns (snapshot: map<string, UsageCopy>)
    requires acc.Valid()
    modifies acc.Repr
    ensures acc.Valid() && acc.Contents() == RecordedAll(old(acc.Contents()), calls)
    ensures snapshot.Keys == old(acc.Contents()).Keys && snapshot.Keys <= acc.Contents().Keys
    ensures forall key :: key in snapshot ==>
      && CopyValue(snapshot[key]) == old(acc.Contents())[key].(models := acc.Contents()[key].models)
      && (Totalled(CopyValue(snapshot[key])) <==> acc.Contents()[key].totals == old(acc.Contents())[key].totals)
  {
    snapshot := acc.PeekUsage();
    ghost var was := acc.Contents();
    assert forall key :: key in snapshot ==> CopiesValue(snapshot)[key] == was[key];
    RecordEach(acc, calls);
    forall key | key in snapshot
      ensures CopyValue(snapshot[key]) == was[key].(models := acc.Contents()[key].models)
      ensures Totalled(CopyValue(snapshot[key])) <==> acc.Contents()[key].totals == was[key].totals
    {
      assert acc.usage[key].Value() == acc.Contents()[key];
      SameModels(CopyValue(snapshot[key]), acc.Contents()[key]);
    }
  }

  lemma SameModels(e: TokenUsage, live: TokenUsage)
    requires e.models == live.models && Totalled(live)
    ensures Totalled(e) <==> live.totals == e.totals
  {
    if live.totals != e.totals {
      var col :| live.totals.Get(col) != e.totals.Get(col);
    }
  }
}
