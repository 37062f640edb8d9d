/**
 From a flushed batch to the payload of one POST: `buildRecords` and the first half of
 `submitWithRetry` (token_reporter.go).
 */
module ReportRecords {
  import opened Wrappers
  import opened TokenMeter

  const SECOND := 1_000_000_000  // instants are in nanoseconds

  /** `time.Time.Unix`: whole seconds, rounded down. */
  function UnixSeconds(instant: int): int {
    instant / SECOND
  }

  lemma UnixSecondsExamples()
    ensures UnixSeconds(1_999_999_999) == 1 && UnixSeconds(2_000_000_000) == 2 && UnixSeconds(-1) == -1
  {
  }

  datatype KeyData = KeyData(totals: Counts, timestamp: int, models: Option<map<string, Counts>>)

  datatype Record = Record(apiKeyHash: string, data: KeyData)

  type Payload = map<string, KeyData>

  function KeyDataOf(e: TokenUsage): KeyData {
    KeyData(e.totals, UnixSeconds(e.lastUpdatedAt), if e.models == map[] then None else Some(e.models))
  }

  ghost predicate Lists(records: seq<Record>, key: string) {
    exists i :: 0 <= i < |records| && records[i].apiKeyHash == key
  }

  /** `records` lists the keys of `usage` once each, in some order, with their data. */
  ghost predicate RecordsOf(usage: Usage, records: seq<Record>) {
    && (forall i :: 0 <= i < |records| ==>
          records[i].apiKeyHash in usage && records[i].data == KeyDataOf(usage[records[i].apiKeyHash]))
    && (forall i, j :: 0 <= i < j < |records| ==> records[i].apiKeyHash != records[j].apiKeyHash)
    && (forall key :: key in usage ==> Lists(records, key))
  }

  /** Go ranges over the map in an unspecified order: whatever it is, each key is listed once. */
  method BuildRecords(usage: map<string, UsageCopy>) returns (records: seq<Record>)
    ensures RecordsOf(CopiesValue(usage), records)
  {
    records := [];
    var todo := usage.Keys;
    while todo != {}
      invariant todo <= usage.Keys
      invariant forall i :: 0 <= i < |records| ==>
        && records[i].apiKeyHash in usage.Keys - todo
        && records[i].data == KeyDataOf(CopyValue(usage[records[i].apiKeyHash]))
      invariant forall i, j :: 0 <= i < j < |records| ==> records[i].apiKeyHash != records[j].apiKeyHash
      invariant forall key :: key in usage.Keys - todo ==> Lists(records, key)
      decreases todo
    {
      var key :| key in todo;
      var stats := usage[key];
      var models := BuildModelUsage(stats.modelUsage);
      ghost var before := records;
      records := records + [Record(key, KeyData(stats.totals, UnixSeconds(stats.lastUpdatedAt), models))];
      todo := todo - {key};
      forall k | k in usage.Keys - todo
        ensures Lists(records, k)
      {
        if k == key {
          assert records[|before|].apiKeyHash == k;
        } else {
          assert Lists(before, k);
          var i :| 0 <= i < |before| && before[i].apiKeyHash == k;
          assert records[i].apiKeyHash == k;
        }
      }
    }
  }

  /** The record gets its own copy of the model table, and no field at all when the table is empty. */
  method BuildModelUsage(table: ModelTable) returns (data: Option<map<string, Counts>>)
    ensures data == if table.counts == map[] then None else Some(table.counts)
  {
    if table.counts == map[] {
      return None;
    }
    var copied: map<string, Counts> := map[];
    var todo := table.counts.Keys;
    while todo != {}
      invariant todo <= table.counts.Keys
      invariant copied == map m | m in table.counts.Keys - todo :: table.counts[m]
      decreases todo
    {
      var m :| m in todo;
      var c := table.counts[m];
      copied := copied[m := Counts(c.input, c.output, c.cached)];
      todo := todo - {m};
    }
    assert copied == table.counts;
    data := Some(copied);
  }

  /** `usage_data`: a later record for the same key would replace an earlier one. */
  function UsageData(records: seq<Record>): Payload {
    if records == [] then map[]
    else
      var last := records[|records| - 1];
      UsageData(records[..|records| - 1])[last.apiKeyHash := last.data]
  }

  method BuildUsageData(records: seq<Record>) returns (usageData: Payload)
    ensures usageData == UsageData(records)
  {
    usageData := map[];
    for i := 0 to |records|
      invariant usageData == UsageData(records[..i])
    {
      usageData := usageData[records[i].apiKeyHash := records[i].data];
      assert records[..i + 1][..i] == records[..i];
    }
    assert records[..|records|] == records;
  }

  lemma {:induction false} UsageDataOfDistinct(records: seq<Record>)
    requires forall i, j :: 0 <= i < j < |records| ==> records[i].apiKeyHash != records[j].apiKeyHash
    ensures forall i :: 0 <= i < |records| ==>
      records[i].apiKeyHash in UsageData(records) && UsageData(records)[records[i].apiKeyHash] == records[i].data
    ensures forall key :: key in UsageData(records) ==> Lists(records, key)
  {
    if records != [] {
      var rest := records[..|records| - 1];
      UsageDataOfDistinct(rest);
      forall key | key in UsageData(records)
        ensures Lists(records, key)
      {
        if key != records[|records| - 1].apiKeyHash {
          assert Lists(rest, key);
          var i :| 0 <= i < |rest| && rest[i].apiKeyHash == key;
          assert records[i].apiKeyHash == key;
        }
      }
    }
  }

  /** Nothing is lost, merged or overwritten between the batch and the payload. */
  lemma PayloadIsBatch(usage: Usage, records: seq<Record>)
    requires RecordsOf(usage, records)
    ensures UsageData(records) == map key | key in usage :: KeyDataOf(usage[key])
  {
    UsageDataOfDistinct(records);
    var p := UsageData(records);
    forall key | key in p ensures key in usage {
      assert Lists(records, key);
    }
    forall key | key in usage ensures key in p && p[key] == KeyDataOf(usage[key]) {
      assert Lists(records, key);
      var i :| 0 <= i < |records| && records[i].apiKeyHash == key;
    }
  }

  function Truncated(e: TokenUsage): TokenUsage {
    e.(lastUpdatedAt := UnixSeconds(e.lastUpdatedAt) * SECOND)
  }

  /** What the metering endpoint can read back out of one key's data. */
  function ReadBack(d: KeyData): TokenUsage {
    TokenUsage(d.totals, d.timestamp * SECOND, if d.models.Some? then d.models.value else map[])
  }

  /** The batch can be read back from the payload, up to the timestamps' fractions of a second. */
  lemma BatchRoundTrip(usage: Usage, records: seq<Record>)
    requires RecordsOf(usage, records)
    ensures (map key | key in UsageData(records) :: ReadBack(UsageData(records)[key]))
         == (map key | key in usage :: Truncated(usage[key]))
  {
    PayloadIsBatch(usage, records);
  }

  // ----- one cell of a batch: a key, its total or one of its models, and a column ----------------

  datatype Slot = Total | Model(name: string)

  datatype Cell = Cell(key: string, slot: Slot, col: Column)

  function UsageCell(u: Usage, c: Cell): int {
    if c.key !in u then 0
    else if c.slot.Total? then u[c.key].totals.Get(c.col)
    else CountsOf(u[c.key].models, c.slot.name).Get(c.col)
  }

  function PayloadCell(p: Payload, c: Cell): int {
    if c.key !in p then 0
    else if c.slot.Total? then p[c.key].totals.Get(c.col)
    else if p[c.key].models.None? then 0
    else CountsOf(p[c.key].models.value, c.slot.name).Get(c.col)
  }

  function BatchCell(records: seq<Record>, c: Cell): int {
    PayloadCell(UsageData(records), c)
  }

  lemma BatchCellIsUsageCell(usage: Usage, records: seq<Record>, c: Cell)
    requires RecordsOf(usage, records)
    ensures BatchCell(records, c) == UsageCell(usage, c)
  {
    PayloadIsBatch(usage, records);
  }
}
