/**
 * The export job run on every change to the agent-data table: scan the whole
 * table, keep each item's e-mail and capture date, and write them to S3 as
 * CSV and as JSON, once under an all-time key and once under a dated key.
 * The scan's pages, the date, the CSV text the CSV library produces and the
 * point at which an S3 write fails are parameters.
 */
module ProcessStream {
  import opened Wrappers
  import opened Json

  /** A DynamoDB attribute as a scan returns it; `s` is its string value, if it has one. */
  datatype AttrValue = AttrValue(s: Option<string>)

  type ScanItem = map<string, AttrValue>

  /** One scan response: `Items` and `LastEvaluatedKey`, either possibly undefined. */
  datatype ScanPage = ScanPage(items: Option<seq<ScanItem>>, lastEvaluatedKey: Option<ScanItem>)

  /** `{email, captureDate}`; a field is undefined when the attribute has no string value. */
  datatype Record = Record(email: Option<string>, captureDate: Option<string>)

  /** `item.email.S` and `item.captureDate.S` can be read without throwing. */
  predicate Readable(item: ScanItem)
  {
    "email" in item && "captureDate" in item
  }

  function RecordOf(item: ScanItem): Record
    requires Readable(item)
  {
    Record(item["email"].s, item["captureDate"].s)
  }

  /** What `extractRecords` pushes, and whether it got through every item without throwing. */
  datatype Extraction = Extraction(pushed: seq<Record>, complete: bool)

  /** The index of the first item that cannot be read, or `|items|` when there is none. */
  function FirstUnreadable(items: seq<ScanItem>): (n: nat)
    ensures n <= |items|
    ensures forall k :: 0 <= k < n ==> Readable(items[k])
    ensures n < |items| ==> !Readable(items[n])
  {
    if items == [] || !Readable(items[0]) then 0 else 1 + FirstUnreadable(items[1..])
  }

  /** The records of `items`, in order, up to the first item that cannot be read. */
  function ExtractItems(items: seq<ScanItem>): (e: Extraction)
    ensures e.complete <==> forall i :: 0 <= i < |items| ==> Readable(items[i])
    ensures |e.pushed| <= |items|
    ensures forall i :: 0 <= i < |e.pushed| ==> Readable(items[i]) && e.pushed[i] == RecordOf(items[i])
    ensures e.complete ==> |e.pushed| == |items|
    ensures !e.complete ==> !Readable(items[|e.pushed|])
  {
    var n := FirstUnreadable(items);
    Extraction(seq(n, k requires 0 <= k < n => RecordOf(items[k])), n == |items|)
  }

  /** `extractRecords` on a page: nothing at all when `Items` is undefined. */
  function Extract(items: Option<seq<ScanItem>>): Extraction
  {
    if items.None? then Extraction([], true) else ExtractItems(items.value)
  }

  /** The caller-owned `records` array that `extractRecords` pushes onto. */
  class RecordList {
    var records: seq<Record>

    constructor()
      ensures records == []
    {
      records := [];
    }

    /**
     * `extractRecords(records, scanResponse)`: push one record per item, in
     * item order, after the records already there; an unreadable item throws
     * a TypeError after the records before it have been pushed.
     */
    method ExtractRecords(items: Option<seq<ScanItem>>) returns (ok: bool)
      modifies this
      ensures records == old(records) + Extract(items).pushed
      ensures ok <==> Extract(items).complete
    {
      if items.None? {
        return true;
      }
      var all := items.value;
      var i := 0;
      while i < |all|
        invariant 0 <= i <= |all|
        invariant forall k :: 0 <= k < i ==> Readable(all[k])
        invariant records == old(records) + seq(i, k requires 0 <= k < i => RecordOf(all[k]))
      {
        var item := all[i];
        if !Readable(item) {
          assert FirstUnreadable(all) == i;
          return false;
        }
        records := records + [RecordOf(item)];
        i := i + 1;
      }
      ok := true;
    }
  }

  /**
   * The pages a well-behaved scan returns: every page but the last carries a
   * `LastEvaluatedKey`, the last does not.
   */
  predicate Paginated(pages: seq<ScanPage>)
  {
    && |pages| > 0
    && (forall i :: 0 <= i < |pages| - 1 ==> pages[i].lastEvaluatedKey.Some?)
    && pages[|pages| - 1].lastEvaluatedKey.None?
  }

  /** Every page's records, page after page. */
  function AllRecords(pages: seq<ScanPage>): seq<Record>
  {
    if pages == [] then [] else AllRecords(pages[..|pages| - 1]) + Extract(pages[|pages| - 1].items).pushed
  }

  predicate AllComplete(pages: seq<ScanPage>)
  {
    forall i :: 0 <= i < |pages| ==> Extract(pages[i].items).complete
  }

  /**
   * `loadDataFromDynamo` as written: the first page is extracted, but asking
   * for the next one reads `results.LastEvaluatedKey`, a variable that does
   * not exist, so any table that needs a second page fails with a
   * ReferenceError.
   */
  method LoadAsWritten(pages: seq<ScanPage>) returns (r: Result<seq<Record>, string>)
    requires Paginated(pages)
    ensures r.Success? <==> |pages| == 1 && Extract(pages[0].items).complete
    ensures r.Success? ==> r.value == Extract(pages[0].items).pushed
    ensures |pages| > 1 && Extract(pages[0].items).complete ==> r == Failure("ReferenceError")
  {
    var records := new RecordList();
    var scanResponse := pages[0];
    var ok := records.ExtractRecords(scanResponse.items);
    if !ok {
      return Failure("TypeError");
    }
    if scanResponse.lastEvaluatedKey.Some? {
      // the loop's first statement reads the undeclared `results`
      return Failure("ReferenceError");
    }
    r := Success(records.records);
  }

  /**
   * `loadDataFromDynamo` as evidently intended: each further scan starts
   * after the previous page's `LastEvaluatedKey`, until a page has none.
   * `requested` holds the `ExclusiveStartKey` of each scan made.
   */
  method LoadDataFromDynamo(pages: seq<ScanPage>) returns (r: Result<seq<Record>, string>, requested: seq<Option<ScanItem>>)
    requires Paginated(pages)
    ensures r.Success? <==> AllComplete(pages)
    ensures r.Success? ==> r.value == AllRecords(pages) && |requested| == |pages|
    ensures 0 < |requested| <= |pages| && requested[0] == None
    ensures forall i :: 0 < i < |requested| ==> requested[i] == pages[i - 1].lastEvaluatedKey
    ensures r.Failure? ==> AllComplete(pages[..|requested| - 1]) && !Extract(pages[|requested| - 1].items).complete
  {
    var records := new RecordList();
    var exclusiveStartKey: Option<ScanItem> := None;
    requested := [exclusiveStartKey];
    var i := 0;
    assert requested == StartKeys(pages, 0);
    var scanResponse := pages[i];
    var ok := records.ExtractRecords(scanResponse.items);
    if !ok {
      NotAllComplete(pages, 0);
      StartKeysAt(pages, 0);
      return Failure("TypeError"), requested;
    }
    AllRecordsSnoc(pages, 0);
    AllCompleteSnoc(pages, 0);
    while scanResponse.lastEvaluatedKey.Some?
      invariant 0 <= i < |pages| && scanResponse == pages[i]
      invariant requested == StartKeys(pages, i)
      invariant AllComplete(pages[..i + 1])
      invariant records.records == AllRecords(pages[..i + 1])
      decreases |pages| - i
    {
      exclusiveStartKey := scanResponse.lastEvaluatedKey;
      StartKeysSnoc(pages, i);
      i := i + 1;
      requested := requested + [exclusiveStartKey];
      scanResponse := pages[i];
      ok := records.ExtractRecords(scanResponse.items);
      if !ok {
        NotAllComplete(pages, i);
        StartKeysAt(pages, i);
        return Failure("TypeError"), requested;
      }
      AllRecordsSnoc(pages, i);
      AllCompleteSnoc(pages, i);
    }
    assert pages[..i + 1] == pages;
    StartKeysAt(pages, i);
    r := Success(records.records);
  }

  /** The `ExclusiveStartKey` of each of the first `n + 1` scans: none, then each page's key in turn. */
  function StartKeys(pages: seq<ScanPage>, n: nat): seq<Option<ScanItem>>
    requires n < |pages|
  {
    [None] + seq(n, k requires 0 <= k < n => pages[k].lastEvaluatedKey)
  }

  lemma StartKeysAt(pages: seq<ScanPage>, n: nat)
    requires n < |pages|
    ensures |StartKeys(pages, n)| == n + 1 && StartKeys(pages, n)[0] == None
    ensures forall i :: 0 < i <= n ==> StartKeys(pages, n)[i] == pages[i - 1].lastEvaluatedKey
  {
  }

  lemma StartKeysSnoc(pages: seq<ScanPage>, n: nat)
    requires n + 1 < |pages|
    ensures StartKeys(pages, n + 1) == StartKeys(pages, n) + [pages[n].lastEvaluatedKey]
  {
  }

  lemma AllRecordsSnoc(pages: seq<ScanPage>, i: nat)
    requires i < |pages|
    ensures AllRecords(pages[..i + 1]) == AllRecords(pages[..i]) + Extract(pages[i].items).pushed
  {
    assert pages[..i + 1][..i] == pages[..i];
  }

  lemma AllCompleteSnoc(pages: seq<ScanPage>, i: nat)
    requires i < |pages|
    ensures AllComplete(pages[..i + 1]) <==> AllComplete(pages[..i]) && Extract(pages[i].items).complete
  {
    assert pages[..i + 1][i] == pages[i];
    assert forall k :: 0 <= k < i ==> pages[..i + 1][k] == pages[..i][k];
  }

  lemma NotAllComplete(pages: seq<ScanPage>, i: nat)
    requires i < |pages| && !Extract(pages[i].items).complete
    ensures !AllComplete(pages)
  {
  }

  /** On a table that fits one page, the intended loader returns what the first page holds. */
  lemma OnePage(pages: seq<ScanPage>)
    requires |pages| == 1
    ensures AllRecords(pages) == Extract(pages[0].items).pushed
    ensures AllComplete(pages) <==> Extract(pages[0].items).complete
  {
    assert pages[..0] == [];
  }

  /** When every page extracts completely, there is one record per scanned item. */
  lemma AllRecordsCount(pages: seq<ScanPage>)
    requires AllComplete(pages)
    ensures |AllRecords(pages)| == Count(pages)
    decreases |pages|
  {
    if pages != [] {
      var n := |pages| - 1;
      assert AllComplete(pages[..n]) by {
        forall i | 0 <= i < n ensures Extract(pages[..n][i].items).complete {
          assert pages[..n][i] == pages[i];
        }
      }
      AllRecordsCount(pages[..n]);
      assert Extract(pages[n].items).complete;
    }
  }

  /** How many items the pages hold in all. */
  function Count(pages: seq<ScanPage>): nat
  {
    if pages == [] then 0
    else Count(pages[..|pages| - 1]) + (if pages[|pages| - 1].items.None? then 0 else |pages[|pages| - 1].items.value|)
  }

  // ---------------------------------------------------------------------
  // exportDataToS3
  // ---------------------------------------------------------------------

  /** An object body: CSV text, or the JSON value `JSON.stringify` serialises. */
  datatype Body = Text(text: string) | JsonValue(value: Json)

  /** One `saveToS3` call. */
  datatype Put = Put(bucket: Option<string>, key: string, body: Body, contentType: string)

  /** `S3_PREFIX` and `S3_BUCKET`, either possibly unset. */
  datatype ExportEnv = ExportEnv(prefix: Option<string>, bucket: Option<string>)

  /** How `process.env.S3_PREFIX + '/...'` renders an unset prefix. */
  function PrefixText(prefix: Option<string>): string
  {
    if prefix.None? then "undefined" else prefix.value
  }

  const CsvName := "/agent_environment.csv"
  const JsonName := "/agent_environment.json"

  function RecordJson(r: Record): Json
  {
    JObject(
      (if r.email.Some? then [("email", JString(r.email.value))] else []) +
      (if r.captureDate.Some? then [("captureDate", JString(r.captureDate.value))] else []))
  }

  /** `{agentData: records}` */
  function AgentData(records: seq<Record>): (j: Json)
    ensures Get(j, "agentData") == Some(JArray(seq(|records|, i requires 0 <= i < |records| => RecordJson(records[i]))))
  {
    JObject([("agentData", JArray(seq(|records|, i requires 0 <= i < |records| => RecordJson(records[i]))))])
  }

  /**
   * The four writes of `exportDataToS3`, in order, for the date `date`
   * (formatted YYYY/MM/DD) and the text `csv` the CSV writer produces for
   * the records.
   */
  function ExportPlan(env: ExportEnv, date: string, records: Option<seq<Record>>, csv: string): (puts: seq<Put>)
    ensures |puts| == 4
    ensures forall i :: 0 <= i < 4 ==> puts[i].bucket == env.bucket
    ensures puts[0].key == PrefixText(env.prefix) + CsvName
    ensures puts[1].key == PrefixText(env.prefix) + "/" + date + CsvName
    ensures puts[2].key == PrefixText(env.prefix) + JsonName
    ensures puts[3].key == PrefixText(env.prefix) + "/" + date + JsonName
    ensures puts[0].contentType == puts[1].contentType == "text/csv"
    ensures puts[2].contentType == puts[3].contentType == "application/json"
    ensures puts[0].body == puts[1].body && puts[2].body == puts[3].body
    ensures records.None? || records.value == [] ==> puts[0].body == Text("") && puts[2].body == JsonValue(AgentData([]))
    ensures records.Some? && records.value != [] ==>
      puts[0].body == Text(csv) && puts[2].body == JsonValue(AgentData(records.value))
  {
    var prefix := PrefixText(env.prefix);
    var allPathCsv := prefix + CsvName;
    var datePathCsv := prefix + "/" + date + CsvName;
    var allPathJson := prefix + JsonName;
    var datePathJson := prefix + "/" + date + JsonName;
    var (csvBody, jsonBody) :=
      if records.Some? && |records.value| > 0 then (Text(csv), JsonValue(AgentData(records.value)))
      else (Text(""), JsonValue(AgentData([])));
    [ Put(env.bucket, allPathCsv, csvBody, "text/csv"),
      Put(env.bucket, datePathCsv, csvBody, "text/csv"),
      Put(env.bucket, allPathJson, jsonBody, "application/json"),
      Put(env.bucket, datePathJson, jsonBody, "application/json") ]
  }

  /** The four keys are pairwise distinct, whatever the prefix and the date. */
  lemma ExportKeysDistinct(env: ExportEnv, date: string, records: Option<seq<Record>>, csv: string)
    ensures var puts := ExportPlan(env, date, records, csv);
      forall i, j :: 0 <= i < j < 4 ==> puts[i].key != puts[j].key
  {
    var puts := ExportPlan(env, date, records, csv);
    var p := PrefixText(env.prefix);
    // all-time and dated keys differ in length; CSV and JSON keys differ in their last character
    assert |puts[0].key| == |p| + 22 && |puts[1].key| == |p| + 23 + |date|;
    assert |puts[2].key| == |p| + 23 && |puts[3].key| == |p| + 24 + |date|;
    assert puts[0].key[|puts[0].key| - 1] == 'v' && puts[2].key[|puts[2].key| - 1] == 'n';
    assert puts[1].key[|puts[1].key| - 1] == 'v' && puts[3].key[|puts[3].key| - 1] == 'n';
  }

  /**
   * Performing the writes in order until one fails: `failAt` is the index of
   * the write S3 refuses, if any. Returns the writes made and whether all were.
   */
  function Performed(puts: seq<Put>, failAt: Option<nat>): (r: (seq<Put>, bool))
    ensures |r.0| <= |puts| && r.0 == puts[..|r.0|]
    ensures r.1 <==> |r.0| == |puts|
    ensures r.1 <==> failAt.None? || failAt.value >= |puts|
    ensures !r.1 ==> |r.0| == failAt.value
  {
    if failAt.Some? && failAt.value < |puts| then (puts[..failAt.value], false) else (puts, true)
  }

  /**
   * `saveToS3`, against the writes made so far: S3 refuses the write whose
   * index is `failAt`, and the refusal is thrown on.
   */
  method SaveToS3(written: seq<Put>, put: Put, failAt: Option<nat>) returns (ok: bool, after: seq<Put>)
    ensures ok <==> failAt != Some(|written|)
    ensures after == if ok then written + [put] else written
  {
    if failAt == Some(|written|) {
      return false, written;
    }
    return true, written + [put];
  }

  /**
   * `exportDataToS3`: the four writes of the plan, each awaited before the
   * next, stopping at the first that throws.
   */
  method ExportDataToS3(env: ExportEnv, date: string, records: Option<seq<Record>>, csv: string, failAt: Option<nat>)
    returns (written: seq<Put>, ok: bool)
    ensures (written, ok) == Performed(ExportPlan(env, date, records, csv), failAt)
  {
    var plan := ExportPlan(env, date, records, csv);
    ok, written := SaveToS3([], plan[0], failAt);
    if !ok {
      assert written == plan[..0];
      return;
    }
    ok, written := SaveToS3(written, plan[1], failAt);
    if !ok {
      assert written == plan[..1];
      return;
    }
    ok, written := SaveToS3(written, plan[2], failAt);
    if !ok {
      assert written == plan[..2];
      return;
    }
    ok, written := SaveToS3(written, plan[3], failAt);
    if !ok {
      assert written == plan[..3];
      return;
    }
    assert written == plan;
  }

  /** What the handler passes to its callback. */
  datatype Callback = Callback(error: Option<string>, message: string)

  const Processed := Callback(None, "Successfully processed records")

  /**
   * The handler, with the loader as evidently intended: load, then export;
   * success is reported only when both finish without throwing.
   */
  method Handle(pages: seq<ScanPage>, env: ExportEnv, date: string, csv: string, failAt: Option<nat>)
    returns (callback: Callback, written: seq<Put>)
    requires Paginated(pages)
    ensures callback == Processed <==> AllComplete(pages) && Performed(ExportPlan(env, date, Some(AllRecords(pages)), csv), failAt).1
    ensures callback != Processed ==> callback.error.Some? && callback.message == "Failed to process stream message"
    ensures !AllComplete(pages) ==> written == []
    ensures AllComplete(pages) ==> written == Performed(ExportPlan(env, date, Some(AllRecords(pages)), csv), failAt).0
  {
    var data, _ := LoadDataFromDynamo(pages);
    if data.Failure? {
      return Callback(Some(data.error), "Failed to process stream message"), [];
    }
    var ok;
    written, ok := ExportDataToS3(env, date, Some(data.value), csv, failAt);
    if ok {
      callback := Processed;
    } else {
      callback := Callback(Some("S3 error"), "Failed to process stream message");
    }
  }
}
