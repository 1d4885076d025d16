/**
  The sequential LLM endpoint load and latency tester (`task1/test_endpoint.py`).

  A run sends each prompt of a list, one after the other, to either a simulated
  endpoint (mock mode) or a configured real one, records one latency per
  prompt, and hands the per-request records and a run summary to the CSV and
  JSON writers. All readings of the outside world are parameters: the process
  environment is a map, and each request comes with a `Sample` holding the
  random draw, the network reply and the timestamp it would observe. The clock
  span of the whole run is the parameter `totalTime`.
 */
module EndpointTester {
  import opened Wrappers
  import opened Metrics
  import Text

  // ---------------------------------------------------------------------------
  // Configuration (`load_config`)
  // ---------------------------------------------------------------------------

  const EndpointVar := "LLM_ENDPOINT_URL"
  const ApiKeyVar := "LLM_API_KEY"
  const ModelVar := "LLM_MODEL_NAME"

  /** The keys of the configuration dictionary, in its insertion order. */
  const ConfigKeys: seq<string> := ["endpoint", "api_key", "model"]

  /** The environment variable read for each configuration key. */
  const VarOf: map<string, string> :=
    map["endpoint" := EndpointVar, "api_key" := ApiKeyVar, "model" := ModelVar]

  datatype Config = Config(endpoint: string, apiKey: string, model: string)

  /** `os.getenv(name)` over an environment given as a map. */
  function GetEnv(env: map<string, string>, name: string): Option<string> {
    if name in env then Some(env[name]) else None
  }

  /** Python truthiness of `os.getenv`'s result: `None` and `""` are false. */
  predicate Truthy(v: Option<string>) {
    v.Some? && v.value != ""
  }

  /** The variable is set to a non-empty value. */
  predicate IsSet(env: map<string, string>, name: string) {
    name in env && env[name] != ""
  }

  /** One item of the configuration dictionary. */
  datatype Setting = Setting(key: string, value: Option<string>)

  /** The dictionary `load_config` builds, in insertion order. */
  function ConfigSettings(env: map<string, string>): seq<Setting> {
    [ Setting("endpoint", GetEnv(env, EndpointVar)),
      Setting("api_key", GetEnv(env, ApiKeyVar)),
      Setting("model", GetEnv(env, ModelVar)) ]
  }

  /** `[k for k, v in config.items() if not v]` */
  function FalsyKeys(settings: seq<Setting>): seq<string> {
    if settings == [] then []
    else (if Truthy(settings[0].value) then [] else [settings[0].key]) + FalsyKeys(settings[1..])
  }

  /** Position of a configuration key in `ConfigKeys`. */
  function KeyRank(key: string): nat {
    if key == "endpoint" then 0 else if key == "api_key" then 1 else 2
  }

  lemma FalsyKeysOfConfig(env: map<string, string>)
    ensures FalsyKeys(ConfigSettings(env)) ==
      (if IsSet(env, EndpointVar) then [] else ["endpoint"]) +
      (if IsSet(env, ApiKeyVar) then [] else ["api_key"]) +
      (if IsSet(env, ModelVar) then [] else ["model"])
  {
    var s := ConfigSettings(env);
    assert s[1..][1..][1..] == [];
    assert FalsyKeys(s[1..][1..]) == (if IsSet(env, ModelVar) then [] else ["model"]) + FalsyKeys([]);
  }

  /**
    `load_config`: fails exactly when one of the three variables is unset or
    empty, naming every such configuration key and only those, in the order
    endpoint, api_key, model; on success every value is the non-empty value of
    its variable.
   */
  function LoadConfig(env: map<string, string>): (r: Result<Config, seq<string>>)
    ensures r.Failure? <==> !IsSet(env, EndpointVar) || !IsSet(env, ApiKeyVar) || !IsSet(env, ModelVar)
    ensures r.Failure? ==> forall k :: k in r.error <==> k in VarOf && !IsSet(env, VarOf[k])
    ensures r.Failure? ==> forall i, j :: 0 <= i < j < |r.error| ==> KeyRank(r.error[i]) < KeyRank(r.error[j])
    ensures r.Success? ==>
      && r.value.endpoint == env[EndpointVar] && r.value.endpoint != ""
      && r.value.apiKey == env[ApiKeyVar] && r.value.apiKey != ""
      && r.value.model == env[ModelVar] && r.value.model != ""
  {
    FalsyKeysOfConfig(env);
    var missing := FalsyKeys(ConfigSettings(env));
    if missing != [] then Failure(missing)
    else Success(Config(env[EndpointVar], env[ApiKeyVar], env[ModelVar]))
  }

  /** Python's `repr` of a list of identifier-like strings. */
  function ListRepr(items: seq<string>): string {
    "[" + Text.Join(QuoteAll(items), ", ") + "]"
  }

  function QuoteAll(items: seq<string>): (r: seq<string>)
    ensures |r| == |items|
  {
    if items == [] then [] else ["'" + items[0] + "'"] + QuoteAll(items[1..])
  }

  /** The message of the `EnvironmentError` raised by `load_config`. */
  function MissingMessage(missing: seq<string>): string {
    "Missing environment variables: " + ListRepr(missing)
  }

  /** With only the API key set, the error names endpoint and model. */
  lemma LoadConfigExample()
    ensures LoadConfig(map[ApiKeyVar := "k"]) == Failure(["endpoint", "model"])
  {
    var env := map[ApiKeyVar := "k"];
    assert EndpointVar !in env && ModelVar !in env && IsSet(env, ApiKeyVar);
    FalsyKeysOfConfig(env);
    assert ["endpoint"] + [] + ["model"] == ["endpoint", "model"];
  }

  lemma MissingMessageExample()
    ensures MissingMessage(["endpoint", "model"]) == "Missing environment variables: ['endpoint', 'model']"
  {
    var quoted := QuoteAll(["endpoint", "model"]);
    assert ["endpoint", "model"][1..] == ["model"];
    assert QuoteAll(["model"]) == ["'model'"] by {
      assert ["model"][1..] == [];
      assert "'" + "model" + "'" == "'model'";
    }
    assert "'" + "endpoint" + "'" == "'endpoint'";
    assert quoted == ["'endpoint'", "'model'"];
    assert quoted[1..] == ["'model'"];
  }

  // ---------------------------------------------------------------------------
  // Latency sources (`mock_llm_call`, `call_llm`)
  // ---------------------------------------------------------------------------

  const DefaultMinDelay := 0.3
  const DefaultMaxDelay := 1.2

  /** `random.uniform(a, b)`, that is `a + (b - a) * random.random()`, for the draw `u`. */
  function Uniform(a: real, b: real, u: real): (r: real)
    requires 0.0 <= u < 1.0
    ensures a <= b ==> a <= r <= b
    ensures b <= a ==> b <= r <= a
  {
    var d := b - a;
    var t := d * u;
    FractionBounds(d, u, t);
    a + t
  }

  /** The fraction `t = x * u` of `x` lies between 0 and `x`. */
  lemma FractionBounds(x: real, u: real, t: real)
    requires 0.0 <= u < 1.0 && t == x * u
    ensures x >= 0.0 ==> 0.0 <= t <= x
    ensures x <= 0.0 ==> x <= t <= 0.0
  {
    assert x - t == x * (1.0 - u);
    if x >= 0.0 {
      ProductOfNonNegatives(x, u);
      ProductOfNonNegatives(x, 1.0 - u);
    } else {
      ProductOfNonNegatives(-x, u);
      ProductOfNonNegatives(-x, 1.0 - u);
    }
  }

  lemma ProductOfNonNegatives(x: real, y: real)
    requires x >= 0.0 && y >= 0.0
    ensures x * y >= 0.0
  {
  }

  /** Every value of `[a, b)` is the outcome of some draw. */
  lemma UniformCoversInterval(a: real, b: real, t: real)
    requires a < b && a <= t < b
    ensures var u := (t - a) / (b - a); 0.0 <= u < 1.0 && Uniform(a, b, u) == t
  {
    var d := b - a;
    var u := (t - a) / d;
    assert u * d == t - a;
    assert u >= 0.0;
    assert d / d == 1.0;
    assert (t - a) / d + (b - t) / d == ((t - a) + (b - t)) / d;
    assert 1.0 - u == (b - t) / d;
    assert (b - t) / d > 0.0;
  }

  datatype RunError =
    | ConfigMissing(keys: seq<string>) // EnvironmentError from load_config
    | RequestFailed(promptId: nat)     // requests error or raise_for_status on a reply
    | NegativeSleep                    // ValueError from time.sleep
    | ZeroDivision                     // ZeroDivisionError computing the throughput
    | EmptyMean                        // StatisticsError from statistics.mean([])

  /**
    `mock_llm_call(min_delay, max_delay)` for the draw `u`: the latency is the
    uniform sample; sleeping for it fails when it is negative.
   */
  function MockLlmCall(u: real, minDelay: real, maxDelay: real): (r: Result<real, RunError>)
    requires 0.0 <= u < 1.0
    ensures r.Success? <==> Uniform(minDelay, maxDelay, u) >= 0.0
    ensures r.Success? ==> r.value == Uniform(minDelay, maxDelay, u)
    ensures r.Failure? ==> r.error == NegativeSleep
    ensures 0.0 <= minDelay <= maxDelay ==> r.Success? && minDelay <= r.value <= maxDelay
  {
    var latency := Uniform(minDelay, maxDelay, u);
    if latency < 0.0 then Failure(NegativeSleep) else Success(latency)
  }

  /** With the default arguments the mock never fails and reports a value in [0.3, 1.2]. */
  lemma DefaultMockLatency(u: real)
    requires 0.0 <= u < 1.0
    ensures var r := MockLlmCall(u, DefaultMinDelay, DefaultMaxDelay);
      r.Success? && 0.3 <= r.value <= 1.2
  {
  }

  /** What the network does with one request: a reply after `elapsed` seconds, or a failure. */
  datatype Reply = Responded(elapsed: real) | Failed

  /** The outside world as one request sees it. */
  datatype Sample = Sample(draw: real, reply: Reply, timestamp: string)

  /**
    Draws of `random.random()` lie in `[0, 1)`; the clock is monotone, so a
    measured span is never negative.
   */
  predicate ValidSamples(samples: seq<Sample>) {
    forall i :: 0 <= i < |samples| ==>
      0.0 <= samples[i].draw < 1.0 && (samples[i].reply.Responded? ==> samples[i].reply.elapsed >= 0.0)
  }

  /** The latency request `s` reports in the given mode. */
  function ObservedLatency(s: Sample, mockMode: bool): real
    requires 0.0 <= s.draw < 1.0
    requires !mockMode ==> s.reply.Responded?
  {
    if mockMode then Uniform(DefaultMinDelay, DefaultMaxDelay, s.draw) else s.reply.elapsed
  }

  // ---------------------------------------------------------------------------
  // Records and summary
  // ---------------------------------------------------------------------------

  datatype Record = Record(
    runId: string,
    promptId: nat,
    prompt: string,
    latencySeconds: real,
    timestampUtc: string,
    mode: string)

  datatype Summary = Summary(
    runId: string,
    mode: string,
    totalRequests: nat,
    totalTimeSeconds: real,
    averageLatencySeconds: real,
    minLatencySeconds: real,
    maxLatencySeconds: real,
    throughputRps: real)

  function ModeName(mockMode: bool): string {
    if mockMode then "mock" else "real"
  }

  /**
    The summary dictionary of `run_tests`. Computing the throughput divides by
    `totalTime`, and `statistics.mean` refuses an empty list.
   */
  function Summarize(runId: string, mode: string, requestCount: nat, latencies: seq<real>, totalTime: real)
    : (r: Result<Summary, RunError>)
    ensures r.Success? <==> totalTime != 0.0 && latencies != []
    ensures totalTime == 0.0 ==> r == Failure(ZeroDivision)
    ensures totalTime != 0.0 && latencies == [] ==> r == Failure(EmptyMean)
    ensures r.Success? ==>
      && r.value.runId == runId && r.value.mode == mode && r.value.totalRequests == requestCount
      && r.value.totalTimeSeconds == RoundTo(totalTime, 3)
      && r.value.averageLatencySeconds == RoundTo(Mean(latencies), 4)
  {
    if totalTime == 0.0 then Failure(ZeroDivision)
    else if latencies == [] then Failure(EmptyMean)
    else
      var throughput := requestCount as real / totalTime;
      Success(Summary(
        runId, mode, requestCount,
        RoundTo(totalTime, 3),
        RoundTo(Mean(latencies), 4),
        RoundTo(Min(latencies), 4),
        RoundTo(Max(latencies), 4),
        RoundTo(throughput, 2)))
  }

  /** The reported minimum, mean and maximum are in order. */
  lemma SummaryOrdered(runId: string, mode: string, n: nat, latencies: seq<real>, totalTime: real)
    requires totalTime != 0.0 && latencies != []
    ensures var s := Summarize(runId, mode, n, latencies, totalTime).value;
      s.minLatencySeconds <= s.averageLatencySeconds <= s.maxLatencySeconds
  {
    MeanBetweenMinAndMax(latencies);
    RoundToMonotone(Min(latencies), Mean(latencies), 4);
    RoundToMonotone(Mean(latencies), Max(latencies), 4);
  }

  /**
    The reported minimum and maximum are the smallest and the largest of the
    rounded latencies, and each is one of them.
   */
  lemma SummaryExtrema(runId: string, mode: string, n: nat, latencies: seq<real>, totalTime: real)
    requires totalTime != 0.0 && latencies != []
    ensures var s := Summarize(runId, mode, n, latencies, totalTime).value;
      && (exists i :: 0 <= i < |latencies| && s.minLatencySeconds == RoundTo(latencies[i], 4))
      && (exists i :: 0 <= i < |latencies| && s.maxLatencySeconds == RoundTo(latencies[i], 4))
      && (forall i :: 0 <= i < |latencies| ==>
            s.minLatencySeconds <= RoundTo(latencies[i], 4) <= s.maxLatencySeconds)
  {
    var lo, hi := Min(latencies), Max(latencies);
    var i :| 0 <= i < |latencies| && latencies[i] == lo;
    var j :| 0 <= j < |latencies| && latencies[j] == hi;
    forall k | 0 <= k < |latencies|
      ensures RoundTo(lo, 4) <= RoundTo(latencies[k], 4) <= RoundTo(hi, 4)
    {
      RoundToMonotone(lo, latencies[k], 4);
      RoundToMonotone(latencies[k], hi, 4);
    }
  }

  /** Throughput is `n / totalTime` up to the rounding to two places. */
  lemma ThroughputAccuracy(runId: string, mode: string, n: nat, latencies: seq<real>, totalTime: real)
    requires totalTime != 0.0 && latencies != []
    ensures var s := Summarize(runId, mode, n, latencies, totalTime).value;
      -0.005 <= s.throughputRps - n as real / totalTime <= 0.005
  {
    RoundToError(n as real / totalTime, 2);
  }

  // ---------------------------------------------------------------------------
  // Output files (`write_csv`, `write_json`)
  // ---------------------------------------------------------------------------

  datatype Value = Str(s: string) | Int(n: int) | Num(x: real)

  /** The dictionary `run_tests` appends for one request, in insertion order. */
  function RecordItems(r: Record): seq<(string, Value)> {
    [ ("run_id", Str(r.runId)),
      ("prompt_id", Int(r.promptId)),
      ("prompt", Str(r.prompt)),
      ("latency_seconds", Num(r.latencySeconds)),
      ("timestamp_utc", Str(r.timestampUtc)),
      ("mode", Str(r.mode)) ]
  }

  /** The summary dictionary, in insertion order. */
  function SummaryItems(s: Summary): seq<(string, Value)> {
    [ ("run_id", Str(s.runId)),
      ("mode", Str(s.mode)),
      ("total_requests", Int(s.totalRequests)),
      ("total_time_seconds", Num(s.totalTimeSeconds)),
      ("average_latency_seconds", Num(s.averageLatencySeconds)),
      ("min_latency_seconds", Num(s.minLatencySeconds)),
      ("max_latency_seconds", Num(s.maxLatencySeconds)),
      ("throughput_rps", Num(s.throughputRps)) ]
  }

  function Keys(items: seq<(string, Value)>): (r: seq<string>)
    ensures |r| == |items|
    ensures forall i :: 0 <= i < |items| ==> r[i] == items[i].0
  {
    if items == [] then [] else [items[0].0] + Keys(items[1..])
  }

  /** `row.get(key, "")`, as `csv.DictWriter` looks up each field name. */
  function Lookup(items: seq<(string, Value)>, key: string): Value {
    if items == [] then Str("")
    else if items[0].0 == key then items[0].1
    else Lookup(items[1..], key)
  }

  /** `Lookup` finds the value of the first item with the key. */
  lemma {:induction false} LookupFindsFirst(items: seq<(string, Value)>, key: string, k: nat)
    requires k < |items| && items[k].0 == key
    requires forall j :: 0 <= j < k ==> items[j].0 != key
    ensures Lookup(items, key) == items[k].1
    decreases k
  {
    if k > 0 {
      LookupFindsFirst(items[1..], key, k - 1);
    }
  }

  datatype CsvFile = CsvFile(header: seq<string>, rows: seq<seq<Value>>)

  /**
    `write_csv(rows)`: the field names are the keys of the first row, and each
    row lists its values in that order; an empty list has no first row.
   */
  function WriteCsv(records: seq<Record>): Option<CsvFile> {
    if records == [] then None
    else
      var header := Keys(RecordItems(records[0]));
      Some(CsvFile(header, seq(|records|, i requires 0 <= i < |records| => CsvRow(header, records[i]))))
  }

  /** One CSV row: the record's value for each field name, in the header's order. */
  function CsvRow(header: seq<string>, r: Record): seq<Value> {
    seq(|header|, j requires 0 <= j < |header| => Lookup(RecordItems(r), header[j]))
  }

  /** Reads one CSV row back into a record, given the header `write_csv` wrote. */
  function ReadRow(header: seq<string>, row: seq<Value>): Option<Record> {
    if header == CsvHeader && |row| == 6
       && row[0].Str? && row[1].Int? && row[1].n >= 0 && row[2].Str? && row[3].Num? && row[4].Str? && row[5].Str?
    then Some(Record(row[0].s, row[1].n, row[2].s, row[3].x, row[4].s, row[5].s))
    else None
  }

  /** The field names of a record's dictionary, in insertion order. */
  const CsvHeader := ["run_id", "prompt_id", "prompt", "latency_seconds", "timestamp_utc", "mode"]

  lemma RecordKeys(r: Record)
    ensures Keys(RecordItems(r)) == CsvHeader
  {
  }

  /** Looking a column name up in a record's dictionary finds that field's value. */
  lemma LookupRecordItems(r: Record)
    ensures Lookup(RecordItems(r), "run_id") == Str(r.runId)
    ensures Lookup(RecordItems(r), "prompt_id") == Int(r.promptId)
    ensures Lookup(RecordItems(r), "prompt") == Str(r.prompt)
    ensures Lookup(RecordItems(r), "latency_seconds") == Num(r.latencySeconds)
    ensures Lookup(RecordItems(r), "timestamp_utc") == Str(r.timestampUtc)
    ensures Lookup(RecordItems(r), "mode") == Str(r.mode)
  {
    var items := RecordItems(r);
    LookupFindsFirst(items, "run_id", 0);
    LookupFindsFirst(items, "prompt_id", 1);
    LookupFindsFirst(items, "prompt", 2);
    LookupFindsFirst(items, "latency_seconds", 3);
    LookupFindsFirst(items, "timestamp_utc", 4);
    LookupFindsFirst(items, "mode", 5);
  }

  /**
    The CSV header is run_id, prompt_id, prompt, latency_seconds,
    timestamp_utc, mode; there is one row per record, and reading a row back
    gives its record.
   */
  lemma CsvRoundTrip(records: seq<Record>)
    requires records != []
    ensures WriteCsv(records).Some?
    ensures var f := WriteCsv(records).value;
      && f.header == CsvHeader
      && |f.rows| == |records|
      && forall i :: 0 <= i < |records| ==> ReadRow(f.header, f.rows[i]) == Some(records[i])
  {
    var f := WriteCsv(records).value;
    RecordKeys(records[0]);
    forall i | 0 <= i < |records|
      ensures ReadRow(f.header, f.rows[i]) == Some(records[i])
    {
      assert f.rows[i] == CsvRow(f.header, records[i]);
      CsvRowReadsBack(f.header, records[i]);
    }
  }

  /** Under the header `write_csv` writes, a record's row reads back as that record. */
  lemma CsvRowReadsBack(header: seq<string>, r: Record)
    requires header == CsvHeader
    ensures ReadRow(header, CsvRow(header, r)) == Some(r)
  {
    LookupRecordItems(r);
    var row := CsvRow(header, r);
    assert row == [Str(r.runId), Int(r.promptId), Str(r.prompt), Num(r.latencySeconds), Str(r.timestampUtc), Str(r.mode)];
  }

  /** The JSON object's keys, in the order `json.dump` writes them. */
  lemma SummaryKeyOrder(s: Summary)
    ensures Keys(SummaryItems(s)) == ["run_id", "mode", "total_requests", "total_time_seconds",
      "average_latency_seconds", "min_latency_seconds", "max_latency_seconds", "throughput_rps"]
  {
  }

  // ---------------------------------------------------------------------------
  // The run (`run_tests`)
  // ---------------------------------------------------------------------------

  /**
    What a run leaves behind: the records given to `write_csv` and the summary
    given to `write_json`, or the error that stopped it before either write,
    with the number of requests issued until then.
   */
  datatype RunOutcome =
    | Written(records: seq<Record>, summary: Summary)
    | Aborted(error: RunError, requestsIssued: nat)

  /**
    `run_tests(prompts, mock_mode)`. The i-th request observes `samples[i]` and
    the whole loop takes `totalTime` seconds. Returns the outcome and the
    `latencies` list.
   */
  method RunTests(
    prompts: seq<string>, mockMode: bool, env: map<string, string>,
    runId: string, samples: seq<Sample>, totalTime: real)
    returns (outcome: RunOutcome, latencies: seq<real>)
    requires |samples| == |prompts| && ValidSamples(samples)
    requires totalTime >= 0.0
    // real mode loads the configuration before any request; mock mode never does
    ensures !mockMode && LoadConfig(env).Failure? ==>
      outcome == Aborted(ConfigMissing(LoadConfig(env).error), 0)
    ensures mockMode ==> !(outcome.Aborted? && outcome.error.ConfigMissing?)
    ensures outcome.Aborted? && outcome.error.ConfigMissing? ==> !mockMode && LoadConfig(env).Failure?
    // in real mode with a valid configuration, a failed request always aborts the run
    ensures !mockMode && LoadConfig(env).Success? && (exists j :: 0 <= j < |prompts| && samples[j].reply.Failed?) ==>
      outcome.Aborted? && outcome.error.RequestFailed?
    // any other abort comes from the summary: a zero time span first, then an empty mean
    ensures outcome.Aborted? && !outcome.error.ConfigMissing? && !outcome.error.RequestFailed? ==>
      outcome.error == (if totalTime == 0.0 then ZeroDivision else EmptyMean)
    // the first failing request stops the run, and nothing is written
    ensures outcome.Aborted? && outcome.error.RequestFailed? ==>
      && !mockMode && LoadConfig(env).Success?
      && 1 <= outcome.error.promptId <= |prompts|
      && outcome.requestsIssued == outcome.error.promptId
      && samples[outcome.error.promptId - 1].reply.Failed?
      && forall j :: 0 <= j < outcome.error.promptId - 1 ==> samples[j].reply.Responded?
    ensures outcome.Aborted? && (outcome.error.ZeroDivision? || outcome.error.EmptyMean?) ==>
      outcome.requestsIssued == |prompts| && |latencies| == |prompts|
    // when the run completes
    ensures && (mockMode || (LoadConfig(env).Success? && forall i :: 0 <= i < |prompts| ==> samples[i].reply.Responded?))
            && |prompts| > 0 && totalTime > 0.0
            ==> outcome.Written?
    ensures outcome.Written? ==> |prompts| > 0 && totalTime > 0.0 && (mockMode || LoadConfig(env).Success?)
    ensures outcome.Written? ==> |outcome.records| == |latencies| == outcome.summary.totalRequests == |prompts|
    ensures outcome.Written? ==> forall i :: 0 <= i < |prompts| ==>
      && (mockMode || samples[i].reply.Responded?)
      && latencies[i] == ObservedLatency(samples[i], mockMode)
      && outcome.records[i] == Record(runId, i + 1, prompts[i], RoundTo(latencies[i], 4), samples[i].timestamp, ModeName(mockMode))
    ensures outcome.Written? ==> forall i :: 0 <= i < |prompts| ==>
      outcome.records[i].runId == outcome.summary.runId && outcome.records[i].mode == outcome.summary.mode
    ensures outcome.Written? ==>
      Summarize(runId, ModeName(mockMode), |prompts|, latencies, totalTime) == Success(outcome.summary)
    ensures outcome.Written? ==>
      && (exists i :: 0 <= i < |prompts| && outcome.records[i].latencySeconds == outcome.summary.minLatencySeconds)
      && (exists i :: 0 <= i < |prompts| && outcome.records[i].latencySeconds == outcome.summary.maxLatencySeconds)
      && forall i :: 0 <= i < |prompts| ==>
           outcome.summary.minLatencySeconds <= outcome.records[i].latencySeconds <= outcome.summary.maxLatencySeconds
    // every mock latency lies in the default interval
    ensures mockMode ==> forall i :: 0 <= i < |latencies| ==> DefaultMinDelay <= latencies[i] <= DefaultMaxDelay
  {
    latencies := [];
    if !mockMode {
      var loaded := LoadConfig(env);
      if loaded.Failure? {
        outcome := Aborted(ConfigMissing(loaded.error), 0);
        return;
      }
    }
    var failedAt, requestLogs;
    failedAt, latencies, requestLogs := SendRequests(prompts, mockMode, runId, samples);
    if failedAt.Some? {
      outcome := Aborted(RequestFailed(failedAt.value), failedAt.value);
      return;
    }
    var summary := Summarize(runId, ModeName(mockMode), |prompts|, latencies, totalTime);
    if summary.Failure? {
      outcome := Aborted(summary.error, |prompts|);
      return;
    }
    SummaryExtrema(runId, ModeName(mockMode), |prompts|, latencies, totalTime);
    outcome := Written(requestLogs, summary.value);
  }

  /**
    The request loop of `run_tests`: one latency and one record per prompt, in
    order, numbered from 1; in real mode the first failed request stops the
    loop, and `failedAt` is its number.
   */
  method SendRequests(prompts: seq<string>, mockMode: bool, runId: string, samples: seq<Sample>)
    returns (failedAt: Option<nat>, latencies: seq<real>, records: seq<Record>)
    requires |samples| == |prompts| && ValidSamples(samples)
    ensures failedAt.Some? ==>
      && !mockMode
      && 1 <= failedAt.value <= |prompts|
      && samples[failedAt.value - 1].reply.Failed?
      && forall j :: 0 <= j < failedAt.value - 1 ==> samples[j].reply.Responded?
    ensures failedAt.None? ==> |latencies| == |records| == |prompts|
    ensures failedAt.None? ==> forall i :: 0 <= i < |prompts| ==>
      && (mockMode || samples[i].reply.Responded?)
      && latencies[i] == ObservedLatency(samples[i], mockMode)
      && records[i] == Record(runId, i + 1, prompts[i], RoundTo(latencies[i], 4), samples[i].timestamp, ModeName(mockMode))
    ensures mockMode ==> forall i :: 0 <= i < |latencies| ==> DefaultMinDelay <= latencies[i] <= DefaultMaxDelay
  {
    latencies := [];
    records := [];
    var mode := ModeName(mockMode);
    var idx := 0;
    while idx < |prompts|
      invariant 0 <= idx <= |prompts|
      invariant |latencies| == idx && |records| == idx
      invariant forall i :: 0 <= i < idx ==>
        && (mockMode || samples[i].reply.Responded?)
        && latencies[i] == ObservedLatency(samples[i], mockMode)
      invariant forall i :: 0 <= i < idx ==>
        records[i] == Record(runId, i + 1, prompts[i], RoundTo(latencies[i], 4), samples[i].timestamp, mode)
      invariant mockMode ==> forall i :: 0 <= i < idx ==> DefaultMinDelay <= latencies[i] <= DefaultMaxDelay
    {
      var latency: real;
      if mockMode {
        var call := MockLlmCall(samples[idx].draw, DefaultMinDelay, DefaultMaxDelay);
        latency := call.value;
      } else {
        match samples[idx].reply
        case Failed =>
          failedAt := Some(idx + 1);
          return;
        case Responded(elapsed) =>
          latency := elapsed;
      }
      latencies := latencies + [latency];
      records := records + [Record(runId, idx + 1, prompts[idx], RoundTo(latency, 4), samples[idx].timestamp, mode)];
      idx := idx + 1;
    }
    failedAt := None;
  }
}
