/**
  The data-path logic of handlers.go: what a POST to the ingest endpoint does
  to the in-memory store, how the dashboard summarises the store, and how the
  database endpoint reads its `limit` parameter. HTTP plumbing, templates,
  logging, MongoDB and the raw-body file are not modelled.
 */
module Handlers {
  import opened Results
  import opened SensorTypes
  import opened GoStrings
  import opened GoSort
  import opened Store
  import opened Parser

  // ---------------------------------------------------------------------
  // Ingest.
  // ---------------------------------------------------------------------

  const StatusOK: int := 200
  const StatusBadRequest: int := 400
  const StatusMethodNotAllowed: int := 405

  /**
    The parts of an ingest request the handler looks at: the HTTP method and
    the body, already through `json.Unmarshal`; `None` is a body that could
    not be read.
   */
  datatype Request = Request(httpMethod: string, body: Option<Decoding>)

  /** A request the handler accepts: a POST whose body was read and decodes. */
  predicate Acceptable(req: Request) {
    req.httpMethod == "POST" && req.body.Some? && req.body.value.Decoded?
  }

  /**
    `handleSensorData` acting on the store's contents `data` with the
    configured `maxSize`: anything but POST is 405, an unreadable or
    undecodable body is 400, and neither touches the store. Otherwise the
    parsed message is added and the store trimmed back to `maxSize`, so it
    holds the newest `maxSize` messages with the new one last.
   */
  method HandleSensorData(data: seq<ParsedSensorData>, req: Request, now: Instant, maxSize: nat)
    returns (status: int, data': seq<ParsedSensorData>)
    ensures req.httpMethod != "POST" ==> status == StatusMethodNotAllowed
    ensures req.httpMethod == "POST" && !Acceptable(req) ==> status == StatusBadRequest
    ensures status == StatusOK <==> Acceptable(req)
    ensures status != StatusOK ==> data' == data
    ensures status == StatusOK ==> |data'| == (if |data| + 1 < maxSize then |data| + 1 else maxSize)
    ensures status == StatusOK && maxSize > 0 ==>
      && WellParsed(ToMessage(req.body.value.msg), now, data'[|data'| - 1])
      && data'[..|data'| - 1] == data[|data| - (|data'| - 1)..]
  {
    if req.httpMethod != "POST" {
      return StatusMethodNotAllowed, data;
    }
    if req.body.None? {
      return StatusBadRequest, data;
    }
    var parsed := ParseSensorMessage(req.body.value, now);
    if parsed.Failure? {
      return StatusBadRequest, data;
    }
    var added := data + [parsed.value];
    data' := Trimmed(added, maxSize);
    status := StatusOK;
    AppendThenTrim(data, parsed.value, maxSize);
  }

  // ---------------------------------------------------------------------
  // Dashboard.
  // ---------------------------------------------------------------------

  /** The sum of `TotalReadings` over the stored messages. */
  function SumReadings(all: seq<ParsedSensorData>): int {
    if |all| == 0 then 0 else SumReadings(all[..|all| - 1]) + all[|all| - 1].totalReadings
  }

  /** The distinct sensor names listed by any stored message. */
  function TypesOf(all: seq<ParsedSensorData>): set<string> {
    if |all| == 0 then {} else TypesOf(all[..|all| - 1]) + Elems(all[|all| - 1].sensorTypes)
  }

  /** The distinct device ids of the stored messages. */
  function DevicesOf(all: seq<ParsedSensorData>): set<string> {
    set i | 0 <= i < |all| :: all[i].deviceId
  }

  /** The dashboard's reading list: the first 20 readings of a message, or all if fewer. */
  predicate ShowsFirstReadings(readings: seq<HumanReadable>, shown: seq<HumanReadable>) {
    && |shown| == (if |readings| < 20 then |readings| else 20)
    && shown == readings[..|shown|]
  }

  /** The dashboard figures of a store with contents `all`. */
  predicate DashboardOf(all: seq<ParsedSensorData>, d: DashboardData) {
    && d.totalMessages == |all|
    && (d.hasData <==> |all| > 0)
    && (|all| == 0 ==> d == DashboardData(false, 0, 0, 0, 0, []))
    && (|all| > 0 ==>
          && d.totalReadings == SumReadings(all)
          && d.sensorTypeCount == |TypesOf(all)|
          && d.deviceCount == |DevicesOf(all)|
          && ShowsFirstReadings(all[|all| - 1].parsedReadings, d.latestData))
  }

  /**
    `prepareDashboardData` over the store's contents: message count, the
    summed reading count, the number of distinct sensor names and devices,
    and the first readings of the newest message.
   */
  method PrepareDashboardData(all: seq<ParsedSensorData>) returns (d: DashboardData)
    ensures DashboardOf(all, d)
  {
    d := DashboardData(|all| > 0, |all|, 0, 0, 0, []);
    if |all| == 0 {
      return;
    }
    var total := 0;
    var sensorTypes: set<string> := {};
    var devices: set<string> := {};
    for i := 0 to |all|
      invariant total == SumReadings(all[..i])
      invariant sensorTypes == TypesOf(all[..i])
      invariant devices == DevicesOf(all[..i])
    {
      var m := all[i];
      assert all[..i + 1][..i] == all[..i] && all[..i + 1][i] == m;
      total := total + m.totalReadings;
      devices := devices + {m.deviceId};
      assert DevicesOf(all[..i + 1]) == DevicesOf(all[..i]) + {m.deviceId} by {
        assert forall k :: 0 <= k < i ==> all[..i + 1][k] == all[..i][k];
      }
      var before := sensorTypes;
      for j := 0 to |m.sensorTypes|
        invariant sensorTypes == before + Elems(m.sensorTypes[..j])
      {
        assert m.sensorTypes[..j + 1] == m.sensorTypes[..j] + [m.sensorTypes[j]];
        sensorTypes := sensorTypes + {m.sensorTypes[j]};
      }
      assert m.sensorTypes[..|m.sensorTypes|] == m.sensorTypes;
    }
    assert all[..|all|] == all;
    d := d.(totalReadings := total, sensorTypeCount := |sensorTypes|, deviceCount := |devices|);
    var (latest, found) := LatestOne(all);
    if found {
      var maxReadings := 20;
      if |latest.parsedReadings| < maxReadings {
        maxReadings := |latest.parsedReadings|;
      }
      d := d.(latestData := latest.parsedReadings[..maxReadings]);
    }
  }

  lemma {:induction false} DevicesAtMostMessages(all: seq<ParsedSensorData>)
    ensures |DevicesOf(all)| <= |all|
  {
    if |all| > 0 {
      var init := all[..|all| - 1];
      DevicesAtMostMessages(init);
      assert DevicesOf(all) == DevicesOf(init) + {all[|all| - 1].deviceId} by {
        assert forall k :: 0 <= k < |init| ==> all[k] == init[k];
      }
    }
  }

  /** Every message's own sensor names are among the dashboard's. */
  lemma {:induction false} TypesOfContains(all: seq<ParsedSensorData>, i: nat)
    requires i < |all|
    ensures Elems(all[i].sensorTypes) <= TypesOf(all)
  {
    if i < |all| - 1 {
      assert all[..|all| - 1][i] == all[i];
      TypesOfContains(all[..|all| - 1], i);
    }
  }

  /**
    On a non-empty store there are between one device and one per message,
    at least as many sensor types as any stored message lists, and at most 20
    readings shown.
   */
  lemma DashboardBounds(all: seq<ParsedSensorData>, d: DashboardData, i: nat)
    requires DashboardOf(all, d) && i < |all|
    ensures 1 <= d.deviceCount <= d.totalMessages
    ensures StrictlySorted(all[i].sensorTypes) ==> |all[i].sensorTypes| <= d.sensorTypeCount
    ensures |d.latestData| <= 20
  {
    DevicesAtMostMessages(all);
    assert all[0].deviceId in DevicesOf(all);
    TypesOfContains(all, i);
    if StrictlySorted(all[i].sensorTypes) {
      SortedLength(all[i].sensorTypes);
      var mine, every := Elems(all[i].sensorTypes), TypesOf(all);
      assert every == mine + (every - mine) && mine * (every - mine) == {};
      assert |every| == |mine| + |every - mine|;
    }
  }

  /**
    After a message is ingested, the dashboard shows data, and its reading
    list is the start of that message's readings.
   */
  lemma DashboardAfterIngest(data: seq<ParsedSensorData>, x: ParsedSensorData, maxSize: nat, d: DashboardData)
    requires maxSize > 0
    requires DashboardOf(Trimmed(data + [x], maxSize), d)
    ensures d.hasData
    ensures ShowsFirstReadings(x.parsedReadings, d.latestData)
  {
    var s := Trimmed(data + [x], maxSize);
    assert s[|s| - 1] == (data + [x])[|data + [x]| - 1] == x;
  }

  // ---------------------------------------------------------------------
  // Database endpoint: the `limit` query parameter.
  // ---------------------------------------------------------------------

  const DefaultDbLimit: int := 50

  /**
    `handleDBData`'s limit: 50 unless the parameter (`""` when absent) parses
    with `strconv.Atoi` to a positive number, which then replaces it.
   */
  function DbLimit(l: string): (limit: int)
    ensures limit >= 1
    ensures l == "" ==> limit == DefaultDbLimit
    ensures Atoi(l).Success? && Atoi(l).value > 0 ==> limit == Atoi(l).value
    ensures limit != DefaultDbLimit ==> Atoi(l) == Success(limit)
  {
    if l != "" then
      match Atoi(l)
      case Success(n) => if n > 0 then n else DefaultDbLimit
      case Failure(_) => DefaultDbLimit
    else DefaultDbLimit
  }

  /** Any positive 64-bit limit written in decimal is taken as given. */
  lemma DbLimitOfDecimal(n: int)
    requires 0 < n <= MaxInt64
    ensures DbLimit(Itoa(n)) == n
  {
    AtoiOfItoa(n);
  }

  /** A zero or negative limit falls back to the default. */
  lemma DbLimitNonPositive(n: int)
    requires MinInt64 <= n <= 0
    ensures DbLimit(Itoa(n)) == DefaultDbLimit
  {
    AtoiOfItoa(n);
  }
}
