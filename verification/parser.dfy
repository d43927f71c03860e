/**
  `parseSensorMessage`: turns a decoded envelope into a `ParsedSensorData`
  with the reading count, the sorted set of sensor names, per-name counts, the
  time span of the readings and one human-readable reading per payload entry.
 */
module Parser {
  import opened Results
  import opened SensorTypes
  import opened GoSort
  import opened Decoders

  /** The sensor names occurring in a payload. */
  function TypeSet(p: seq<SensorReading>): set<string> {
    set i | 0 <= i < |p| :: p[i].name
  }

  /** How many payload entries carry the name `t` (names are case-sensitive). */
  function Count(p: seq<SensorReading>, t: string): nat {
    if |p| == 0 then 0
    else Count(p[..|p| - 1], t) + (if p[|p| - 1].name == t then 1 else 0)
  }

  /** The smallest `time` of a non-empty payload. */
  function MinTime(p: seq<SensorReading>): Int64
    requires |p| > 0
  {
    if |p| == 1 then p[0].time
    else
      var m := MinTime(p[..|p| - 1]);
      if p[|p| - 1].time < m then p[|p| - 1].time else m
  }

  /** The largest `time` of a non-empty payload. */
  function MaxTime(p: seq<SensorReading>): Int64
    requires |p| > 0
  {
    if |p| == 1 then p[0].time
    else
      var m := MaxTime(p[..|p| - 1]);
      if p[|p| - 1].time > m then p[|p| - 1].time else m
  }

  /** MinTime and MaxTime are the least and greatest times, and both occur in the payload. */
  lemma {:induction false} TimeBounds(p: seq<SensorReading>)
    requires |p| > 0
    ensures forall i :: 0 <= i < |p| ==> MinTime(p) <= p[i].time <= MaxTime(p)
    ensures exists i :: 0 <= i < |p| && p[i].time == MinTime(p)
    ensures exists j :: 0 <= j < |p| && p[j].time == MaxTime(p)
  {
    if |p| > 1 {
      var q := p[..|p| - 1];
      TimeBounds(q);
      var i :| 0 <= i < |q| && q[i].time == MinTime(q);
      var j :| 0 <= j < |q| && q[j].time == MaxTime(q);
      assert p[i] == q[i] && p[j] == q[j];
      assert forall k :: 0 <= k < |q| ==> p[k] == q[k];
    }
  }

  /** The failure `parseSensorMessage` reports: the JSON decoding error. */
  datatype ParseError = DecodeError(reason: string)

  /** What appending the payload entry at `i` does to the running name set, counts and time span. */
  lemma StepFacts(p: seq<SensorReading>, i: nat)
    requires i < |p|
    ensures TypeSet(p[..i + 1]) == TypeSet(p[..i]) + {p[i].name}
    ensures forall t :: Count(p[..i + 1], t) == Count(p[..i], t) + (if p[i].name == t then 1 else 0)
    ensures i == 0 ==> MinTime(p[..i + 1]) == p[i].time == MaxTime(p[..i + 1])
    ensures i > 0 ==> MinTime(p[..i + 1]) == (if p[i].time < MinTime(p[..i]) then p[i].time else MinTime(p[..i]))
    ensures i > 0 ==> MaxTime(p[..i + 1]) == (if p[i].time > MaxTime(p[..i]) then p[i].time else MaxTime(p[..i]))
  {
    var q := p[..i + 1];
    assert q[..i] == p[..i] && q[i] == p[i];
    assert forall k :: 0 <= k < i ==> q[k] == p[..i][k];
  }

  lemma ReadingsSnoc(p: seq<SensorReading>, i: nat, hs: seq<HumanReadable>, h: HumanReadable)
    requires i < |p| && |hs| == i
    requires forall j :: 0 <= j < i ==> Decodes(p[j], hs[j])
    requires Decodes(p[i], h)
    ensures forall j :: 0 <= j < i + 1 ==> Decodes(p[j], (hs + [h])[j])
  {
    forall j | 0 <= j < i + 1 ensures Decodes(p[j], (hs + [h])[j]) {
      if j < i {
        assert (hs + [h])[j] == hs[j];
      }
    }
  }

  /** The running summary of the payload prefix `p[..i]` that the loop keeps. */
  predicate Summarises(p: seq<SensorReading>, i: nat, typeSet: set<string>, counts: map<string, int>, minTime: Int64, maxTime: Int64)
    requires i <= |p|
  {
    && typeSet == TypeSet(p[..i]) == counts.Keys
    && (forall t :: t in counts ==> counts[t] == Count(p[..i], t))
    && (i > 0 ==> minTime == MinTime(p[..i]) && maxTime == MaxTime(p[..i]))
    && (i == 0 ==> minTime == 0 && maxTime == 0)
  }

  /**
    One iteration's bookkeeping: record the name, bump its count, and widen
    the time span (the first reading sets both ends).
   */
  method Absorb(p: seq<SensorReading>, i: nat, typeSet: set<string>, counts: map<string, int>, minTime: Int64, maxTime: Int64)
    returns (typeSet': set<string>, counts': map<string, int>, minTime': Int64, maxTime': Int64)
    requires i < |p|
    requires Summarises(p, i, typeSet, counts, minTime, maxTime)
    ensures Summarises(p, i + 1, typeSet', counts', minTime', maxTime')
  {
    var reading := p[i];
    StepFacts(p, i);
    if reading.name !in counts {
      CountAbsent(p[..i], reading.name);
    }
    typeSet' := typeSet + {reading.name};
    counts' := counts[reading.name := (if reading.name in counts then counts[reading.name] else 0) + 1];
    minTime', maxTime' := minTime, maxTime;
    if i == 0 {
      minTime' := reading.time;
      maxTime' := reading.time;
    } else {
      if reading.time < minTime {
        minTime' := reading.time;
      }
      if reading.time > maxTime {
        maxTime' := reading.time;
      }
    }
  }

  /**
    The loop of `parseSensorMessage`: one pass over the payload collecting the
    name set, the per-name counts, the first reading's time widened to the
    least and greatest time, and one human-readable reading per entry.
   */
  method Summarise(p: seq<SensorReading>)
    returns (typeSet: set<string>, counts: map<string, int>, minTime: Int64, maxTime: Int64, readings: seq<HumanReadable>)
    ensures typeSet == TypeSet(p) == counts.Keys
    ensures forall t :: t in counts ==> counts[t] == Count(p, t)
    ensures |p| > 0 ==> minTime == MinTime(p) && maxTime == MaxTime(p)
    ensures |p| == 0 ==> minTime == 0 && maxTime == 0
    ensures |readings| == |p|
    ensures forall j :: 0 <= j < |p| ==> Decodes(p[j], readings[j])
  {
    counts := map[];
    typeSet := {};
    minTime, maxTime := 0, 0;
    readings := [];
    ScannedStart(p);
    for i := 0 to |p|
      invariant Scanned(p, i, typeSet, counts, minTime, maxTime, readings)
    {
      typeSet, counts, minTime, maxTime, readings := ScanEntry(p, i, typeSet, counts, minTime, maxTime, readings);
    }
    ScannedWhole(p, typeSet, counts, minTime, maxTime, readings);
  }

  /** The loop's state after `i` entries: the bookkeeping and one decoded reading per entry. */
  predicate Scanned(p: seq<SensorReading>, i: nat, typeSet: set<string>, counts: map<string, int>, minTime: Int64, maxTime: Int64, readings: seq<HumanReadable>)
  {
    && i <= |p|
    && Summarises(p, i, typeSet, counts, minTime, maxTime)
    && |readings| == i
    && forall j :: 0 <= j < i ==> Decodes(p[j], readings[j])
  }

  /** Before the loop nothing has been seen. */
  lemma ScannedStart(p: seq<SensorReading>)
    ensures Scanned(p, 0, {}, map[], 0, 0, [])
  {
    assert p[..0] == [];
  }

  /** One iteration of the loop. */
  method ScanEntry(p: seq<SensorReading>, i: nat, typeSet: set<string>, counts: map<string, int>, minTime: Int64, maxTime: Int64, readings: seq<HumanReadable>)
    returns (typeSet': set<string>, counts': map<string, int>, minTime': Int64, maxTime': Int64, readings': seq<HumanReadable>)
    requires i < |p| && Scanned(p, i, typeSet, counts, minTime, maxTime, readings)
    ensures Scanned(p, i + 1, typeSet', counts', minTime', maxTime', readings')
  {
    typeSet', counts', minTime', maxTime' := Absorb(p, i, typeSet, counts, minTime, maxTime);
    readings' := Translate(p, i, readings);
  }

  /** A state that covers the whole payload describes the payload itself. */
  lemma ScannedWhole(p: seq<SensorReading>, typeSet: set<string>, counts: map<string, int>, minTime: Int64, maxTime: Int64, readings: seq<HumanReadable>)
    requires Scanned(p, |p|, typeSet, counts, minTime, maxTime, readings)
    ensures typeSet == TypeSet(p) == counts.Keys
    ensures forall t :: t in counts ==> counts[t] == Count(p, t)
    ensures |p| > 0 ==> minTime == MinTime(p) && maxTime == MaxTime(p)
    ensures |p| == 0 ==> minTime == 0 && maxTime == 0
    ensures |readings| == |p|
    ensures forall j :: 0 <= j < |p| ==> Decodes(p[j], readings[j])
  {
    assert p[..|p|] == p;
  }

  /** The loop's other half: the entry at `i` decoded and appended to the readings so far. */
  method Translate(p: seq<SensorReading>, i: nat, readings: seq<HumanReadable>) returns (readings': seq<HumanReadable>)
    requires i < |p| && |readings| == i
    requires forall j :: 0 <= j < i ==> Decodes(p[j], readings[j])
    ensures |readings'| == i + 1
    ensures forall j :: 0 <= j < i + 1 ==> Decodes(p[j], readings'[j])
  {
    var human := ParseToHumanReadable(p[i]);
    ReadingsSnoc(p, i, readings, human);
    readings' := readings + [human];
  }

  /**
    `parseSensorMessage`. Input that does not decode is an error with no
    result; anything that decodes, including an absent or null payload,
    succeeds. `now` is the clock reading stamped as `ReceivedAt`.
   */
  method ParseSensorMessage(input: Decoding, now: Instant) returns (r: Result<ParsedSensorData, ParseError>)
    ensures input.Malformed? <==> r.Failure?
    ensures input.Malformed? ==> r.error == DecodeError(input.reason)
    ensures input.Decoded? ==> r.Success? && WellParsed(ToMessage(input.msg), now, r.value)
  {
    if input.Malformed? {
      return Failure(DecodeError(input.reason));
    }
    var message := ToMessage(input.msg);
    var p := message.payload;
    var typeSet, counts, minTime, maxTime, readings := Summarise(p);
    var sensorTypes := SortSet(typeSet);
    r := Success(ParsedSensorData(
      message.messageId, message.sessionId, message.deviceId, |p|,
      sensorTypes, counts, TimeRange(Instant(minTime), Instant(maxTime)), readings, now));
  }

  /**
    The relation between a decoded message and its parsed form: identity
    fields copied, one reading per payload entry in arrival order, the sorted
    distinct names, the per-name counts, and the time span (the zero instant
    for both ends when the payload is empty).
   */
  predicate WellParsed(m: SensorMessage, now: Instant, d: ParsedSensorData) {
    && d.messageId == m.messageId && d.sessionId == m.sessionId && d.deviceId == m.deviceId
    && d.receivedAt == now
    && d.totalReadings == |m.payload| == |d.parsedReadings|
    && (forall i :: 0 <= i < |m.payload| ==> Decodes(m.payload[i], d.parsedReadings[i]))
    && StrictlySorted(d.sensorTypes) && Elems(d.sensorTypes) == TypeSet(m.payload)
    && d.sensorCounts.Keys == TypeSet(m.payload)
    && (forall t :: t in d.sensorCounts ==> d.sensorCounts[t] == Count(m.payload, t))
    && (|m.payload| == 0 ==> d.timeRange == TimeRange(Epoch, Epoch))
    && (|m.payload| > 0 ==>
          d.timeRange == TimeRange(Instant(MinTime(m.payload)), Instant(MaxTime(m.payload))))
  }

  /** For a non-empty payload the time range is ordered and spans every reading's time. */
  lemma TimeRangeOrdered(m: SensorMessage, now: Instant, d: ParsedSensorData)
    requires WellParsed(m, now, d)
    ensures d.timeRange.start.unixNanos <= d.timeRange.end.unixNanos
    ensures forall i :: 0 <= i < |m.payload| ==>
      d.timeRange.start.unixNanos <= m.payload[i].time <= d.timeRange.end.unixNanos
  {
    if |m.payload| > 0 {
      TimeBounds(m.payload);
    }
  }

  /** The list of sensor types is exactly as long as the number of distinct names. */
  lemma SensorTypeCount(m: SensorMessage, now: Instant, d: ParsedSensorData)
    requires WellParsed(m, now, d)
    ensures |d.sensorTypes| == |TypeSet(m.payload)| <= d.totalReadings
  {
    SortedLength(d.sensorTypes);
    TypeSetSize(m.payload);
  }

  lemma {:induction false} TypeSetSize(p: seq<SensorReading>)
    ensures |TypeSet(p)| <= |p|
  {
    if |p| > 0 {
      var q := p[..|p| - 1];
      TypeSetSize(q);
      assert TypeSet(p) == TypeSet(q) + {p[|p| - 1].name} by {
        assert forall i :: 0 <= i < |q| ==> p[i] == q[i];
      }
    }
  }

  /**
    Parsing the same input twice gives the same sensor types, counts, time
    range and reading count, whatever order the Go set was iterated in.
   */
  lemma ParseDeterministic(m: SensorMessage, now: Instant, d1: ParsedSensorData, d2: ParsedSensorData)
    requires WellParsed(m, now, d1) && WellParsed(m, now, d2)
    ensures d1.sensorTypes == d2.sensorTypes
    ensures d1.sensorCounts == d2.sensorCounts
    ensures d1.timeRange == d2.timeRange
    ensures d1.totalReadings == d2.totalReadings
  {
    SortedUnique(d1.sensorTypes, d2.sensorTypes);
  }

  // ---------------------------------------------------------------------
  // The counts add up to the number of readings.
  // ---------------------------------------------------------------------

  /** The sum of `counts[t]` over the listed names. */
  function SumCounts(counts: map<string, int>, ts: seq<string>): int
    requires forall i :: 0 <= i < |ts| ==> ts[i] in counts
  {
    if |ts| == 0 then 0 else counts[ts[0]] + SumCounts(counts, ts[1..])
  }

  function SumOfCounts(p: seq<SensorReading>, ts: seq<string>): nat {
    if |ts| == 0 then 0 else Count(p, ts[0]) + SumOfCounts(p, ts[1..])
  }

  lemma {:induction false} CountAbsent(p: seq<SensorReading>, t: string)
    requires t !in TypeSet(p)
    ensures Count(p, t) == 0
  {
    if |p| > 0 {
      var q := p[..|p| - 1];
      assert TypeSet(q) <= TypeSet(p) by {
        assert forall i :: 0 <= i < |q| ==> p[i] == q[i];
      }
      assert p[|p| - 1].name in TypeSet(p);
      CountAbsent(q, t);
    }
  }

  /** Adding one reading to the payload adds one to the sum over a list containing its name once. */
  lemma {:induction false} SumOfCountsSnoc(q: seq<SensorReading>, x: SensorReading, ts: seq<string>)
    requires forall i, j :: 0 <= i < j < |ts| ==> ts[i] != ts[j]
    ensures SumOfCounts(q + [x], ts) == SumOfCounts(q, ts) + (if x.name in ts then 1 else 0)
  {
    if |ts| > 0 {
      var p := q + [x];
      assert p[..|p| - 1] == q;
      SumOfCountsSnoc(q, x, ts[1..]);
      assert x.name in ts <==> x.name == ts[0] || x.name in ts[1..];
      assert ts[0] !in ts[1..];
    }
  }

  lemma {:induction false} SumOfCountsTotal(p: seq<SensorReading>, ts: seq<string>)
    requires forall i, j :: 0 <= i < j < |ts| ==> ts[i] != ts[j]
    requires TypeSet(p) <= Elems(ts)
    ensures SumOfCounts(p, ts) == |p|
  {
    if |p| == 0 {
      SumOfCountsZero(p, ts);
    } else {
      var q := p[..|p| - 1];
      assert p == q + [p[|p| - 1]];
      assert TypeSet(q) <= TypeSet(p) by {
        assert forall i :: 0 <= i < |q| ==> p[i] == q[i];
      }
      SumOfCountsTotal(q, ts);
      SumOfCountsSnoc(q, p[|p| - 1], ts);
      assert p[|p| - 1].name in TypeSet(p);
    }
  }

  lemma {:induction false} SumOfCountsZero(p: seq<SensorReading>, ts: seq<string>)
    requires |p| == 0
    ensures SumOfCounts(p, ts) == 0
  {
    if |ts| > 0 {
      SumOfCountsZero(p, ts[1..]);
    }
  }

  lemma {:induction false} SumCountsAgree(m: SensorMessage, counts: map<string, int>, ts: seq<string>)
    requires forall i :: 0 <= i < |ts| ==> ts[i] in counts
    requires forall t :: t in counts ==> counts[t] == Count(m.payload, t)
    ensures SumCounts(counts, ts) == SumOfCounts(m.payload, ts)
  {
    if |ts| > 0 {
      SumCountsAgree(m, counts, ts[1..]);
    }
  }

  /** Summing `SensorCounts` over `SensorTypes` gives `TotalReadings`. */
  lemma CountsSumToTotal(m: SensorMessage, now: Instant, d: ParsedSensorData)
    requires WellParsed(m, now, d)
    ensures forall i :: 0 <= i < |d.sensorTypes| ==> d.sensorTypes[i] in d.sensorCounts
    ensures SumCounts(d.sensorCounts, d.sensorTypes) == d.totalReadings
  {
    var ts := d.sensorTypes;
    assert forall i :: 0 <= i < |ts| ==> ts[i] in Elems(ts);
    forall i, j | 0 <= i < j < |ts| ensures ts[i] != ts[j] {
      LessIrreflexive(ts[i]);
    }
    SumCountsAgree(m, d.sensorCounts, ts);
    SumOfCountsTotal(m.payload, ts);
  }

  /** Every count in the map is positive: only names that occur are keys. */
  lemma CountsPositive(m: SensorMessage, now: Instant, d: ParsedSensorData)
    requires WellParsed(m, now, d)
    ensures forall t :: t in d.sensorCounts ==> d.sensorCounts[t] >= 1
  {
    forall t | t in d.sensorCounts ensures d.sensorCounts[t] >= 1 {
      CountPresent(m.payload, t);
    }
  }

  lemma {:induction false} CountPresent(p: seq<SensorReading>, t: string)
    requires t in TypeSet(p)
    ensures Count(p, t) >= 1
  {
    var q := p[..|p| - 1];
    if p[|p| - 1].name != t {
      var i :| 0 <= i < |p| && p[i].name == t;
      assert q[i] == p[i];
      CountPresent(q, t);
    }
  }
}
