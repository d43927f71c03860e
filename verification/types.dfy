/**
  The records the sensor server passes between its parts: the decoded wire
  envelope, the raw reading, the human-readable reading and value, the parsed
  message kept in memory, and the dashboard summary.
 */
module SensorTypes {
  import opened Results

  /** Go's `int` and `int64` on a 64-bit platform. */
  type Int64 = i: int | -0x8000_0000_0000_0000 <= i < 0x8000_0000_0000_0000

  /**
    A value of Go type `interface{}` as found in a reading's value bag. JSON
    decoding only ever produces `Float64`, `Str`, `Bool`, `Null` (JSON null)
    and `Other` (an object or array); the integer and float32 cases arise when
    Go code builds a bag directly. Floats are represented by their real value.
   */
  datatype Scalar =
    | Float64(f: real)
    | Float32(f: real)
    | GoInt(i: Int64)
    | GoInt64(i: Int64)
    | Str(s: string)
    | Bool(b: bool)
    | Null
    | Other

  /** Go's `map[string]interface{}`. */
  type Bag = map<string, Scalar>

  /** A `time.Time` built as `time.Unix(0, nanos)`. */
  datatype Instant = Instant(unixNanos: Int64)

  /** The zero instant `time.Unix(0, 0)`. */
  const Epoch: Instant := Instant(0)

  /**
    A formatted value kept symbolic: `Fixed(d, x)` is `fmt.Sprintf("%.<d>f", x)`
    and `Shown(v)` is `fmt.Sprintf("%v", v)`. The digits themselves are not modelled.
   */
  datatype Formatted = Fixed(decimals: nat, x: real) | Shown(v: Scalar)

  /** `t.Format(layout)`, kept symbolic. */
  datatype TimeText = TimeText(layout: string, at: Instant)

  /** `SensorValue`: one named, unit-annotated entry of a human-readable reading. */
  datatype SensorValue = SensorValue(name: string, value: Formatted, unit: string, description: string)

  /** `SensorReading`: one raw reading once the JSON is decoded into the Go struct. */
  datatype SensorReading = SensorReading(name: string, time: Int64, values: Bag, accuracy: Int64)

  /** `SensorMessage`: the decoded envelope. */
  datatype SensorMessage = SensorMessage(messageId: Int64, sessionId: string, deviceId: string, payload: seq<SensorReading>)

  /**
    The JSON object before it is stored in the Go structs: `None` stands for a
    field that is absent or null, which `encoding/json` turns into the zero value.
   */
  datatype WireReading = WireReading(name: Option<string>, time: Option<Int64>, values: Option<Bag>, accuracy: Option<Int64>)
  datatype WireMessage = WireMessage(messageId: Option<Int64>, sessionId: Option<string>, deviceId: Option<string>, payload: Option<seq<WireReading>>)

  /** The outcome of `json.Unmarshal`: a syntax or type error, or a decoded object. */
  datatype Decoding = Malformed(reason: string) | Decoded(msg: WireMessage)

  function OrZero<T>(o: Option<T>, zero: T): T {
    match o
    case None => zero
    case Some(v) => v
  }

  /** What `json.Unmarshal` stores in a `SensorReading`: absent fields keep their zero value. */
  function ToReading(w: WireReading): SensorReading {
    SensorReading(OrZero(w.name, ""), OrZero(w.time, 0), OrZero(w.values, map[]), OrZero(w.accuracy, 0))
  }

  /** What `json.Unmarshal` stores in a `SensorMessage`; the payload keeps its order. */
  function ToMessage(w: WireMessage): (m: SensorMessage)
    ensures w.payload.None? ==> m.payload == []
    ensures w.payload.Some? ==> |m.payload| == |w.payload.value|
    ensures w.payload.Some? ==> forall i :: 0 <= i < |m.payload| ==> m.payload[i] == ToReading(w.payload.value[i])
  {
    var ws := OrZero(w.payload, []);
    SensorMessage(OrZero(w.messageId, 0), OrZero(w.sessionId, ""), OrZero(w.deviceId, ""),
                  seq(|ws|, i requires 0 <= i < |ws| => ToReading(ws[i])))
  }

  /** `HumanReadableSensorData`. */
  datatype HumanReadable = HumanReadable(
    sensorType: string,
    timestamp: Instant,
    readableTime: TimeText,
    values: seq<SensorValue>,
    accuracy: string)

  /** `TimeRange`. */
  datatype TimeRange = TimeRange(start: Instant, end: Instant)

  /** `ParsedSensorData`: one normalised message. */
  datatype ParsedSensorData = ParsedSensorData(
    messageId: Int64,
    sessionId: string,
    deviceId: string,
    totalReadings: int,
    sensorTypes: seq<string>,
    sensorCounts: map<string, int>,
    timeRange: TimeRange,
    parsedReadings: seq<HumanReadable>,
    receivedAt: Instant)

  /** The Go zero value `ParsedSensorData{}` (the zero `time.Time` is modelled as the epoch). */
  const ZeroParsed: ParsedSensorData :=
    ParsedSensorData(0, "", "", 0, [], map[], TimeRange(Epoch, Epoch), [], Epoch)

  /** `DashboardData`. */
  datatype DashboardData = DashboardData(
    hasData: bool,
    totalMessages: int,
    totalReadings: int,
    sensorTypeCount: int,
    deviceCount: int,
    latestData: seq<HumanReadable>)
}
