/**
  The per-sensor decoders of parser.go. Each maps a reading's value bag to an
  ordered list of named, unit-annotated values. The fixed decoders are driven by
  a layout table (key read, display name, decimals, unit, description); the
  generic decoder emits one value per key in Go's map iteration order.
 */
module Decoders {
  import opened SensorTypes
  import opened Utils
  import opened GoStrings

  /** `values[key]`: an absent key reads as nil. */
  function Lookup(bag: Bag, key: string): Scalar {
    if key in bag then bag[key] else Null
  }

  /** One row of a decoder's layout. */
  datatype Field = Field(key: string, name: string, decimals: nat, unit: string, description: string)

  /** The value of one row: its name, unit and description, and the coerced number under its key printed with its decimals. */
  function Render(bag: Bag, f: Field): SensorValue {
    SensorValue(f.name, Fixed(f.decimals, GetFloat64(Lookup(bag, f.key))), f.unit, f.description)
  }

  /** Every row of the layout, whether or not its key is present. */
  function RenderAll(bag: Bag, fs: seq<Field>): (r: seq<SensorValue>)
    ensures |r| == |fs|
    ensures forall i :: 0 <= i < |fs| ==> r[i] == Render(bag, fs[i])
  {
    seq(|fs|, i requires 0 <= i < |fs| => Render(bag, fs[i]))
  }

  /** The rows whose key is in the bag, in layout order. */
  function Present(bag: Bag, fs: seq<Field>): (r: seq<Field>)
    ensures |r| <= |fs|
    ensures forall f :: f in r <==> f in fs && f.key in bag
  {
    if |fs| == 0 then []
    else (if fs[0].key in bag then [fs[0]] else []) + Present(bag, fs[1..])
  }

  /** Filtering distributes over concatenation: the layout order is kept. */
  lemma {:induction false} PresentConcat(bag: Bag, a: seq<Field>, b: seq<Field>)
    ensures Present(bag, a + b) == Present(bag, a) + Present(bag, b)
  {
    if |a| > 0 {
      assert (a + b)[0] == a[0] && (a + b)[1..] == a[1..] + b;
      PresentConcat(bag, a[1..], b);
    } else {
      assert a + b == b;
    }
  }

  /** The row for `f` when its key is in the bag, and nothing when it is not. */
  function IfPresent(bag: Bag, f: Field): (r: seq<SensorValue>)
    ensures |r| <= 1
    ensures r == [] <==> f.key !in bag
  {
    if f.key in bag then [Render(bag, f)] else []
  }

  lemma RenderAllConcat(bag: Bag, a: seq<Field>, b: seq<Field>)
    ensures RenderAll(bag, a + b) == RenderAll(bag, a) + RenderAll(bag, b)
  {
  }

  /**
    Rendering the present rows of a layout is the first row's optional value
    followed by the rest: a chain of conditional appends in layout order.
   */
  lemma RenderPresentUnfold(bag: Bag, fs: seq<Field>)
    requires |fs| > 0
    ensures RenderAll(bag, Present(bag, fs)) == IfPresent(bag, fs[0]) + RenderAll(bag, Present(bag, fs[1..]))
  {
    assert fs == [fs[0]] + fs[1..];
    PresentConcat(bag, [fs[0]], fs[1..]);
    assert [fs[0]][1..] == [];
    RenderAllConcat(bag, Present(bag, [fs[0]]), Present(bag, fs[1..]));
  }

  /** A two-row layout renders as two conditional appends. */
  lemma RenderPresentChain2(bag: Bag, fs: seq<Field>)
    requires |fs| == 2
    ensures RenderAll(bag, Present(bag, fs)) == IfPresent(bag, fs[0]) + IfPresent(bag, fs[1])
  {
    RenderPresentUnfold(bag, fs);
    RenderPresentUnfold(bag, fs[1..]);
    assert fs[1..][1..] == [];
  }

  /** A three-row layout renders as three conditional appends. */
  lemma RenderPresentChain3(bag: Bag, fs: seq<Field>)
    requires |fs| == 3
    ensures RenderAll(bag, Present(bag, fs)) == IfPresent(bag, fs[0]) + (IfPresent(bag, fs[1]) + IfPresent(bag, fs[2]))
  {
    var t := fs[1..];
    assert t[0] == fs[1] && t[1] == fs[2];
    RenderPresentUnfold(bag, fs);
    RenderPresentChain2(bag, t);
  }

  /** A four-row layout renders as four conditional appends. */
  lemma RenderPresentChain4(bag: Bag, fs: seq<Field>)
    requires |fs| == 4
    ensures RenderAll(bag, Present(bag, fs))
      == IfPresent(bag, fs[0]) + (IfPresent(bag, fs[1]) + (IfPresent(bag, fs[2]) + IfPresent(bag, fs[3])))
  {
    var t := fs[1..];
    assert t[0] == fs[1] && t[1] == fs[2] && t[2] == fs[3];
    RenderPresentUnfold(bag, fs);
    RenderPresentChain3(bag, t);
  }

  /** A five-row layout renders as five conditional appends. */
  lemma RenderPresentChain5(bag: Bag, fs: seq<Field>)
    requires |fs| == 5
    ensures RenderAll(bag, Present(bag, fs))
      == IfPresent(bag, fs[0]) + (IfPresent(bag, fs[1]) + (IfPresent(bag, fs[2]) + (IfPresent(bag, fs[3]) + IfPresent(bag, fs[4]))))
  {
    var t := fs[1..];
    assert t[0] == fs[1] && t[1] == fs[2] && t[2] == fs[3] && t[3] == fs[4];
    RenderPresentUnfold(bag, fs);
    RenderPresentChain4(bag, t);
  }

  /** When every row of a layout has one unit, so does every rendered present row. */
  lemma PresentUnit(bag: Bag, fs: seq<Field>, unit: string)
    requires forall i :: 0 <= i < |fs| ==> fs[i].unit == unit
    ensures forall i :: 0 <= i < |RenderAll(bag, Present(bag, fs))| ==> RenderAll(bag, Present(bag, fs))[i].unit == unit
  {
    var p := Present(bag, fs);
    forall i | 0 <= i < |p|
      ensures p[i].unit == unit
    {
      assert p[i] in fs;
    }
  }

  /** Three values carrying the given names and descriptions, in order. */
  predicate AxisLabels(vs: seq<SensorValue>, names: seq<string>, descriptions: seq<string>) {
    && |vs| == 3 && |names| == 3 && |descriptions| == 3
    && vs[0].name == names[0] && vs[1].name == names[1] && vs[2].name == names[2]
    && vs[0].description == descriptions[0] && vs[1].description == descriptions[1]
    && vs[2].description == descriptions[2]
  }

  /** The display names of a layout are pairwise distinct. */
  predicate DistinctNames(fs: seq<Field>) {
    forall i, j :: 0 <= i < j < |fs| ==> fs[i].name != fs[j].name
  }

  /** The rows whose key is present in the bag, as a count. */
  function PresentCount(bag: Bag, fs: seq<Field>): nat {
    if |fs| == 0 then 0 else (if fs[0].key in bag then 1 else 0) + PresentCount(bag, fs[1..])
  }

  /**
    For a layout with distinct names, the rendered present rows contain a
    row's value exactly when the row's key is in the bag, and there is one
    value per present key.
   */
  lemma RenderPresentSpec(bag: Bag, fs: seq<Field>)
    requires DistinctNames(fs)
    ensures |RenderAll(bag, Present(bag, fs))| == PresentCount(bag, fs)
    ensures forall f :: f in fs ==> (Render(bag, f) in RenderAll(bag, Present(bag, fs)) <==> f.key in bag)
  {
    PresentHasCount(bag, fs);
    var r := RenderAll(bag, Present(bag, fs));
    forall f | f in fs && Render(bag, f) in r
      ensures f.key in bag
    {
      var i :| 0 <= i < |r| && r[i] == Render(bag, f);
      var g := Present(bag, fs)[i];
      assert g in fs && g.key in bag;
      var a :| 0 <= a < |fs| && fs[a] == f;
      var b :| 0 <= b < |fs| && fs[b] == g;
      assert fs[a].name == fs[b].name;
    }
    forall f | f in fs && f.key in bag
      ensures Render(bag, f) in r
    {
      var p := Present(bag, fs);
      assert f in p;
      var i :| 0 <= i < |p| && p[i] == f;
      assert r[i] == Render(bag, f);
    }
  }

  /** The filtered layout has one row per present key. */
  lemma {:induction false} PresentHasCount(bag: Bag, fs: seq<Field>)
    ensures |Present(bag, fs)| == PresentCount(bag, fs)
  {
    if |fs| > 0 {
      PresentHasCount(bag, fs[1..]);
    }
  }


  // ---------------------------------------------------------------------
  // Layouts, with the display strings of the source.
  // ---------------------------------------------------------------------

  const AxisKeys: seq<string> := ["x", "y", "z"]

  const AccelerometerFields: seq<Field> := [
    Field("x", "X轴加速度", 6, "m/s²", "X轴方向的加速度"),
    Field("y", "Y轴加速度", 6, "m/s²", "Y轴方向的加速度"),
    Field("z", "Z轴加速度", 6, "m/s²", "Z轴方向的加速度")]

  const GyroscopeFields: seq<Field> := [
    Field("x", "X轴角速度", 6, "rad/s", "绕X轴的角速度"),
    Field("y", "Y轴角速度", 6, "rad/s", "绕Y轴的角速度"),
    Field("z", "Z轴角速度", 6, "rad/s", "绕Z轴的角速度")]

  const BearingField: Field := Field("magneticBearing", "磁方位角", 2, "度", "相对于磁北的方位角")

  const MagnetometerFields: seq<Field> := [
    Field("x", "X轴磁场", 6, "μT", "X轴方向的磁场强度"),
    Field("y", "Y轴磁场", 6, "μT", "Y轴方向的磁场强度"),
    Field("z", "Z轴磁场", 6, "μT", "Z轴方向的磁场强度")]

  const GravityFields: seq<Field> := [
    Field("x", "X轴重力", 6, "m/s²", "X轴方向的重力分量"),
    Field("y", "Y轴重力", 6, "m/s²", "Y轴方向的重力分量"),
    Field("z", "Z轴重力", 6, "m/s²", "Z轴方向的重力分量")]

  const OrientationFields: seq<Field> := [
    Field("qw", "四元数W", 6, "", "四元数W分量"),
    Field("qx", "四元数X", 6, "", "四元数X分量"),
    Field("qy", "四元数Y", 6, "", "四元数Y分量"),
    Field("qz", "四元数Z", 6, "", "四元数Z分量")]

  const CompassField: Field := Field("magneticBearing", "指南针方位", 2, "度", "指南针方位角")

  const PedometerField: Field := Field("steps", "步数", 0, "步", "累计步数")

  const UncalibratedFields: seq<Field> := [
    Field("x", "X轴磁场(未校准)", 6, "μT", "X轴方向的未校准磁场强度"),
    Field("y", "Y轴磁场(未校准)", 6, "μT", "Y轴方向的未校准磁场强度"),
    Field("z", "Z轴磁场(未校准)", 6, "μT", "Z轴方向的未校准磁场强度")]

  const LocationFields: seq<Field> := [
    Field("latitude", "纬度", 8, "度", "地理纬度"),
    Field("longitude", "经度", 8, "度", "地理经度"),
    Field("altitude", "海拔", 2, "米", "海拔高度"),
    Field("speed", "速度", 2, "m/s", "移动速度"),
    Field("bearing", "方位角", 2, "度", "移动方位角")]

  const BarometerFields: seq<Field> := [
    Field("pressure", "气压", 2, "hPa", "大气压力"),
    Field("altitude", "气压高度", 2, "米", "基于气压计算的高度")]

  /**
    The shape every three-axis decoder promises: exactly three values, for the
    keys x, y and z in that order, each coerced (absent keys read as 0) and
    printed with six decimals, all in one unit.
   */
  predicate IsAxisLayout(bag: Bag, r: seq<SensorValue>, unit: string) {
    && |r| == 3
    && forall i :: 0 <= i < 3 ==>
         r[i].unit == unit && r[i].value == Fixed(6, GetFloat64(Lookup(bag, AxisKeys[i])))
  }

  /** `parseAccelerometer`. */
  function ParseAccelerometer(bag: Bag): (r: seq<SensorValue>)
    ensures IsAxisLayout(bag, r, "m/s²")
    ensures AxisLabels(r, ["X轴加速度", "Y轴加速度", "Z轴加速度"],
      ["X轴方向的加速度", "Y轴方向的加速度", "Z轴方向的加速度"])
  {
    RenderAll(bag, AccelerometerFields)
  }

  /** `parseGyroscope`. */
  function ParseGyroscope(bag: Bag): (r: seq<SensorValue>)
    ensures IsAxisLayout(bag, r, "rad/s")
    ensures AxisLabels(r, ["X轴角速度", "Y轴角速度", "Z轴角速度"],
      ["绕X轴的角速度", "绕Y轴的角速度", "绕Z轴的角速度"])
  {
    RenderAll(bag, GyroscopeFields)
  }

  /**
    `parseMagnetometer`: a present `magneticBearing` key (even one holding
    null) yields the bearing alone, with two decimals in degrees; otherwise the
    three field-strength axes in μT.
   */
  function ParseMagnetometer(bag: Bag): (r: seq<SensorValue>)
    ensures "magneticBearing" in bag <==> |r| == 1
    ensures "magneticBearing" in bag ==>
      r[0] == SensorValue("磁方位角", Fixed(2, GetFloat64(bag["magneticBearing"])), "度", "相对于磁北的方位角")
    ensures "magneticBearing" !in bag ==>
      IsAxisLayout(bag, r, "μT") && AxisLabels(r, ["X轴磁场", "Y轴磁场", "Z轴磁场"],
        ["X轴方向的磁场强度", "Y轴方向的磁场强度", "Z轴方向的磁场强度"])
  {
    if "magneticBearing" in bag then RenderAll(bag, [BearingField])
    else RenderAll(bag, MagnetometerFields)
  }

  /** `parseGravity`. */
  function ParseGravity(bag: Bag): (r: seq<SensorValue>)
    ensures IsAxisLayout(bag, r, "m/s²")
    ensures AxisLabels(r, ["X轴重力", "Y轴重力", "Z轴重力"],
      ["X轴方向的重力分量", "Y轴方向的重力分量", "Z轴方向的重力分量"])
  {
    RenderAll(bag, GravityFields)
  }

  /** `parseOrientation`: one quaternion component per present key, in the order w, x, y, z. */
  function ParseOrientation(bag: Bag): (r: seq<SensorValue>)
    ensures r == IfPresent(bag, OrientationFields[0]) + (IfPresent(bag, OrientationFields[1])
               + (IfPresent(bag, OrientationFields[2]) + IfPresent(bag, OrientationFields[3])))
    ensures |r| == PresentCount(bag, OrientationFields) <= 4
    ensures forall f :: f in OrientationFields ==> (Render(bag, f) in r <==> f.key in bag)
    ensures forall i :: 0 <= i < |r| ==> r[i].unit == ""
  {
    RenderPresentSpec(bag, OrientationFields);
    PresentUnit(bag, OrientationFields, "");
    RenderPresentChain4(bag, OrientationFields);
    RenderAll(bag, Present(bag, OrientationFields))
  }

  /** `parseCompass`: the bearing alone, zero when absent. */
  function ParseCompass(bag: Bag): (r: seq<SensorValue>)
    ensures r == [SensorValue("指南针方位", Fixed(2, GetFloat64(Lookup(bag, "magneticBearing"))), "度", "指南针方位角")]
  {
    RenderAll(bag, [CompassField])
  }

  /** `parsePedometer`: the step count alone, printed with no decimals, zero when absent. */
  function ParsePedometer(bag: Bag): (r: seq<SensorValue>)
    ensures r == [SensorValue("步数", Fixed(0, GetFloat64(Lookup(bag, "steps"))), "步", "累计步数")]
  {
    RenderAll(bag, [PedometerField])
  }

  /** `parseMagnetometerUncalibrated`. */
  function ParseMagnetometerUncalibrated(bag: Bag): (r: seq<SensorValue>)
    ensures IsAxisLayout(bag, r, "μT")
    ensures AxisLabels(r, ["X轴磁场(未校准)", "Y轴磁场(未校准)", "Z轴磁场(未校准)"],
      ["X轴方向的未校准磁场强度", "Y轴方向的未校准磁场强度", "Z轴方向的未校准磁场强度"])
  {
    RenderAll(bag, UncalibratedFields)
  }

  /** `parseLocation`: one value per present key, in the order latitude, longitude, altitude, speed, bearing. */
  function ParseLocation(bag: Bag): (r: seq<SensorValue>)
    ensures r == IfPresent(bag, LocationFields[0]) + (IfPresent(bag, LocationFields[1])
               + (IfPresent(bag, LocationFields[2]) + (IfPresent(bag, LocationFields[3])
               + IfPresent(bag, LocationFields[4]))))
    ensures |r| == PresentCount(bag, LocationFields) <= 5
    ensures forall f :: f in LocationFields ==> (Render(bag, f) in r <==> f.key in bag)
  {
    RenderPresentSpec(bag, LocationFields);
    RenderPresentChain5(bag, LocationFields);
    RenderAll(bag, Present(bag, LocationFields))
  }

  /** `parseBarometer`: one value per present key, pressure before altitude. */
  function ParseBarometer(bag: Bag): (r: seq<SensorValue>)
    ensures r == IfPresent(bag, BarometerFields[0]) + IfPresent(bag, BarometerFields[1])
    ensures |r| == PresentCount(bag, BarometerFields) <= 2
    ensures forall f :: f in BarometerFields ==> (Render(bag, f) in r <==> f.key in bag)
  {
    RenderPresentSpec(bag, BarometerFields);
    RenderPresentChain2(bag, BarometerFields);
    RenderAll(bag, Present(bag, BarometerFields))
  }

  // ---------------------------------------------------------------------
  // The generic decoder.
  // ---------------------------------------------------------------------

  /** `SensorValue{Name: key, Value: fmt.Sprintf("%v", v), Unit: "", Description: key + "数值"}`. */
  function GenericValue(key: string, v: Scalar): SensorValue {
    SensorValue(key, Shown(v), "", key + "数值")
  }

  /**
    What `parseGeneric` produces for some iteration order of the bag: one
    generic value per key, no key twice.
   */
  predicate IsGenericLayout(bag: Bag, r: seq<SensorValue>) {
    && |r| == |bag|
    && (forall i :: 0 <= i < |r| ==> r[i].name in bag && r[i] == GenericValue(r[i].name, bag[r[i].name]))
    && (forall i, j :: 0 <= i < j < |r| ==> r[i].name != r[j].name)
  }

  /** `parseGeneric`; Go visits the map's keys in an unspecified order. */
  method ParseGeneric(bag: Bag) returns (r: seq<SensorValue>)
    ensures IsGenericLayout(bag, r)
  {
    r := [];
    var rest := bag.Keys;
    while rest != {}
      invariant rest <= bag.Keys
      invariant |r| + |rest| == |bag|
      invariant forall i :: 0 <= i < |r| ==> r[i].name in bag.Keys - rest && r[i] == GenericValue(r[i].name, bag[r[i].name])
      invariant forall i, j :: 0 <= i < j < |r| ==> r[i].name != r[j].name
      decreases rest
    {
      var k :| k in rest;
      r := r + [GenericValue(k, bag[k])];
      rest := rest - {k};
    }
  }

  /** Whatever the iteration order, every key of the bag gets its value. */
  lemma GenericCoversKeys(bag: Bag, r: seq<SensorValue>)
    requires IsGenericLayout(bag, r)
    ensures forall k :: k in bag <==> exists i :: 0 <= i < |r| && r[i].name == k
    ensures (set i | 0 <= i < |r| :: r[i].name) == bag.Keys
  {
    var names := set i | 0 <= i < |r| :: r[i].name;
    assert names <= bag.Keys;
    DistinctCard(r);
    var rest := bag.Keys - names;
    assert bag.Keys == names + rest && names * rest == {};
    assert |bag.Keys| == |names| + |rest|;
    assert rest == {};
  }

  lemma {:induction false} DistinctCard(r: seq<SensorValue>)
    requires forall i, j :: 0 <= i < j < |r| ==> r[i].name != r[j].name
    ensures |set i | 0 <= i < |r| :: r[i].name| == |r|
  {
    if |r| > 0 {
      var r' := r[..|r| - 1];
      DistinctCard(r');
      var s' := set i | 0 <= i < |r'| :: r'[i].name;
      var s := set i | 0 <= i < |r| :: r[i].name;
      var last := r[|r| - 1].name;
      forall x | x in s
        ensures x in s' + {last}
      {
        var i :| 0 <= i < |r| && r[i].name == x;
        if i < |r'| {
          assert r'[i] == r[i];
        }
      }
      forall x | x in s'
        ensures x in s && x != last
      {
        var i :| 0 <= i < |r'| && r'[i].name == x;
        assert r'[i] == r[i];
      }
      assert s == s' + {last};
    }
  }

  // ---------------------------------------------------------------------
  // Dispatch on the lower-cased sensor name.
  // ---------------------------------------------------------------------

  datatype Kind =
    | Accelerometer | Gyroscope | Magnetometer | Gravity | Orientation
    | Compass | Pedometer | MagnetometerUncalibrated | Location | Barometer
    | Generic

  /** The `case` label of each recognised kind in `parseToHumanReadable`. */
  function KindName(k: Kind): string
    requires k != Generic
  {
    match k
    case Accelerometer => "accelerometer"
    case Gyroscope => "gyroscope"
    case Magnetometer => "magnetometer"
    case Gravity => "gravity"
    case Orientation => "orientation"
    case Compass => "compass"
    case Pedometer => "pedometer"
    case MagnetometerUncalibrated => "magnetometeruncalibrated"
    case Location => "location"
    case Barometer => "barometer"
  }

  /** `switch strings.ToLower(reading.Name)`; anything unrecognised is generic. */
  function KindOf(name: string): (k: Kind)
    ensures k != Generic ==> ToLower(name) == KindName(k)
    ensures k == Generic ==> forall k' :: k' != Generic ==> ToLower(name) != KindName(k')
  {
    var l := ToLower(name);
    if l == "accelerometer" then Accelerometer
    else if l == "gyroscope" then Gyroscope
    else if l == "magnetometer" then Magnetometer
    else if l == "gravity" then Gravity
    else if l == "orientation" then Orientation
    else if l == "compass" then Compass
    else if l == "pedometer" then Pedometer
    else if l == "magnetometeruncalibrated" then MagnetometerUncalibrated
    else if l == "location" then Location
    else if l == "barometer" then Barometer
    else Generic
  }

  /** Each `case` label selects its own decoder, and does so in any letter case. */
  lemma KindOfName(k: Kind)
    requires k != Generic
    ensures KindOf(KindName(k)) == k
    ensures KindOf(ToUpper(KindName(k))) == k
  {
    var n := KindName(k);
    KindNameLower(k);
    LowerOfUpper(n);
    KindOfLower(n, k);
    KindOfLower(ToUpper(n), k);
  }

  /** The case labels are already lower case. */
  lemma KindNameLower(k: Kind)
    requires k != Generic
    ensures ToLower(KindName(k)) == KindName(k)
  {
  }

  /** A name that lower-cases to a case label selects that label's decoder. */
  lemma KindOfLower(name: string, k: Kind)
    requires k != Generic && ToLower(name) == KindName(k)
    ensures KindOf(name) == k
  {
  }

  /** The decoder chosen for a recognised kind. */
  function DecodeFixed(k: Kind, bag: Bag): seq<SensorValue>
    requires k != Generic
  {
    match k
    case Accelerometer => ParseAccelerometer(bag)
    case Gyroscope => ParseGyroscope(bag)
    case Magnetometer => ParseMagnetometer(bag)
    case Gravity => ParseGravity(bag)
    case Orientation => ParseOrientation(bag)
    case Compass => ParseCompass(bag)
    case Pedometer => ParsePedometer(bag)
    case MagnetometerUncalibrated => ParseMagnetometerUncalibrated(bag)
    case Location => ParseLocation(bag)
    case Barometer => ParseBarometer(bag)
  }

  /** The layout of `ReadableTime`. */
  const ReadableLayout: string := "2006-01-02 15:04:05.000"

  /**
    What any run of `parseToHumanReadable` may return for `rd`: the raw name,
    the sensor time as the timestamp, the accuracy text, and the values of the
    decoder chosen by the lower-cased name.
   */
  predicate Decodes(rd: SensorReading, h: HumanReadable) {
    && h.sensorType == rd.name
    && h.timestamp == Instant(rd.time)
    && h.readableTime == TimeText(ReadableLayout, Instant(rd.time))
    && h.accuracy == AccuracyDescription(rd.accuracy)
    && (KindOf(rd.name) != Generic ==> h.values == DecodeFixed(KindOf(rd.name), rd.values))
    && (KindOf(rd.name) == Generic ==> IsGenericLayout(rd.values, h.values))
  }

  /** `parseToHumanReadable`. */
  method ParseToHumanReadable(rd: SensorReading) returns (h: HumanReadable)
    ensures h.sensorType == rd.name && h.timestamp.unixNanos == rd.time
    ensures h.accuracy == AccuracyDescription(rd.accuracy)
    ensures Decodes(rd, h)
  {
    var timestamp := Instant(rd.time);
    var kind := KindOf(rd.name);
    var values: seq<SensorValue>;
    if kind == Generic {
      values := ParseGeneric(rd.values);
    } else {
      values := DecodeFixed(kind, rd.values);
    }
    h := HumanReadable(rd.name, timestamp, TimeText(ReadableLayout, timestamp), values,
                       AccuracyDescription(rd.accuracy));
  }

  /** A missing axis key is zero-filled rather than dropped. */
  lemma AxisZeroFill(bag: Bag, r: seq<SensorValue>, unit: string, i: nat)
    requires IsAxisLayout(bag, r, unit) && i < 3
    requires AxisKeys[i] !in bag
    ensures r[i].value == Fixed(6, 0.0)
  {
  }

  /**
    The three-axis decoders read nothing but the keys x, y and z: two bags
    that agree on those keys (present with equal values, or both absent)
    decode to the same values; for the magnetometer this holds when neither
    bag carries a bearing.
   */
  lemma AxisDecodersLocal(b1: Bag, b2: Bag)
    requires forall k :: k in AxisKeys ==> Lookup(b1, k) == Lookup(b2, k)
    ensures ParseAccelerometer(b1) == ParseAccelerometer(b2)
    ensures ParseGyroscope(b1) == ParseGyroscope(b2)
    ensures ParseGravity(b1) == ParseGravity(b2)
    ensures ParseMagnetometerUncalibrated(b1) == ParseMagnetometerUncalibrated(b2)
    ensures "magneticBearing" !in b1 && "magneticBearing" !in b2 ==> ParseMagnetometer(b1) == ParseMagnetometer(b2)
  {
    AxisLayoutLocal(b1, b2, AccelerometerFields);
    AxisLayoutLocal(b1, b2, GyroscopeFields);
    AxisLayoutLocal(b1, b2, GravityFields);
    AxisLayoutLocal(b1, b2, UncalibratedFields);
    AxisLayoutLocal(b1, b2, MagnetometerFields);
  }

  /** A layout over the axis keys renders alike on bags that agree on those keys. */
  lemma AxisLayoutLocal(b1: Bag, b2: Bag, fs: seq<Field>)
    requires forall k :: k in AxisKeys ==> Lookup(b1, k) == Lookup(b2, k)
    requires forall i :: 0 <= i < |fs| ==> fs[i].key in AxisKeys
    ensures RenderAll(b1, fs) == RenderAll(b2, fs)
  {
    forall i | 0 <= i < |fs| ensures RenderAll(b1, fs)[i] == RenderAll(b2, fs)[i] {
      assert Lookup(b1, fs[i].key) == Lookup(b2, fs[i].key);
    }
  }

  /**
    However the bag looks, a reading of a recognised kind yields a bounded,
    non-failing number of values: 3 for the axis sensors, 1 for compass and
    pedometer, 1 or 3 for the magnetometer, and at most the layout size for
    the optional-key sensors.
   */
  lemma FixedValueCount(k: Kind, bag: Bag)
    requires k != Generic
    ensures k in {Accelerometer, Gyroscope, Gravity, MagnetometerUncalibrated} ==> |DecodeFixed(k, bag)| == 3
    ensures k in {Compass, Pedometer} ==> |DecodeFixed(k, bag)| == 1
    ensures k == Magnetometer ==> |DecodeFixed(k, bag)| in {1, 3}
    ensures k == Orientation ==> |DecodeFixed(k, bag)| <= 4
    ensures k == Location ==> |DecodeFixed(k, bag)| <= 5
    ensures k == Barometer ==> |DecodeFixed(k, bag)| <= 2
  {
    match k
    case Accelerometer => assert |ParseAccelerometer(bag)| == 3;
    case Gyroscope => assert |ParseGyroscope(bag)| == 3;
    case Magnetometer => assert |ParseMagnetometer(bag)| in {1, 3};
    case Gravity => assert |ParseGravity(bag)| == 3;
    case Orientation => assert |ParseOrientation(bag)| <= 4;
    case Compass => assert |ParseCompass(bag)| == 1;
    case Pedometer => assert |ParsePedometer(bag)| == 1;
    case MagnetometerUncalibrated => assert |ParseMagnetometerUncalibrated(bag)| == 3;
    case Location => assert |ParseLocation(bag)| <= 5;
    case Barometer => assert |ParseBarometer(bag)| <= 2;
  }
}
