/**
  The pure part of database.go: turning the accuracy text back into a code,
  and rebuilding raw readings from a parsed message before it is stored
  (`extractOriginalPayload`). The number parser used on the formatted values is
  a parameter `parse`, standing for `parseFloat` (`strconv.ParseFloat`, or 0 on
  a syntax error).
 */
module Database {
  import opened SensorTypes
  import opened Utils
  import opened GoStrings
  import opened Decoders

  /** `getAccuracyInt`: the inverse of the accuracy description; any other text is -1. */
  function AccuracyInt(text: string): (r: int)
    ensures -1 <= r <= 3
    ensures r >= 0 ==> AccuracyDescription(r) == text
    ensures r == -1 <==> text !in KnownAccuracies
  {
    if text == Unreliable then 0
    else if text == LowAccuracy then 1
    else if text == MediumAccuracy then 2
    else if text == HighAccuracy then 3
    else -1
  }

  /**
    The code survives the trip to text and back when it is one of 0..3; every
    other code comes back as -1.
   */
  lemma AccuracyRoundTrip(a: int)
    ensures 0 <= a <= 3 ==> AccuracyInt(AccuracyDescription(a)) == a
    ensures !(0 <= a <= 3) ==> AccuracyInt(AccuracyDescription(a)) == -1
  {
    if 0 <= a <= 3 {
      var b := AccuracyInt(AccuracyDescription(a));
      assert AccuracyDescription(a) in KnownAccuracies;
      AccuracyDescriptionInjective(a, b);
    } else {
      assert UnknownAccuracy !in KnownAccuracies by {
        KnownIsNotUnknown(0);
        KnownIsNotUnknown(1);
        KnownIsNotUnknown(2);
        KnownIsNotUnknown(3);
      }
    }
  }

  /** Every text `getAccuracyDescription` can produce survives the trip to a code and back. */
  lemma AccuracyTextRoundTrip(text: string)
    requires text in KnownAccuracies || text == UnknownAccuracy
    ensures AccuracyDescription(AccuracyInt(text)) == text
  {
  }

  /** The nine three-axis display names that are mapped back to x, y or z. */
  const AxisDisplayNames: set<string> := {
    "X轴加速度", "Y轴加速度", "Z轴加速度",
    "X轴角速度", "Y轴角速度", "Z轴角速度",
    "X轴磁场", "Y轴磁场", "Z轴磁场"}

  /** The display names that `extractOriginalPayload` treats specially. */
  const ReservedNames: set<string> := AxisDisplayNames + {"磁方位角", "指南针方位", "步数"}

  /**
    The `switch value.Name` of `extractOriginalPayload`: the axis names map to
    their lower-cased first letter, both bearing names to `magneticBearing`,
    the step count to `steps`, and any other name is kept as the key.
   */
  function OriginalKey(name: string): (k: string)
    ensures name in AxisDisplayNames ==> k == [LowerChar(name[0])] && k in AxisKeys
    ensures name == "磁方位角" || name == "指南针方位" ==> k == "magneticBearing"
    ensures name == "步数" ==> k == "steps"
    ensures name !in ReservedNames ==> k == name
  {
    if name in AxisDisplayNames then
      AxisNameLetter(name);
      ToLower(name[..1])
    else if name == "磁方位角" || name == "指南针方位" then "magneticBearing"
    else if name == "步数" then "steps"
    else name
  }

  /** Each axis display name starts with the letter of its axis. */
  lemma AxisNameLetter(name: string)
    requires name in AxisDisplayNames
    ensures |name| > 0 && name[0] in {'X', 'Y', 'Z'}
    ensures ToLower(name[..1]) == [LowerChar(name[0])]
  {
  }

  /** Key restoration inverts the decoders whose layouts it knows. */
  lemma OriginalKeyRestores(f: Field)
    requires f in AccelerometerFields + GyroscopeFields + MagnetometerFields + [BearingField, CompassField, PedometerField]
    ensures OriginalKey(f.name) == f.key
  {
  }

  /** The gravity layout is not among the restored ones: its display names are kept as keys. */
  lemma GravityKeyVerbatim(f: Field)
    requires f in GravityFields
    ensures OriginalKey(f.name) == f.name
  {
  }

  /** The keys the rebuilt map receives for a list of values. */
  function RebuiltKeys(vs: seq<SensorValue>): set<string> {
    set i | 0 <= i < |vs| :: OriginalKey(vs[i].name)
  }

  /** No value after position `i` restores to the same key as `vs[i]`. */
  predicate LastWithKey(vs: seq<SensorValue>, i: nat)
    requires i < |vs|
  {
    forall j :: i < j < |vs| ==> OriginalKey(vs[j].name) != OriginalKey(vs[i].name)
  }

  /**
    The values map rebuilt one value at a time; a later value with the same
    key overwrites an earlier one, as a Go map assignment does.
   */
  function RebuildValues(vs: seq<SensorValue>, parse: Formatted -> real): (r: Bag)
    ensures r.Keys == RebuiltKeys(vs)
    ensures forall k :: k in r ==> r[k].Float64?
    ensures |vs| > 0 ==> r[OriginalKey(vs[|vs| - 1].name)] == Float64(parse(vs[|vs| - 1].value))
  {
    if |vs| == 0 then map[]
    else
      var last := vs[|vs| - 1];
      var init := RebuildValues(vs[..|vs| - 1], parse);
      assert RebuiltKeys(vs) == RebuiltKeys(vs[..|vs| - 1]) + {OriginalKey(last.name)} by {
        assert forall i :: 0 <= i < |vs| - 1 ==> vs[..|vs| - 1][i] == vs[i];
      }
      init[OriginalKey(last.name) := Float64(parse(last.value))]
  }

  /**
    Later wins: a key holds the value of the last position that restores to
    it, whatever came before.
   */
  lemma {:induction false} RebuildValuesLastWins(vs: seq<SensorValue>, parse: Formatted -> real, i: nat)
    requires i < |vs| && LastWithKey(vs, i)
    ensures RebuildValues(vs, parse)[OriginalKey(vs[i].name)] == Float64(parse(vs[i].value))
  {
    if i < |vs| - 1 {
      var front := vs[..|vs| - 1];
      assert front[i] == vs[i];
      assert OriginalKey(vs[i].name) != OriginalKey(vs[|vs| - 1].name);
      assert LastWithKey(front, i) by {
        assert forall j :: i < j < |front| ==> front[j] == vs[j];
      }
      RebuildValuesLastWins(front, parse, i);
    }
  }

  /** When no two values share a restored key, each value lands under its own key. */
  lemma {:induction false} RebuildValuesAt(vs: seq<SensorValue>, parse: Formatted -> real, i: nat)
    requires i < |vs|
    requires forall a, b :: 0 <= a < b < |vs| ==> OriginalKey(vs[a].name) != OriginalKey(vs[b].name)
    ensures RebuildValues(vs, parse)[OriginalKey(vs[i].name)] == Float64(parse(vs[i].value))
  {
    RebuildValuesLastWins(vs, parse, i);
  }

  /** One reading rebuilt from its human-readable form. */
  function ExtractReading(h: HumanReadable, parse: Formatted -> real): (rd: SensorReading)
    ensures rd.name == h.sensorType && rd.time == h.timestamp.unixNanos
    ensures rd.values.Keys == RebuiltKeys(h.values)
    ensures rd.accuracy == AccuracyInt(h.accuracy)
  {
    SensorReading(h.sensorType, h.timestamp.unixNanos, RebuildValues(h.values, parse), AccuracyInt(h.accuracy))
  }

  /** `extractOriginalPayload`: one rebuilt reading per parsed reading, in order. */
  function ExtractOriginalPayload(d: ParsedSensorData, parse: Formatted -> real): (p: seq<SensorReading>)
    ensures |p| == |d.parsedReadings|
    ensures forall i :: 0 <= i < |p| ==> p[i] == ExtractReading(d.parsedReadings[i], parse)
  {
    seq(|d.parsedReadings|, i requires 0 <= i < |d.parsedReadings| => ExtractReading(d.parsedReadings[i], parse))
  }

  /**
    Name, time and accuracy survive parsing followed by extraction; an
    accuracy outside 0..3 comes back as -1.
   */
  lemma ExtractRoundTrip(rd: SensorReading, h: HumanReadable, parse: Formatted -> real)
    requires Decodes(rd, h)
    ensures ExtractReading(h, parse).name == rd.name
    ensures ExtractReading(h, parse).time == rd.time
    ensures ExtractReading(h, parse).accuracy == (if 0 <= rd.accuracy <= 3 then rd.accuracy else -1)
  {
    AccuracyRoundTrip(rd.accuracy);
  }

  /**
    For the accelerometer, gyroscope and the three-axis magnetometer the
    rebuilt map has exactly the keys x, y and z, each holding the re-parsed
    six-decimal rendering of the original value (0 when it was absent).
   */
  lemma ExtractAxisKeys(rd: SensorReading, h: HumanReadable, parse: Formatted -> real)
    requires Decodes(rd, h)
    requires KindOf(rd.name) in {Accelerometer, Gyroscope}
      || (KindOf(rd.name) == Magnetometer && "magneticBearing" !in rd.values)
    ensures ExtractReading(h, parse).values.Keys == {"x", "y", "z"}
    ensures forall i :: 0 <= i < 3 ==>
      ExtractReading(h, parse).values[AxisKeys[i]] == Float64(parse(Fixed(6, GetFloat64(Lookup(rd.values, AxisKeys[i])))))
  {
    var fs := if KindOf(rd.name) == Accelerometer then AccelerometerFields
      else if KindOf(rd.name) == Gyroscope then GyroscopeFields
      else MagnetometerFields;
    assert h.values == RenderAll(rd.values, fs);
    forall i | 0 <= i < 3 ensures OriginalKey(h.values[i].name) == AxisKeys[i] {
      assert fs[i] in AccelerometerFields + GyroscopeFields + MagnetometerFields + [BearingField, CompassField, PedometerField];
      OriginalKeyRestores(fs[i]);
    }
    AxisRebuild(h.values, parse);
  }

  /** Three values restoring to x, y and z in order rebuild to exactly those keys. */
  lemma AxisRebuild(vs: seq<SensorValue>, parse: Formatted -> real)
    requires |vs| == 3
    requires forall i :: 0 <= i < 3 ==> OriginalKey(vs[i].name) == AxisKeys[i]
    ensures RebuildValues(vs, parse).Keys == {"x", "y", "z"}
    ensures forall i :: 0 <= i < 3 ==> RebuildValues(vs, parse)[AxisKeys[i]] == Float64(parse(vs[i].value))
  {
    RebuiltKeysOfThree(vs);
    assert OriginalKey(vs[0].name) == "x" && OriginalKey(vs[1].name) == "y" && OriginalKey(vs[2].name) == "z";
    AxisRebuildValues(vs, parse);
  }

  /** The key set of three values is the set of their three restored keys. */
  lemma RebuiltKeysOfThree(vs: seq<SensorValue>)
    requires |vs| == 3
    ensures RebuiltKeys(vs) == {OriginalKey(vs[0].name), OriginalKey(vs[1].name), OriginalKey(vs[2].name)}
  {
  }

  /** The value half of `AxisRebuild`: distinct keys, so each value lands under its own. */
  lemma AxisRebuildValues(vs: seq<SensorValue>, parse: Formatted -> real)
    requires |vs| == 3
    requires forall i :: 0 <= i < 3 ==> OriginalKey(vs[i].name) == AxisKeys[i]
    ensures forall i :: 0 <= i < 3 ==> RebuildValues(vs, parse)[AxisKeys[i]] == Float64(parse(vs[i].value))
  {
    RebuildThree(vs, parse);
    assert OriginalKey(vs[0].name) == "x" && OriginalKey(vs[1].name) == "y" && OriginalKey(vs[2].name) == "z";
  }

  /** Three values rebuild as three map assignments in order. */
  lemma RebuildThree(vs: seq<SensorValue>, parse: Formatted -> real)
    requires |vs| == 3
    ensures RebuildValues(vs, parse) ==
      map[][OriginalKey(vs[0].name) := Float64(parse(vs[0].value))]
           [OriginalKey(vs[1].name) := Float64(parse(vs[1].value))]
           [OriginalKey(vs[2].name) := Float64(parse(vs[2].value))]
  {
    var front, first := vs[..2], vs[..1];
    assert vs[..|vs| - 1] == front;
    assert front[..|front| - 1] == first && front[|front| - 1] == vs[1];
    assert first[..0] == [] && first[0] == vs[0];
    var m0 := RebuildValues(first, parse);
    assert m0 == map[][OriginalKey(vs[0].name) := Float64(parse(vs[0].value))];
    var m1 := RebuildValues(front, parse);
    assert m1 == m0[OriginalKey(vs[1].name) := Float64(parse(vs[1].value))];
  }

  /**
    A bearing (magnetometer with `magneticBearing`, or compass) comes back
    under `magneticBearing` and a step count under `steps`, each the only key.
   */
  lemma ExtractSingleKey(rd: SensorReading, h: HumanReadable, parse: Formatted -> real)
    requires Decodes(rd, h)
    requires KindOf(rd.name) in {Compass, Pedometer}
      || (KindOf(rd.name) == Magnetometer && "magneticBearing" in rd.values)
    ensures KindOf(rd.name) != Pedometer ==> ExtractReading(h, parse).values.Keys == {"magneticBearing"}
    ensures KindOf(rd.name) == Pedometer ==> ExtractReading(h, parse).values.Keys == {"steps"}
  {
    var f := if KindOf(rd.name) == Compass then CompassField
      else if KindOf(rd.name) == Pedometer then PedometerField
      else BearingField;
    assert h.values == RenderAll(rd.values, [f]);
    assert f in AccelerometerFields + GyroscopeFields + MagnetometerFields + [BearingField, CompassField, PedometerField];
    OriginalKeyRestores(f);
    assert RebuiltKeys(h.values) == {OriginalKey(h.values[0].name)};
  }

  /**
    Gravity readings are not restored: the rebuilt map is keyed by the three
    display names rather than by x, y and z.
   */
  lemma ExtractGravityVerbatim(rd: SensorReading, h: HumanReadable, parse: Formatted -> real)
    requires Decodes(rd, h) && KindOf(rd.name) == Gravity
    ensures ExtractReading(h, parse).values.Keys == {"X轴重力", "Y轴重力", "Z轴重力"}
    ensures "x" !in ExtractReading(h, parse).values
  {
    assert h.values == RenderAll(rd.values, GravityFields);
    forall i | 0 <= i < 3 ensures OriginalKey(h.values[i].name) == GravityFields[i].name {
      GravityKeyVerbatim(GravityFields[i]);
    }
    RebuiltKeysOfThree(h.values);
  }

  /**
    The rebuilt map of a generic layout whose keys avoid the reserved names
    has the bag's keys, each holding its re-parsed `%v` rendering.
   */
  lemma GenericRebuild(bag: Bag, vs: seq<SensorValue>, parse: Formatted -> real)
    requires IsGenericLayout(bag, vs)
    requires forall k :: k in bag ==> k !in ReservedNames
    ensures RebuildValues(vs, parse).Keys == bag.Keys
    ensures forall k :: k in bag ==> RebuildValues(vs, parse)[k] == Float64(parse(Shown(bag[k])))
  {
    GenericRebuildKeys(bag, vs);
    GenericCoversKeys(bag, vs);
    forall k | k in bag
      ensures RebuildValues(vs, parse)[k] == Float64(parse(Shown(bag[k])))
    {
      var i :| 0 <= i < |vs| && vs[i].name == k;
      RebuildValuesAt(vs, parse, i);
    }
  }

  /** The key half of `GenericRebuild`: generic names are kept as keys. */
  lemma GenericRebuildKeys(bag: Bag, vs: seq<SensorValue>)
    requires IsGenericLayout(bag, vs)
    requires forall k :: k in bag ==> k !in ReservedNames
    ensures RebuiltKeys(vs) == bag.Keys
  {
    GenericCoversKeys(bag, vs);
    assert forall i :: 0 <= i < |vs| ==> OriginalKey(vs[i].name) == vs[i].name;
    assert RebuiltKeys(vs) == set i | 0 <= i < |vs| :: vs[i].name;
  }

  /**
    A reading of an unrecognised sensor whose keys are none of the reserved
    display names gets back exactly its keys, each holding the re-parsed `%v`
    rendering of its original value.
   */
  lemma ExtractGenericKeys(rd: SensorReading, h: HumanReadable, parse: Formatted -> real)
    requires Decodes(rd, h) && KindOf(rd.name) == Generic
    requires forall k :: k in rd.values ==> k !in ReservedNames
    ensures ExtractReading(h, parse).values.Keys == rd.values.Keys
    ensures forall k :: k in rd.values ==> ExtractReading(h, parse).values[k] == Float64(parse(Shown(rd.values[k])))
  {
    GenericRebuild(rd.values, h.values, parse);
  }
}
