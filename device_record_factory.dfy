/**
 * The record factory: a builder that validates and defaults its settings and generates a pool
 * of device models, and the factory that samples one model per record.
 */
module RecordFactory {
  import opened Java
  import opened Decimal
  import opened Formatter
  import opened DataFaker
  import opened Model

  const DEVICE_FORMAT: string := "D%s-%s-%s"
  const MODEL_FORMAT: string := "M%08d"
  const DEVICE_NUMBER_FORMAT: string := "S%08d"
  const VERSION_FORMAT: string := "ver.%d.%d.%d"
  const DEFAULT_WORKER_ID: string := "0"
  const DEFAULT_DEVICE_NUMBER: int32 := 1000
  const DEFAULT_MODEL_NUMBER: int32 := 10

  const MODEL_SIZE_MESSAGE: string := "The size of model should be more than zero."
  const DEVICE_NUMBER_MESSAGE: string := "The number of device should be more than zero."

  /** How many values of the random source one generated model takes. */
  const DRAWS_PER_MODEL: nat := 6

  // ---------------------------------------------------------------------------------------------
  // The formats of the factory

  /** MODEL_FORMAT prints a non-negative index as "M" and the index zero-padded to 8 digits. */
  lemma ModelFormatText(index: int)
    requires index >= 0
    ensures Format(MODEL_FORMAT, [IntArg(index)]) == Ok("M" + ZeroPad(index, 8))
  {
    var args := [IntArg(index)];
    assert MODEL_FORMAT == "M" + ("%0" + Digits(8) + "d" + "");
    FormatLiteral("M", "%0" + Digits(8) + "d" + "", args, 0);
    FormatZeroPadded(8, "", args, 0);
    assert ZeroPad(index, 8) + "" == ZeroPad(index, 8);
  }

  /** DEVICE_NUMBER_FORMAT prints a non-negative serial as "S" and the serial zero-padded to 8 digits. */
  lemma DeviceNumberFormatText(serial: int)
    requires serial >= 0
    ensures Format(DEVICE_NUMBER_FORMAT, [IntArg(serial)]) == Ok("S" + ZeroPad(serial, 8))
  {
    var args := [IntArg(serial)];
    assert DEVICE_NUMBER_FORMAT == "S" + ("%0" + Digits(8) + "d" + "");
    FormatLiteral("S", "%0" + Digits(8) + "d" + "", args, 0);
    FormatZeroPadded(8, "", args, 0);
    assert ZeroPad(serial, 8) + "" == ZeroPad(serial, 8);
  }

  /** A literal, then `%d`. */
  lemma LiteralDecimal(lit: string, rest: string, args: seq<Arg>, next: nat)
    requires '%' !in lit && next < |args| && args[next].IntArg?
    ensures FormatFrom(lit + ("%d" + rest), args, next)
         == Prepend(lit + IntText(args[next].i), FormatFrom(rest, args, next + 1))
  {
    FormatLiteral(lit, "%d" + rest, args, next);
    FormatDecimal(rest, args, next);
    PrependPrepend(lit, IntText(args[next].i), FormatFrom(rest, args, next + 1));
  }

  /** A literal, then `%s`. */
  lemma LiteralString(lit: string, rest: string, args: seq<Arg>, next: nat)
    requires '%' !in lit && next < |args|
    ensures FormatFrom(lit + ("%s" + rest), args, next)
         == Prepend(lit + ArgText(args[next]), FormatFrom(rest, args, next + 1))
  {
    FormatLiteral(lit, "%s" + rest, args, next);
    FormatString(rest, args, next);
    PrependPrepend(lit, ArgText(args[next]), FormatFrom(rest, args, next + 1));
  }

  /** A literal and `%d` before a rest that prints `tail`. */
  lemma DecimalStep(lit: string, rest: string, args: seq<Arg>, next: nat, tail: string)
    requires '%' !in lit && next < |args| && args[next].IntArg?
    requires FormatFrom(rest, args, next + 1) == Ok(tail)
    ensures FormatFrom(lit + ("%d" + rest), args, next) == Ok(lit + IntText(args[next].i) + tail)
  {
    LiteralDecimal(lit, rest, args, next);
  }

  /** A literal and `%s` before a rest that prints `tail`. */
  lemma StringStep(lit: string, rest: string, args: seq<Arg>, next: nat, tail: string)
    requires '%' !in lit && next < |args|
    requires FormatFrom(rest, args, next + 1) == Ok(tail)
    ensures FormatFrom(lit + ("%s" + rest), args, next) == Ok(lit + ArgText(args[next]) + tail)
  {
    LiteralString(lit, rest, args, next);
  }

  lemma Concat6(s0: string, s1: string, s2: string, s3: string, s4: string, s5: string)
    ensures s0 + s1 + (s2 + s3 + (s4 + s5 + "")) == s0 + s1 + s2 + s3 + s4 + s5
  {
    assert s4 + s5 + "" == s4 + s5;
  }

  /** Three `%d` specifiers, each after a literal, print the three int arguments in order. */
  lemma ThreeDecimals(p0: string, p1: string, p2: string, i0: int, i1: int, i2: int)
    requires '%' !in p0 && '%' !in p1 && '%' !in p2
    ensures FormatFrom(p0 + ("%d" + (p1 + ("%d" + (p2 + ("%d" + ""))))), [IntArg(i0), IntArg(i1), IntArg(i2)], 0)
         == Ok(p0 + IntText(i0) + p1 + IntText(i1) + p2 + IntText(i2))
  {
    var args := [IntArg(i0), IntArg(i1), IntArg(i2)];
    var r2 := p2 + ("%d" + "");
    var r1 := p1 + ("%d" + r2);
    var t2 := p2 + IntText(i2) + "";
    var t1 := p1 + IntText(i1) + t2;
    DecimalStep(p2, "", args, 2, "");
    DecimalStep(p1, r2, args, 1, t2);
    DecimalStep(p0, r1, args, 0, t1);
    Concat6(p0, IntText(i0), p1, IntText(i1), p2, IntText(i2));
  }

  /** Three `%s` specifiers, each after a literal, print the three arguments in order. */
  lemma ThreeStrings(p0: string, p1: string, p2: string, x: Arg, y: Arg, z: Arg)
    requires '%' !in p0 && '%' !in p1 && '%' !in p2
    ensures FormatFrom(p0 + ("%s" + (p1 + ("%s" + (p2 + ("%s" + ""))))), [x, y, z], 0)
         == Ok(p0 + ArgText(x) + p1 + ArgText(y) + p2 + ArgText(z))
  {
    var args := [x, y, z];
    var r2 := p2 + ("%s" + "");
    var r1 := p1 + ("%s" + r2);
    var t2 := p2 + ArgText(z) + "";
    var t1 := p1 + ArgText(y) + t2;
    StringStep(p2, "", args, 2, "");
    StringStep(p1, r2, args, 1, t2);
    StringStep(p0, r1, args, 0, t1);
    Concat6(p0, ArgText(x), p1, ArgText(y), p2, ArgText(z));
  }

  /** VERSION_FORMAT prints "ver." and the three numbers separated by dots. */
  lemma VersionFormatText(major: int, minor: int, patch: int)
    ensures Format(VERSION_FORMAT, [IntArg(major), IntArg(minor), IntArg(patch)])
         == Ok("ver." + IntText(major) + "." + IntText(minor) + "." + IntText(patch))
  {
    assert VERSION_FORMAT == "ver." + ("%d" + ("." + ("%d" + ("." + ("%d" + "")))));
    ThreeDecimals("ver.", ".", ".", major, minor, patch);
  }

  /** DEVICE_FORMAT prints "D", then the three strings separated by dashes. */
  lemma DeviceFormatText(x: Arg, y: Arg, z: Arg)
    ensures Format(DEVICE_FORMAT, [x, y, z])
         == Ok("D" + ArgText(x) + "-" + ArgText(y) + "-" + ArgText(z))
  {
    assert DEVICE_FORMAT == "D" + ("%s" + ("-" + ("%s" + ("-" + ("%s" + "")))));
    ThreeStrings("D", "-", "-", x, y, z);
  }

  // ---------------------------------------------------------------------------------------------
  // Model ids

  /** Distinct indices give distinct model ids: zero padding widens but never truncates. */
  lemma ModelIdsDistinct(i: nat, j: nat)
    requires i != j
    ensures "M" + ZeroPad(i, 8) != "M" + ZeroPad(j, 8)
  {
    var a, b := "M" + ZeroPad(i, 8), "M" + ZeroPad(j, 8);
    if a == b {
      assert a[1..] == ZeroPad(i, 8) && b[1..] == ZeroPad(j, 8);
      ZeroPadInjective(i, 8, j, 8);
    }
  }

  /** An index below 10^8 gives an id of "M" and exactly 8 digits that read back as the index. */
  lemma ModelIdLayout(index: nat)
    requires index < Pow10(8)
    ensures var id := "M" + ZeroPad(index, 8);
      |id| == 9 && id[0] == 'M' && AllDigits(id[1..]) && Value(id[1..]) == index
  {
    var id := "M" + ZeroPad(index, 8);
    assert id[1..] == ZeroPad(index, 8);
    ZeroPadExactWidth(index, 8);
    ZeroPadValue(index, 8);
  }

  // ---------------------------------------------------------------------------------------------
  // Versions

  /** "ver.a.b.c" with a and b in {0, 1} and c in [0, 5]. */
  predicate WellFormedVersion(v: string) {
    && |v| == 9 && v[..4] == "ver." && v[5] == '.' && v[7] == '.'
    && v[4] in "01" && v[6] in "01" && v[8] in "012345"
  }

  /**
   * The version of three numbers drawn in their ranges is well formed, and its three digits
   * give back the numbers.
   */
  lemma VersionLayout(major: int, minor: int, patch: int)
    requires 0 <= major < 2 && 0 <= minor < 2 && 0 <= patch < 6
    ensures var v := "ver." + IntText(major) + "." + IntText(minor) + "." + IntText(patch);
      && WellFormedVersion(v)
      && DigitValue(v[4]) == major && DigitValue(v[6]) == minor && DigitValue(v[8]) == patch
  {
    var v := "ver." + IntText(major) + "." + IntText(minor) + "." + IntText(patch);
    assert IntText(major) == [DigitChar(major)];
    assert IntText(minor) == [DigitChar(minor)];
    assert IntText(patch) == [DigitChar(patch)];
    assert v == "ver." + [DigitChar(major)] + "." + [DigitChar(minor)] + "." + [DigitChar(patch)];
    assert v[4] == DigitChar(major) && v[6] == DigitChar(minor) && v[8] == DigitChar(patch);
    assert v[..4] == "ver.";
  }

  /** The version `buildVersion` makes of the three values the random source holds from `d` on. */
  function DrawnVersion(faker: BaseFaker, d: nat): string {
    "ver." + IntText(faker.ints(d) % 2) + "." + IntText(faker.ints(d + 1) % 2) + "."
    + IntText(faker.ints(d + 2) % 6)
  }

  /** `buildVersion()`: three numbers drawn in [0, 2), [0, 2) and [0, 6), formatted. */
  method BuildVersion(faker: BaseFaker) returns (version: string)
    modifies faker
    ensures version == DrawnVersion(faker, old(faker.draws))
    ensures WellFormedVersion(version)
    ensures faker.draws == old(faker.draws) + 3
  {
    ghost var d := faker.draws;
    var major := faker.NextInt(2);
    var minor := faker.NextInt(2);
    var patch := faker.NextInt(6);
    var text := Format(VERSION_FORMAT, [IntArg(major as int), IntArg(minor as int), IntArg(patch as int)]);
    assert text == Ok(DrawnVersion(faker, d)) by {
      VersionFormatText(major as int, minor as int, patch as int);
    }
    assert WellFormedVersion(DrawnVersion(faker, d)) by {
      VersionLayout(major as int, minor as int, patch as int);
    }
    version := text.value;
  }

  // ---------------------------------------------------------------------------------------------
  // Device ids

  /**
   * `buildDeviceId(workerId, deviceModelId, deviceNumber)`: "D", then the three parts separated
   * by dashes (`null` shows as "null"). BuildDeviceIdFormat proves this is what DEVICE_FORMAT
   * prints.
   */
  function BuildDeviceId(workerId: JString, deviceModelId: JString, deviceNumber: JString): string {
    "D" + Text(workerId) + "-" + Text(deviceModelId) + "-" + Text(deviceNumber)
  }

  /** `String.format(DEVICE_FORMAT, ...)` never fails on strings and prints BuildDeviceId. */
  lemma BuildDeviceIdFormat(workerId: JString, deviceModelId: JString, deviceNumber: JString)
    ensures Format(DEVICE_FORMAT, [ArgOf(workerId), ArgOf(deviceModelId), ArgOf(deviceNumber)])
         == Ok(BuildDeviceId(workerId, deviceModelId, deviceNumber))
  {
    DeviceFormatText(ArgOf(workerId), ArgOf(deviceModelId), ArgOf(deviceNumber));
    assert ArgText(ArgOf(workerId)) == Text(workerId);
    assert ArgText(ArgOf(deviceModelId)) == Text(deviceModelId);
    assert ArgText(ArgOf(deviceNumber)) == Text(deviceNumber);
  }

  /** The text before the first dash. */
  function BeforeDash(s: string): string {
    if s == [] || s[0] == '-' then [] else [s[0]] + BeforeDash(s[1..])
  }

  /** The text after the first dash. */
  function AfterDash(s: string): string {
    if s == [] then [] else if s[0] == '-' then s[1..] else AfterDash(s[1..])
  }

  lemma {:induction false} SplitAtFirstDash(a: string, b: string)
    requires '-' !in a
    ensures BeforeDash(a + "-" + b) == a && AfterDash(a + "-" + b) == b
    decreases |a|
  {
    var s := a + "-" + b;
    if a == [] {
      assert s[0] == '-' && s[1..] == b;
    } else {
      assert s[0] == a[0] && s[1..] == a[1..] + "-" + b;
      SplitAtFirstDash(a[1..], b);
      assert [a[0]] + a[1..] == a;
    }
  }

  /** The worker id, the model id and the serial segment of a device id. */
  function DeviceIdParts(id: string): (string, string, string) {
    var rest := if id == [] then [] else id[1..];
    (BeforeDash(rest), BeforeDash(AfterDash(rest)), AfterDash(AfterDash(rest)))
  }

  /**
   * A device id names its worker, its model and its serial: when neither the worker id nor the
   * model id contains a dash, the three parts are recovered from the id.
   */
  lemma DeviceIdRoundTrip(workerId: JString, deviceModelId: JString, deviceNumber: JString)
    requires '-' !in Text(workerId) && '-' !in Text(deviceModelId)
    ensures DeviceIdParts(BuildDeviceId(workerId, deviceModelId, deviceNumber))
         == (Text(workerId), Text(deviceModelId), Text(deviceNumber))
  {
    var w, m, n := Text(workerId), Text(deviceModelId), Text(deviceNumber);
    var id := BuildDeviceId(workerId, deviceModelId, deviceNumber);
    assert id[1..] == w + "-" + (m + "-" + n);
    SplitAtFirstDash(w, m + "-" + n);
    SplitAtFirstDash(m, n);
  }

  // ---------------------------------------------------------------------------------------------
  // Generated models

  /**
   * `m` is the model `createDeviceMode` makes with id `id` from the values the random source
   * holds from `d` on: a brand name, three version numbers and two JSON documents.
   */
  ghost predicate IsDrawnModel(m: DeviceModel, id: string, faker: BaseFaker, d: nat)
    reads m
  {
    && m.deviceModelId == NonNull(id)
    && m.deviceType == NonNull(faker.texts(d))
    && m.version == NonNull(DrawnVersion(faker, d + 1))
    && m.deviceData == NonNull(faker.texts(d + 4))
    && m.sensorMetadata == NonNull(faker.texts(d + 5))
  }

  /**
   * `pool` is what `models(|pool|)` generates from the random source's values from `d` on:
   * the i-th model (0-based) has id "M" and i + 1 zero-padded to 8 digits, and no model
   * object occurs twice.
   */
  ghost predicate IsGeneratedPool(pool: seq<DeviceModel>, faker: BaseFaker, d: nat)
    reads pool
  {
    && (forall i :: 0 <= i < |pool| ==>
          IsDrawnModel(pool[i], "M" + ZeroPad(i + 1, 8), faker, d + DRAWS_PER_MODEL * i))
    && (forall i, j :: 0 <= i < j < |pool| ==> pool[i] != pool[j])
  }

  /** A pool grows by the next generated model: model `n` = |pool| + 1, drawn from position `e`. */
  lemma PoolExtend(pool: seq<DeviceModel>, m: DeviceModel, faker: BaseFaker, d: nat, n: nat, e: nat)
    requires IsGeneratedPool(pool, faker, d)
    requires n == |pool| + 1 && e == d + DRAWS_PER_MODEL * |pool|
    requires IsDrawnModel(m, "M" + ZeroPad(n, 8), faker, e)
    requires m !in pool
    ensures IsGeneratedPool(pool + [m], faker, d)
  {
    var q := pool + [m];
    forall i | 0 <= i < |q|
      ensures IsDrawnModel(q[i], "M" + ZeroPad(i + 1, 8), faker, d + DRAWS_PER_MODEL * i)
    {
      if i < |pool| {
        assert q[i] == pool[i];
      }
    }
  }

  /** The model ids of a generated pool are pairwise distinct. */
  lemma GeneratedIdsDistinct(pool: seq<DeviceModel>, faker: BaseFaker, d: nat, i: nat, j: nat)
    requires IsGeneratedPool(pool, faker, d)
    requires i < |pool| && j < |pool| && i != j
    ensures pool[i].deviceModelId != pool[j].deviceModelId
  {
    assert pool[i].deviceModelId == NonNull("M" + ZeroPad(i + 1, 8)) by {
      assert IsDrawnModel(pool[i], "M" + ZeroPad(i + 1, 8), faker, d + DRAWS_PER_MODEL * i);
    }
    assert pool[j].deviceModelId == NonNull("M" + ZeroPad(j + 1, 8)) by {
      assert IsDrawnModel(pool[j], "M" + ZeroPad(j + 1, 8), faker, d + DRAWS_PER_MODEL * j);
    }
    ModelIdsDistinct(i + 1, j + 1);
  }

  /** Every model of a generated pool has a well-formed version. */
  lemma GeneratedVersionsWellFormed(pool: seq<DeviceModel>, faker: BaseFaker, d: nat, i: nat)
    requires IsGeneratedPool(pool, faker, d)
    requires i < |pool|
    ensures pool[i].version.NonNull? && WellFormedVersion(pool[i].version.value)
  {
    var e := d + DRAWS_PER_MODEL * i + 1;
    assert pool[i].version == NonNull(DrawnVersion(faker, e)) by {
      assert IsDrawnModel(pool[i], "M" + ZeroPad(i + 1, 8), faker, d + DRAWS_PER_MODEL * i);
    }
    DrawnVersionWellFormed(faker, e);
  }

  /** Every version drawn from the random source is well formed. */
  lemma DrawnVersionWellFormed(faker: BaseFaker, e: nat)
    ensures WellFormedVersion(DrawnVersion(faker, e))
  {
    VersionLayout(faker.ints(e) % 2, faker.ints(e + 1) % 2, faker.ints(e + 2) % 6);
  }

  /** `createDeviceMode(index, modelFormat)`. */
  method CreateDeviceModel(index: int32, modelFormat: string, faker: BaseFaker) returns (r: Result<DeviceModel>)
    modifies faker
    ensures var f := Format(modelFormat, [IntArg(index as int)]);
      && (f.Err? ==> r == Err(f.exception) && faker.draws == old(faker.draws))
      && (f.Ok? ==> r.Ok? && fresh(r.value) && faker.draws == old(faker.draws) + DRAWS_PER_MODEL
                    && IsDrawnModel(r.value, f.value, faker, old(faker.draws)))
  {
    var id := Format(modelFormat, [IntArg(index as int)]);
    if id.Err? {
      return Err(id.exception);
    }
    var brand := faker.Car();
    var version := BuildVersion(faker);
    var data := faker.Generate(DataSchema);
    var metadata := faker.Generate(MetadataSchema);
    var model := new DeviceModel();
    model.SetDeviceModelId(NonNull(id.value));
    model.SetDeviceType(NonNull(brand));
    model.SetVersion(NonNull(version));
    model.SetDeviceData(NonNull(data));
    model.SetSensorMetadata(NonNull(metadata));
    r := Ok(model);
  }

  // ---------------------------------------------------------------------------------------------
  // Records

  /** A record carries its model's type, version, device data and sensor metadata. */
  ghost predicate CopiesModel(rec: DeviceRecord, m: DeviceModel)
    reads rec, m
  {
    && rec.deviceType == m.deviceType && rec.version == m.version
    && rec.deviceData == m.deviceData && rec.sensorMetadata == m.sensorMetadata
  }

  /** The distinct device types of a pool. */
  function PoolTypes(pool: seq<DeviceModel>): set<JString>
    reads pool
  {
    set k | 0 <= k < |pool| :: pool[k].deviceType
  }

  /** A pool of n models has at most n distinct device types. */
  lemma {:induction false} PoolTypesBound(pool: seq<DeviceModel>)
    ensures |PoolTypes(pool)| <= |pool|
    decreases |pool|
  {
    if pool != [] {
      var init := pool[..|pool| - 1];
      PoolTypesBound(init);
      assert PoolTypes(pool) == PoolTypes(init) + {pool[|pool| - 1].deviceType} by {
        forall t | t in PoolTypes(pool) ensures t in PoolTypes(init) + {pool[|pool| - 1].deviceType} {
          var k :| 0 <= k < |pool| && pool[k].deviceType == t;
          if k < |pool| - 1 {
            assert init[k] == pool[k];
          }
        }
        forall t | t in PoolTypes(init) ensures t in PoolTypes(pool) {
          var k :| 0 <= k < |init| && init[k].deviceType == t;
          assert pool[k] == init[k];
        }
      }
    }
  }

  class DeviceRecordFactory {
    const workerId: string
    const modelList: seq<DeviceModel>
    const deviceNumber: int32
    const numberFormat: string

    /** What `build()` guarantees: a non-empty pool and a positive device number. */
    ghost predicate Valid() {
      0 < |modelList| <= INT32_MAX && deviceNumber > 0
    }

    constructor (workerId: string, modelList: seq<DeviceModel>, deviceNumber: int32, numberFormat: string)
      ensures this.workerId == workerId && this.modelList == modelList
      ensures this.deviceNumber == deviceNumber && this.numberFormat == numberFormat
    {
      this.workerId, this.modelList := workerId, modelList;
      this.deviceNumber, this.numberFormat := deviceNumber, numberFormat;
    }

    /**
     * `newRecord()`. It draws a pool index in [0, |modelList|) and a serial in
     * [0, deviceNumber); when `numberFormat` cannot format the serial it throws, otherwise it
     * draws a retry count in [0, 5), a timestamp and the sensor data, and returns a fresh record
     * that copies the static fields of the model at that index. It changes no model and no
     * field of the factory.
     */
    method NewRecord(faker: BaseFaker) returns (r: Result<DeviceRecord>)
      requires Valid()
      modifies faker
      ensures var d := old(faker.draws);
        var model := modelList[faker.ints(d) % |modelList|];
        var serial := faker.ints(d + 1) % deviceNumber as int;
        var f := Format(numberFormat, [IntArg(serial)]);
        && (f.Err? ==> r == Err(f.exception) && faker.draws == d + 2)
        && (f.Ok? ==>
          && r.Ok? && fresh(r.value) && faker.draws == d + 5
          && r.value.deviceId == NonNull(BuildDeviceId(NonNull(workerId), model.deviceModelId, NonNull(f.value)))
          && CopiesModel(r.value, model)
          && r.value.retry as int == faker.ints(d + 2) % 5
          && r.value.timestamp == NonNull(faker.dates(d + 3))
          && r.value.sensorData == NonNull(faker.texts(d + 4)))
      ensures r.Ok? ==> exists k :: 0 <= k < |modelList| && CopiesModel(r.value, modelList[k])
      ensures r.Ok? ==> 0 <= r.value.retry < 5
      ensures numberFormat == DEVICE_NUMBER_FORMAT ==> r.Ok?
    {
      var index := faker.NextInt(|modelList| as int32);
      var model := modelList[index];
      var serial := faker.NextInt(deviceNumber);
      if numberFormat == DEVICE_NUMBER_FORMAT {
        DeviceNumberFormatText(serial as int);
      }
      var serialText := Format(numberFormat, [IntArg(serial as int)]);
      if serialText.Err? {
        return Err(serialText.exception);
      }
      var deviceId := BuildDeviceId(NonNull(workerId), model.DeviceModelId(), NonNull(serialText.value));
      var record := FillRecord(model, deviceId, faker);
      r := Ok(record);
    }
  }

  /**
   * The part of `newRecord()` after the device id is known: a fresh record that copies `model`
   * and carries a retry count, a timestamp and sensor data drawn in that order.
   */
  method FillRecord(model: DeviceModel, deviceId: string, faker: BaseFaker) returns (record: DeviceRecord)
    modifies faker
    ensures fresh(record) && faker.draws == old(faker.draws) + 3
    ensures record.deviceId == NonNull(deviceId) && CopiesModel(record, model)
    ensures record.retry as int == faker.ints(old(faker.draws)) % 5
    ensures record.timestamp == NonNull(faker.dates(old(faker.draws) + 1))
    ensures record.sensorData == NonNull(faker.texts(old(faker.draws) + 2))
  {
    var retry := faker.NextInt(5);
    var timestamp := faker.Past(5, Hours);
    var sensorData := faker.Generate(SensorSchema);
    record := new DeviceRecord();
    record.SetDeviceId(NonNull(deviceId));
    record.SetDeviceType(model.DeviceType());
    record.SetVersion(model.Version());
    record.SetRetry(retry);
    record.SetTimestamp(NonNull(timestamp));
    record.SetDeviceData(model.DeviceData());
    record.SetSensorMetadata(model.SensorMetadata());
    record.SetSensorData(NonNull(sensorData));
  }

  /** `createDeviceMode(index, MODEL_FORMAT)`, which cannot fail: the id is "M" and the index zero-padded to 8 digits. */
  method CreateNumberedModel(index: int32, faker: BaseFaker) returns (model: DeviceModel)
    requires index >= 0
    modifies faker
    ensures fresh(model) && faker.draws == old(faker.draws) + DRAWS_PER_MODEL
    ensures IsDrawnModel(model, "M" + ZeroPad(index as int, 8), faker, old(faker.draws))
  {
    ModelFormatText(index as int);
    var r := CreateDeviceModel(index, MODEL_FORMAT, faker);
    model := r.value;
  }

  /** The loop of `models(length)`: models 1 to `length`, each created with MODEL_FORMAT, in order. */
  method GeneratePool(length: int32, faker: BaseFaker) returns (pool: seq<DeviceModel>)
    requires length > 0
    modifies faker
    ensures |pool| == length as int
    ensures IsGeneratedPool(pool, faker, old(faker.draws))
    ensures faker.draws == old(faker.draws) + DRAWS_PER_MODEL * length as int
  {
    pool := [];
    var i: int32 := 0;
    while i < length
      invariant 0 <= i <= length && |pool| == i as int
      invariant IsGeneratedPool(pool, faker, old(faker.draws))
      invariant faker.draws == old(faker.draws) + DRAWS_PER_MODEL * i as int
    {
      ghost var e := faker.draws;
      var model := CreateNumberedModel(i + 1, faker);
      PoolExtend(pool, model, faker, old(faker.draws), (i + 1) as int, e);
      pool := pool + [model];
      i := i + 1;
    }
  }

  // ---------------------------------------------------------------------------------------------
  // The builder

  /**
   * `DeviceRecordFactoryBuilder`. A rejected call throws and leaves the builder as it was;
   * `build()` fills in whatever was not set and creates the factory.
   */
  class DeviceRecordFactoryBuilder {
    var workerId: JString
    var modelList: Nullable<seq<DeviceModel>>
    var deviceNumber: int32
    var numberFormat: JString

    /** A Java list holds at most `Integer.MAX_VALUE` elements. */
    ghost predicate Valid()
      reads this
    {
      modelList.NonNull? ==> |modelList.value| <= INT32_MAX
    }

    /** `DeviceRecordFactory.builder()`: nothing is set. */
    constructor ()
      ensures Valid()
      ensures workerId == Null && modelList == Null && deviceNumber == 0 && numberFormat == Null
    {
      workerId, modelList, deviceNumber, numberFormat := Null, Null, 0, Null;
    }

    /** `workerId(workerId)`: stored without a check. */
    method WorkerId(id: JString)
      requires Valid()
      modifies this
      ensures Valid()
      ensures workerId == id
      ensures modelList == old(modelList) && deviceNumber == old(deviceNumber)
      ensures numberFormat == old(numberFormat)
    {
      workerId := id;
    }

    /** `modelList(list)`: a missing or empty list is rejected. */
    method ModelList(list: Nullable<seq<DeviceModel>>) returns (o: Outcome)
      requires Valid()
      requires list.NonNull? ==> |list.value| <= INT32_MAX
      modifies this
      ensures Valid()
      ensures o.Fail? <==> list.Null? || |list.value| == 0
      ensures o.Fail? ==> o == Fail(IllegalArgument(MODEL_SIZE_MESSAGE)) && modelList == old(modelList)
      ensures o.Pass? ==> modelList == list
      ensures workerId == old(workerId) && deviceNumber == old(deviceNumber)
      ensures numberFormat == old(numberFormat)
    {
      if list.Null? || |list.value| == 0 {
        return Fail(IllegalArgument(MODEL_SIZE_MESSAGE));
      }
      modelList := list;
      o := Pass;
    }

    /**
     * `models(length)`: a non-positive length is rejected; otherwise `length` new models with ids
     * "M00000001", "M00000002", ... are generated, in order, and become the pool.
     */
    method Models(length: int32, faker: BaseFaker) returns (o: Outcome)
      requires Valid()
      modifies this, faker
      ensures Valid()
      ensures o.Fail? <==> length <= 0
      ensures o.Fail? ==>
        o == Fail(IllegalArgument(MODEL_SIZE_MESSAGE)) && modelList == old(modelList) && faker.draws == old(faker.draws)
      ensures o.Pass? ==>
        && modelList.NonNull? && |modelList.value| == length as int
        && IsGeneratedPool(modelList.value, faker, old(faker.draws))
        && faker.draws == old(faker.draws) + DRAWS_PER_MODEL * length as int
      ensures workerId == old(workerId) && deviceNumber == old(deviceNumber)
      ensures numberFormat == old(numberFormat)
    {
      if length <= 0 {
        return Fail(IllegalArgument(MODEL_SIZE_MESSAGE));
      }
      modelList := NonNull([]);
      var pool := GeneratePool(length, faker);
      o := ModelList(NonNull(pool));
    }

    /** `deviceNumber(number)`: a non-positive number is rejected. */
    method DeviceNumber(number: int32) returns (o: Outcome)
      requires Valid()
      modifies this
      ensures Valid()
      ensures o.Fail? <==> number <= 0
      ensures o.Fail? ==> o == Fail(IllegalArgument(DEVICE_NUMBER_MESSAGE)) && deviceNumber == old(deviceNumber)
      ensures o.Pass? ==> deviceNumber == number
      ensures workerId == old(workerId) && modelList == old(modelList)
      ensures numberFormat == old(numberFormat)
    {
      if number <= 0 {
        return Fail(IllegalArgument(DEVICE_NUMBER_MESSAGE));
      }
      deviceNumber := number;
      o := Pass;
    }

    /** `deviceNumberFormat(format)`: stored without a check. */
    method DeviceNumberFormat(format: JString)
      requires Valid()
      modifies this
      ensures Valid()
      ensures numberFormat == format
      ensures workerId == old(workerId) && modelList == old(modelList)
      ensures deviceNumber == old(deviceNumber)
    {
      numberFormat := format;
    }

    /**
     * `build()`: a missing or empty pool becomes DEFAULT_MODEL_NUMBER generated models, a
     * missing worker id DEFAULT_WORKER_ID, a non-positive device number DEFAULT_DEVICE_NUMBER,
     * and a missing or empty serial format DEVICE_NUMBER_FORMAT; what was set is kept. The
     * factory always satisfies its invariant.
     */
    method Build(faker: BaseFaker) returns (factory: DeviceRecordFactory)
      requires Valid()
      modifies this, faker
      ensures Valid()
      ensures fresh(factory) && factory.Valid()
      ensures factory.workerId == (if old(workerId).Null? then DEFAULT_WORKER_ID else old(workerId).value)
      ensures factory.deviceNumber == (if old(deviceNumber) <= 0 then DEFAULT_DEVICE_NUMBER else old(deviceNumber))
      ensures factory.numberFormat
           == (if old(numberFormat).Null? || old(numberFormat).value == "" then DEVICE_NUMBER_FORMAT
               else old(numberFormat).value)
      ensures old(modelList).NonNull? && |old(modelList).value| > 0 ==>
        factory.modelList == old(modelList).value && faker.draws == old(faker.draws)
      ensures old(modelList).Null? || |old(modelList).value| == 0 ==>
        && |factory.modelList| == DEFAULT_MODEL_NUMBER as int
        && IsGeneratedPool(factory.modelList, faker, old(faker.draws))
        && faker.draws == old(faker.draws) + DRAWS_PER_MODEL * DEFAULT_MODEL_NUMBER as int
      ensures workerId == NonNull(factory.workerId) && modelList == NonNull(factory.modelList)
      ensures deviceNumber == factory.deviceNumber && numberFormat == NonNull(factory.numberFormat)
    {
      if modelList.Null? || |modelList.value| == 0 {
        var _ := Models(DEFAULT_MODEL_NUMBER, faker);
      }
      ApplyDefaults();
      factory := new DeviceRecordFactory(workerId.value, modelList.value, deviceNumber, numberFormat.value);
    }

    /** The defaults `build()` applies after the pool: worker id, device number, serial format. */
    method ApplyDefaults()
      requires Valid()
      modifies this
      ensures Valid() && modelList == old(modelList)
      ensures workerId == NonNull(if old(workerId).Null? then DEFAULT_WORKER_ID else old(workerId).value)
      ensures deviceNumber == (if old(deviceNumber) <= 0 then DEFAULT_DEVICE_NUMBER else old(deviceNumber))
      ensures numberFormat
           == NonNull(if old(numberFormat).Null? || old(numberFormat).value == "" then DEVICE_NUMBER_FORMAT
                      else old(numberFormat).value)
    {
      if workerId.Null? {
        WorkerId(NonNull(DEFAULT_WORKER_ID));
      }
      if deviceNumber <= 0 {
        var _ := DeviceNumber(DEFAULT_DEVICE_NUMBER);
      }
      if numberFormat.Null? || numberFormat.value == "" {
        DeviceNumberFormat(NonNull(DEVICE_NUMBER_FORMAT));
      }
    }
  }

  /**
   * Under the default serial format the device id is "D", the worker id, "-", the model id, "-",
   * then "S" and the serial zero-padded to 8 digits.
   */
  lemma DefaultDeviceIdText(workerId: string, deviceModelId: JString, serial: int)
    requires serial >= 0
    ensures Format(DEVICE_NUMBER_FORMAT, [IntArg(serial)]).Ok?
    ensures BuildDeviceId(NonNull(workerId), deviceModelId, NonNull(Format(DEVICE_NUMBER_FORMAT, [IntArg(serial)]).value))
         == "D" + workerId + "-" + Text(deviceModelId) + "-S" + ZeroPad(serial, 8)
  {
    DeviceNumberFormatText(serial);
    SerialDeviceId(workerId, deviceModelId, ZeroPad(serial, 8));
  }

  lemma SerialDeviceId(workerId: string, deviceModelId: JString, digits: string)
    ensures BuildDeviceId(NonNull(workerId), deviceModelId, NonNull("S" + digits))
         == "D" + workerId + "-" + Text(deviceModelId) + "-S" + digits
  {
    var t := "D" + workerId + "-" + Text(deviceModelId) + "-";
    assert t + ("S" + digits) == t + "S" + digits;
  }

  /**
   * The loop of the factory test: `count` calls of `newRecord`, collecting the device types and
   * the device ids. However many records it draws, it sees at most one type per model.
   */
  method SampleDeviceTypes(factory: DeviceRecordFactory, faker: BaseFaker, count: nat)
    returns (typeSet: set<JString>, idSet: set<JString>)
    requires factory.Valid()
    modifies faker
    ensures typeSet <= PoolTypes(factory.modelList)
    ensures |typeSet| <= |factory.modelList|
  {
    typeSet, idSet := {}, {};
    var i := 0;
    while i < count
      invariant typeSet <= PoolTypes(factory.modelList)
    {
      var r := factory.NewRecord(faker);
      if r.Err? {
        break;
      }
      typeSet := typeSet + {r.value.DeviceType()};
      idSet := idSet + {r.value.DeviceId()};
      i := i + 1;
    }
    PoolTypesBound(factory.modelList);
    SubsetCardinality(typeSet, PoolTypes(factory.modelList));
  }

  lemma SubsetCardinality<T>(a: set<T>, b: set<T>)
    requires a <= b
    ensures |a| <= |b|
  {
    assert b == a + (b - a);
  }
}
