/**
 * The two plain data classes of the data maker. Their fields hold Java references, so each may be
 * `null`; the setters store what they are given without any check, and every other field
 * keeps its value.
 */
module Model {
  import opened Java
  import opened Formatter

  /** One device model: a template whose static fields are copied into records. */
  class DeviceModel {
    var deviceModelId: JString
    var deviceType: JString
    var version: JString
    /** A JSON document. */
    var deviceData: JString
    /** A JSON document. */
    var sensorMetadata: JString

    constructor ()
      ensures deviceModelId == Null && deviceType == Null && version == Null
      ensures deviceData == Null && sensorMetadata == Null
    {
      deviceModelId, deviceType, version := Null, Null, Null;
      deviceData, sensorMetadata := Null, Null;
    }

    function DeviceModelId(): JString reads this { deviceModelId }
    function DeviceType(): JString reads this { deviceType }
    function Version(): JString reads this { version }
    function DeviceData(): JString reads this { deviceData }
    function SensorMetadata(): JString reads this { sensorMetadata }

    method SetDeviceModelId(v: JString)
      modifies this
      ensures deviceModelId == v
      ensures deviceType == old(deviceType) && version == old(version)
        && deviceData == old(deviceData) && sensorMetadata == old(sensorMetadata)
    {
      deviceModelId := v;
    }

    method SetDeviceType(v: JString)
      modifies this
      ensures deviceType == v
      ensures deviceModelId == old(deviceModelId) && version == old(version)
        && deviceData == old(deviceData) && sensorMetadata == old(sensorMetadata)
    {
      deviceType := v;
    }

    method SetVersion(v: JString)
      modifies this
      ensures version == v
      ensures deviceModelId == old(deviceModelId) && deviceType == old(deviceType)
        && deviceData == old(deviceData) && sensorMetadata == old(sensorMetadata)
    {
      version := v;
    }

    method SetDeviceData(v: JString)
      modifies this
      ensures deviceData == v
      ensures deviceModelId == old(deviceModelId) && deviceType == old(deviceType)
        && version == old(version) && sensorMetadata == old(sensorMetadata)
    {
      deviceData := v;
    }

    method SetSensorMetadata(v: JString)
      modifies this
      ensures sensorMetadata == v
      ensures deviceModelId == old(deviceModelId) && deviceType == old(deviceType)
        && version == old(version) && deviceData == old(deviceData)
    {
      sensorMetadata := v;
    }
  }

  /** One field as `toString` shows it: its name, its text, and whether the text is quoted. */
  datatype Field = Field(name: string, text: string, quoted: bool)

  function FieldText(f: Field): string {
    f.name + "=" + (if f.quoted then "'" + f.text + "'" else f.text)
  }

  /** The fields' texts separated by ", ". */
  function JoinFields(fs: seq<Field>): string {
    if fs == [] then ""
    else if |fs| == 1 then FieldText(fs[0])
    else JoinFields(fs[..|fs| - 1]) + ", " + FieldText(fs[|fs| - 1])
  }

  /** One telemetry record. */
  class DeviceRecord {
    var deviceId: JString
    var deviceType: JString
    var version: JString
    var timestamp: Nullable<Date>
    var retry: int32
    /** A JSON document. */
    var deviceData: JString
    /** A JSON document. */
    var sensorData: JString
    /** A JSON document. */
    var sensorMetadata: JString

    constructor ()
      ensures deviceId == Null && deviceType == Null && version == Null && timestamp == Null
      ensures retry == 0
      ensures deviceData == Null && sensorData == Null && sensorMetadata == Null
    {
      deviceId, deviceType, version, timestamp := Null, Null, Null, Null;
      retry := 0;
      deviceData, sensorData, sensorMetadata := Null, Null, Null;
    }

    function DeviceId(): JString reads this { deviceId }
    function DeviceType(): JString reads this { deviceType }
    function Version(): JString reads this { version }
    function Timestamp(): Nullable<Date> reads this { timestamp }
    function Retry(): int32 reads this { retry }
    function DeviceData(): JString reads this { deviceData }
    function SensorData(): JString reads this { sensorData }
    function SensorMetadata(): JString reads this { sensorMetadata }

    method SetDeviceId(v: JString)
      modifies this
      ensures deviceId == v
      ensures deviceType == old(deviceType) && version == old(version)
        && timestamp == old(timestamp) && retry == old(retry) && deviceData == old(deviceData)
        && sensorData == old(sensorData) && sensorMetadata == old(sensorMetadata)
    {
      deviceId := v;
    }

    method SetDeviceType(v: JString)
      modifies this
      ensures deviceType == v
      ensures deviceId == old(deviceId) && version == old(version) && timestamp == old(timestamp)
        && retry == old(retry) && deviceData == old(deviceData) && sensorData == old(sensorData)
        && sensorMetadata == old(sensorMetadata)
    {
      deviceType := v;
    }

    method SetVersion(v: JString)
      modifies this
      ensures version == v
      ensures deviceId == old(deviceId) && deviceType == old(deviceType)
        && timestamp == old(timestamp) && retry == old(retry) && deviceData == old(deviceData)
        && sensorData == old(sensorData) && sensorMetadata == old(sensorMetadata)
    {
      version := v;
    }

    method SetTimestamp(v: Nullable<Date>)
      modifies this
      ensures timestamp == v
      ensures deviceId == old(deviceId) && deviceType == old(deviceType) && version == old(version)
        && retry == old(retry) && deviceData == old(deviceData) && sensorData == old(sensorData)
        && sensorMetadata == old(sensorMetadata)
    {
      timestamp := v;
    }

    method SetRetry(v: int32)
      modifies this
      ensures retry == v
      ensures deviceId == old(deviceId) && deviceType == old(deviceType) && version == old(version)
        && timestamp == old(timestamp) && deviceData == old(deviceData)
        && sensorData == old(sensorData) && sensorMetadata == old(sensorMetadata)
    {
      retry := v;
    }

    method SetDeviceData(v: JString)
      modifies this
      ensures deviceData == v
      ensures deviceId == old(deviceId) && deviceType == old(deviceType) && version == old(version)
        && timestamp == old(timestamp) && retry == old(retry) && sensorData == old(sensorData)
        && sensorMetadata == old(sensorMetadata)
    {
      deviceData := v;
    }

    method SetSensorData(v: JString)
      modifies this
      ensures sensorData == v
      ensures deviceId == old(deviceId) && deviceType == old(deviceType) && version == old(version)
        && timestamp == old(timestamp) && retry == old(retry) && deviceData == old(deviceData)
        && sensorMetadata == old(sensorMetadata)
    {
      sensorData := v;
    }

    method SetSensorMetadata(v: JString)
      modifies this
      ensures sensorMetadata == v
      ensures deviceId == old(deviceId) && deviceType == old(deviceType) && version == old(version)
        && timestamp == old(timestamp) && retry == old(retry) && deviceData == old(deviceData)
        && sensorData == old(sensorData)
    {
      sensorMetadata := v;
    }

    /**
     * `toString()`; `dateText` is `Date.toString`, which depends on the JVM's time zone.
     * String concatenation shows `null` as "null" and an int in decimal.
     */
    function ToString(dateText: Date -> string): string
      reads this
    {
      "DeviceRecord{"
      + "deviceId='" + Text(deviceId) + "'"
      + ", deviceType='" + Text(deviceType) + "'"
      + ", version='" + Text(version) + "'"
      + ", timestamp=" + (match timestamp case Null => "null" case NonNull(d) => dateText(d))
      + ", retry=" + IntText(retry as int)
      + ", deviceData='" + Text(deviceData) + "'"
      + ", sensorData='" + Text(sensorData) + "'"
      + ", sensorMetadata='" + Text(sensorMetadata) + "'"
      + "}"
    }

    /** The record's fields in source order, each with its `toString` text. */
    function Fields(dateText: Date -> string): seq<Field>
      reads this
    {
      [ Field("deviceId", Text(deviceId), true),
        Field("deviceType", Text(deviceType), true),
        Field("version", Text(version), true),
        Field("timestamp", match timestamp case Null => "null" case NonNull(d) => dateText(d), false),
        Field("retry", IntText(retry as int), false),
        Field("deviceData", Text(deviceData), true),
        Field("sensorData", Text(sensorData), true),
        Field("sensorMetadata", Text(sensorMetadata), true) ]
    }
  }

  /** The record's fields are listed in source order; all but timestamp and retry are quoted. */
  lemma FieldsOrder(r: DeviceRecord, dateText: Date -> string)
    ensures var fs := r.Fields(dateText);
      && |fs| == 8
      && (forall i :: 0 <= i < 8 ==> fs[i].name == ["deviceId", "deviceType", "version", "timestamp",
                                                    "retry", "deviceData", "sensorData", "sensorMetadata"][i])
      && (forall i :: 0 <= i < 8 ==> (fs[i].quoted <==> i != 3 && i != 4))
  {
  }

  lemma QuotedField(x: string, name: string, text: string, key: string)
    requires key == ", " + name + "='"
    ensures x + ", " + FieldText(Field(name, text, true)) == x + key + text + "'"
  {
  }

  lemma BareField(x: string, name: string, text: string, key: string)
    requires key == ", " + name + "="
    ensures x + ", " + FieldText(Field(name, text, false)) == x + key + text
  {
  }

  lemma JoinStep(head: string, fs: seq<Field>, k: nat)
    requires 1 <= k < |fs|
    ensures head + JoinFields(fs[..k + 1]) == head + JoinFields(fs[..k]) + ", " + FieldText(fs[k])
  {
    assert fs[..k + 1][..k] == fs[..k];
  }

  /** Appending the quoted field `k` to the text of the fields before it. */
  lemma QuotedStep(head: string, fs: seq<Field>, k: nat, acc: string, key: string)
    requires 1 <= k < |fs| && fs[k].quoted && key == ", " + fs[k].name + "='"
    requires head + JoinFields(fs[..k]) == acc
    ensures head + JoinFields(fs[..k + 1]) == acc + key + fs[k].text + "'"
  {
    JoinStep(head, fs, k);
    QuotedField(acc, fs[k].name, fs[k].text, key);
  }

  /** Appending the unquoted field `k` to the text of the fields before it. */
  lemma BareStep(head: string, fs: seq<Field>, k: nat, acc: string, key: string)
    requires 1 <= k < |fs| && !fs[k].quoted && key == ", " + fs[k].name + "="
    requires head + JoinFields(fs[..k]) == acc
    ensures head + JoinFields(fs[..k + 1]) == acc + key + fs[k].text
  {
    JoinStep(head, fs, k);
    BareField(acc, fs[k].name, fs[k].text, key);
  }

  /** The separators `toString` writes before the fields after the first. */
  lemma FieldKeys()
    ensures ", deviceType='" == ", " + "deviceType" + "='"
    ensures ", version='" == ", " + "version" + "='"
    ensures ", timestamp=" == ", " + "timestamp" + "="
    ensures ", retry=" == ", " + "retry" + "="
    ensures ", deviceData='" == ", " + "deviceData" + "='"
    ensures ", sensorData='" == ", " + "sensorData" + "='"
    ensures ", sensorMetadata='" == ", " + "sensorMetadata" + "='"
  {
  }

  /**
   * `toString` is the generic rendering of `Fields`: `name=text` pairs separated by ", ",
   * within "DeviceRecord{" and "}".
   */
  lemma ToStringLayout(r: DeviceRecord, dateText: Date -> string)
    ensures r.ToString(dateText) == "DeviceRecord{" + JoinFields(r.Fields(dateText)) + "}"
  {
    var fs := r.Fields(dateText);
    var head := "DeviceRecord{";
    FieldKeys();
    assert fs[..1] == [fs[0]];
    var s1 := head + "deviceId='" + fs[0].text + "'";
    assert head + JoinFields(fs[..1]) == s1;
    var s2 := s1 + ", deviceType='" + fs[1].text + "'";
    QuotedStep(head, fs, 1, s1, ", deviceType='");
    var s3 := s2 + ", version='" + fs[2].text + "'";
    QuotedStep(head, fs, 2, s2, ", version='");
    var s4 := s3 + ", timestamp=" + fs[3].text;
    BareStep(head, fs, 3, s3, ", timestamp=");
    var s5 := s4 + ", retry=" + fs[4].text;
    BareStep(head, fs, 4, s4, ", retry=");
    var s6 := s5 + ", deviceData='" + fs[5].text + "'";
    QuotedStep(head, fs, 5, s5, ", deviceData='");
    var s7 := s6 + ", sensorData='" + fs[6].text + "'";
    QuotedStep(head, fs, 6, s6, ", sensorData='");
    var s8 := s7 + ", sensorMetadata='" + fs[7].text + "'";
    QuotedStep(head, fs, 7, s7, ", sensorMetadata='");
    assert fs[..8] == fs;
  }
}
