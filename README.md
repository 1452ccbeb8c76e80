# data-maker: a verified model of the record factory and its driver

The data maker generates synthetic IoT telemetry. A `DeviceRecordFactory` builds a pool of
device models with sequential ids, then makes one `DeviceRecord` per call by sampling a model
from the pool, copying its static fields and adding a device id, a retry count, a timestamp and
sensor data. The `DataMaker` driver holds guarded run `Options`. It derives a zero-padded worker
id from them, chooses the factory by class name, wires the options into the factory's builder
and loops making records.

This Dafny project models that core and proves its properties. It has seven modules, one file each:

- `Java` (`java.dfy`): Java's 32-bit `int`, `null`-able references, `Date`, `TimeUnit` and the
  thrown exceptions. A throwing call returns a `Result`, or an `Outcome` for a `void` call.
- `Decimal` (`decimal.dfy`): decimal digits, zero padding and an integer `log10`.
- `Formatter` (`formatter.dfy`): the part of `String.format` the core uses:
  - literal text;
  - `%[0][width]d`, `%[width]s` and `%%`;
  - every other or malformed specifier raises `IllegalFormat`.

  Every `String.format` call of the core goes through it. Lemmas work out what each of the
  source's format constants prints.
- `DataFaker` (`data_faker.dfy`): the shared `BaseFaker` as an explicit random source. It is a
  class with three fixed, arbitrary streams (integers, strings, dates) and a counter of the
  calls made on it. One call stands for one library call (`nextInt`, `car`, `past`, `generate`);
  a generated JSON document takes a single call, however much randomness it uses inside. `NextInt(n)` returns a value in `[0, n)`. Brand names, JSON payloads and dates
  are arbitrary values, so what is proved holds for every run.
- `Model` (`model.dfy`): the mutable classes `DeviceModel` and `DeviceRecord`. Their setters
  change one field each. `DeviceRecord.toString` is proved equal to a generic `name=value`
  rendering of its fields.
- `RecordFactory` (`device_record_factory.dfy`): the builder, which checks and defaults its
  settings and generates the pool; `createDeviceMode`, `buildVersion`, `buildDeviceId`; the
  factory and its `newRecord`.
- `DataMaker` (`data_maker.dfy`): `Options`, the worker id, `needLoop`, `initInternal`,
  `buildDeviceRecordFactory`, the constructor and the record loop `run`.

Three facts about the code shape the model:

- The worker-id width is `(int) Math.log10(workerNumber) + 1` (1 below 10 workers). That is the
  digit count of `workerNumber`: 10 workers give width 2.
- Options are checked by their setters, one setter at a time.
- `buildDeviceRecordFactory` calls `models(modelNumber)` and `deviceNumber(deviceNumber)`
  directly. An unset (0) or negative model or device number therefore throws; it does not fall
  back to the defaults 10 and 1000.

The Options getters and the model classes' getters are functions that read their field. The
setters' contracts state that the last value set is the value read, and that every other field
is unchanged.

## Model

| member | source | states |
|---|---|---|
| Decimal.ZeroPadValue | data-maker/src/main/java/ping/coder/dba/datamaker/record/DeviceRecordFactory.java:60 | a zero-padded number is all digits, reads back as the number, and is as wide as the width or its own digits, whichever is more |
| Decimal.ZeroPadLayout | data-maker/src/main/java/ping/coder/dba/datamaker/record/DeviceRecordFactory.java:60 | the padded text ends with the number's digits and has only zeros before them |
| Decimal.ZeroPadInjective | data-maker/src/main/java/ping/coder/dba/datamaker/record/DeviceRecordFactory.java:60 | zero padding never truncates: equal padded texts come from equal numbers |
| Decimal.ZeroPadExactWidth | data-maker/src/main/java/ping/coder/dba/datamaker/record/DeviceRecordFactory.java:60-61 | a number below 10^width is padded to exactly `width` characters |
| Formatter.FormatLiteral | data-maker/src/main/java/ping/coder/dba/datamaker/record/DeviceRecordFactory.java:59-62 | `String.format` copies text without `%` unchanged before formatting the rest |
| Formatter.FormatDecimal | data-maker/src/main/java/ping/coder/dba/datamaker/record/DeviceRecordFactory.java:62 | `%d` prints the decimal text of the next int argument and moves to the next argument |
| Formatter.FormatString | data-maker/src/main/java/ping/coder/dba/datamaker/record/DeviceRecordFactory.java:59 | `%s` prints `String.valueOf` of the next argument (`null` as "null") |
| Formatter.FormatZeroPadded | data-maker/src/main/java/ping/coder/dba/datamaker/DataMaker.java:150 | `%0<width>d`, with the width written in decimal, zero-pads the next int argument to that width |
| DataFaker.BaseFaker.NextInt | data-maker/src/main/java/ping/coder/dba/datamaker/record/DeviceRecordFactory.java:81 | `random().nextInt(n)` needs `n > 0`, returns a value in `[0, n)` and advances the source by one call |
| DataFaker.BaseFaker.Car | data-maker/src/main/java/ping/coder/dba/datamaker/record/DeviceRecordFactory.java:97 | a brand name is the source's next string, one call |
| DataFaker.BaseFaker.Past | data-maker/src/main/java/ping/coder/dba/datamaker/record/DeviceRecordFactory.java:87 | a past date is the source's next date, one call |
| DataFaker.BaseFaker.Generate | data-maker/src/main/java/ping/coder/dba/datamaker/record/DeviceRecordFactory.java:90 | a generated JSON document is the source's next string, one call |
| Model.DeviceModel.constructor | data-maker/src/main/java/ping/coder/dba/datamaker/model/DeviceModel.java:24-35 | a new model has all five fields `null` |
| Model.DeviceModel.SetDeviceModelId | data-maker/src/main/java/ping/coder/dba/datamaker/model/DeviceModel.java:37-43 | stores any value, `null` included, and leaves the other four fields unchanged |
| Model.DeviceModel.SetDeviceType | data-maker/src/main/java/ping/coder/dba/datamaker/model/DeviceModel.java:45-51 | stores any value and leaves the other four fields unchanged |
| Model.DeviceModel.SetVersion | data-maker/src/main/java/ping/coder/dba/datamaker/model/DeviceModel.java:53-59 | stores any value and leaves the other four fields unchanged |
| Model.DeviceModel.SetDeviceData | data-maker/src/main/java/ping/coder/dba/datamaker/model/DeviceModel.java:61-67 | stores any value and leaves the other four fields unchanged |
| Model.DeviceModel.SetSensorMetadata | data-maker/src/main/java/ping/coder/dba/datamaker/model/DeviceModel.java:69-75 | stores any value and leaves the other four fields unchanged |
| Model.DeviceRecord.constructor | data-maker/src/main/java/ping/coder/dba/datamaker/model/DeviceRecord.java:28-49 | a new record has `null` strings, a `null` timestamp and a retry count of 0 |
| Model.DeviceRecord.SetDeviceId | data-maker/src/main/java/ping/coder/dba/datamaker/model/DeviceRecord.java:51-57 | stores any value and leaves the other seven fields unchanged |
| Model.DeviceRecord.SetDeviceType | data-maker/src/main/java/ping/coder/dba/datamaker/model/DeviceRecord.java:59-65 | stores any value and leaves the other seven fields unchanged |
| Model.DeviceRecord.SetVersion | data-maker/src/main/java/ping/coder/dba/datamaker/model/DeviceRecord.java:67-73 | stores any value and leaves the other seven fields unchanged |
| Model.DeviceRecord.SetTimestamp | data-maker/src/main/java/ping/coder/dba/datamaker/model/DeviceRecord.java:75-81 | stores any date or `null` and leaves the other seven fields unchanged |
| Model.DeviceRecord.SetRetry | data-maker/src/main/java/ping/coder/dba/datamaker/model/DeviceRecord.java:83-89 | stores any int and leaves the other seven fields unchanged |
| Model.DeviceRecord.SetDeviceData | data-maker/src/main/java/ping/coder/dba/datamaker/model/DeviceRecord.java:91-97 | stores any value and leaves the other seven fields unchanged |
| Model.DeviceRecord.SetSensorData | data-maker/src/main/java/ping/coder/dba/datamaker/model/DeviceRecord.java:99-105 | stores any value and leaves the other seven fields unchanged |
| Model.DeviceRecord.SetSensorMetadata | data-maker/src/main/java/ping/coder/dba/datamaker/model/DeviceRecord.java:107-113 | stores any value and leaves the other seven fields unchanged |
| Model.FieldsOrder | data-maker/src/main/java/ping/coder/dba/datamaker/model/DeviceRecord.java:115-127 | the record shows eight fields in the order deviceId, deviceType, version, timestamp, retry, deviceData, sensorData, sensorMetadata; all but timestamp and retry are quoted |
| Model.ToStringLayout | data-maker/src/main/java/ping/coder/dba/datamaker/model/DeviceRecord.java:115-127 | `toString` is exactly "DeviceRecord{", the fields' `name=value` texts joined by ", " (quoted values in single quotes), and "}" |
| RecordFactory.ModelFormatText | data-maker/src/main/java/ping/coder/dba/datamaker/record/DeviceRecordFactory.java:60 | MODEL_FORMAT prints a non-negative index as "M" and the index zero-padded to 8 digits, and never fails |
| RecordFactory.DeviceNumberFormatText | data-maker/src/main/java/ping/coder/dba/datamaker/record/DeviceRecordFactory.java:61 | DEVICE_NUMBER_FORMAT prints a non-negative serial as "S" and the serial zero-padded to 8 digits |
| RecordFactory.VersionFormatText | data-maker/src/main/java/ping/coder/dba/datamaker/record/DeviceRecordFactory.java:62 | VERSION_FORMAT prints "ver." and the three numbers separated by dots |
| RecordFactory.DeviceFormatText | data-maker/src/main/java/ping/coder/dba/datamaker/record/DeviceRecordFactory.java:59 | DEVICE_FORMAT prints "D" and the three arguments separated by dashes |
| RecordFactory.ModelIdsDistinct | data-maker/src/main/java/ping/coder/dba/datamaker/record/DeviceRecordFactory.java:96 | distinct indices give distinct model ids |
| RecordFactory.ModelIdLayout | data-maker/src/main/java/ping/coder/dba/datamaker/record/DeviceRecordFactory.java:60 | an index below 10^8 gives "M" followed by exactly 8 digits that read back as the index |
| RecordFactory.VersionLayout | data-maker/src/main/java/ping/coder/dba/datamaker/record/DeviceRecordFactory.java:104-106 | numbers in [0,2), [0,2), [0,6) give "ver.a.b.c" with a, b in {0,1} and c in [0,5], and the three digits give the numbers back |
| RecordFactory.BuildVersion | data-maker/src/main/java/ping/coder/dba/datamaker/record/DeviceRecordFactory.java:104-106 | `buildVersion` makes three calls of the random source and returns a well-formed version built from them |
| RecordFactory.DrawnVersionWellFormed | data-maker/src/main/java/ping/coder/dba/datamaker/record/DeviceRecordFactory.java:105 | whatever the random source holds, the version drawn from it is well formed |
| RecordFactory.BuildDeviceIdFormat | data-maker/src/main/java/ping/coder/dba/datamaker/record/DeviceRecordFactory.java:108-110 | `buildDeviceId` never fails on strings and prints "D" + worker id + "-" + model id + "-" + serial segment |
| RecordFactory.DeviceIdRoundTrip | data-maker/src/main/java/ping/coder/dba/datamaker/record/DeviceRecordFactory.java:108-110 | when neither the worker id nor the model id contains a dash, splitting a device id at its first two dashes gives back the three parts |
| RecordFactory.PoolExtend | data-maker/src/main/java/ping/coder/dba/datamaker/record/DeviceRecordFactory.java:133-134 | appending the next generated model to a generated pool gives a generated pool one longer |
| RecordFactory.GeneratedIdsDistinct | data-maker/src/main/java/ping/coder/dba/datamaker/record/DeviceRecordFactory.java:133-134 | the model ids of a generated pool are pairwise distinct |
| RecordFactory.GeneratedVersionsWellFormed | data-maker/src/main/java/ping/coder/dba/datamaker/record/DeviceRecordFactory.java:98 | every model of a generated pool has a well-formed version |
| RecordFactory.CreateDeviceModel | data-maker/src/main/java/ping/coder/dba/datamaker/record/DeviceRecordFactory.java:94-102 | a format that fails throws before the random source is called; otherwise a fresh model gets the formatted id, a brand, a drawn version and two JSON documents, six calls of the random source in that order |
| RecordFactory.PoolTypesBound | data-maker/src/test/java/ping/coder/dba/datamaker/record/DeviceRecordFactoryTest.java:46-53 | a pool of n models has at most n distinct device types |
| RecordFactory.DeviceRecordFactory.constructor | data-maker/src/main/java/ping/coder/dba/datamaker/record/DeviceRecordFactory.java:72-77 | the factory keeps the four settings it is given |
| RecordFactory.DeviceRecordFactory.NewRecord | data-maker/src/main/java/ping/coder/dba/datamaker/record/DeviceRecordFactory.java:80-92 | draws a pool index in [0, size) and a serial in [0, deviceNumber); a number format that fails throws; otherwise a fresh record with the device id of the worker, the model and the formatted serial, the model's type, version, device data and metadata, a retry in [0,5), a drawn timestamp and sensor data; under the default format it never throws; no model and no factory field changes |
| RecordFactory.FillRecord | data-maker/src/main/java/ping/coder/dba/datamaker/record/DeviceRecordFactory.java:82-91 | a fresh record gets the device id, copies the model's static fields, and takes a retry, a timestamp and sensor data from the next three calls of the random source |
| RecordFactory.CreateNumberedModel | data-maker/src/main/java/ping/coder/dba/datamaker/record/DeviceRecordFactory.java:134 | `createDeviceMode(index, MODEL_FORMAT)` never fails and gives the model id "M" + the index zero-padded to 8 digits |
| RecordFactory.GeneratePool | data-maker/src/main/java/ping/coder/dba/datamaker/record/DeviceRecordFactory.java:132-135 | the loop makes exactly `length` pairwise distinct models, the i-th (0-based) with id "M" + (i+1) zero-padded to 8 digits, six calls of the random source each |
| RecordFactory.DeviceRecordFactoryBuilder.constructor | data-maker/src/main/java/ping/coder/dba/datamaker/record/DeviceRecordFactory.java:117-118 | a new builder has nothing set |
| RecordFactory.DeviceRecordFactoryBuilder.WorkerId | data-maker/src/main/java/ping/coder/dba/datamaker/record/DeviceRecordFactory.java:119-122 | stores the worker id without a check; the other settings are unchanged |
| RecordFactory.DeviceRecordFactoryBuilder.ModelList | data-maker/src/main/java/ping/coder/dba/datamaker/record/DeviceRecordFactory.java:123-128 | throws exactly for a `null` or empty list and then leaves the builder unchanged; otherwise stores the list |
| RecordFactory.DeviceRecordFactoryBuilder.Models | data-maker/src/main/java/ping/coder/dba/datamaker/record/DeviceRecordFactory.java:129-137 | throws exactly when `length <= 0`, calling the random source for nothing and changing nothing; otherwise the pool becomes `length` generated models with ids M00000001, M00000002, ... |
| RecordFactory.DeviceRecordFactoryBuilder.DeviceNumber | data-maker/src/main/java/ping/coder/dba/datamaker/record/DeviceRecordFactory.java:138-143 | throws exactly when `number <= 0` and then leaves the builder unchanged; otherwise stores the number |
| RecordFactory.DeviceRecordFactoryBuilder.DeviceNumberFormat | data-maker/src/main/java/ping/coder/dba/datamaker/record/DeviceRecordFactory.java:144-147 | stores the format without a check |
| RecordFactory.DeviceRecordFactoryBuilder.Build | data-maker/src/main/java/ping/coder/dba/datamaker/record/DeviceRecordFactory.java:148-158 | keeps every setting that was given; fills in only the missing ones: no or empty pool gives 10 generated models, no worker id gives "0", a device number <= 0 gives 1000, no or empty format gives "S%08d"; the factory has a non-empty pool and a positive device number |
| RecordFactory.DeviceRecordFactoryBuilder.ApplyDefaults | data-maker/src/main/java/ping/coder/dba/datamaker/record/DeviceRecordFactory.java:151-156 | the defaults after the pool: worker id, device number and serial format, each only when missing |
| RecordFactory.DefaultDeviceIdText | data-maker/src/main/java/ping/coder/dba/datamaker/record/DeviceRecordFactory.java:83 | under the default format the device id is "D" + worker id + "-" + model id + "-S" + the serial zero-padded to 8 digits |
| RecordFactory.SerialDeviceId | data-maker/src/main/java/ping/coder/dba/datamaker/record/DeviceRecordFactory.java:108-110 | a device id with an "S" segment is "D" + worker id + "-" + model id + "-S" + the digits |
| RecordFactory.SampleDeviceTypes | data-maker/src/test/java/ping/coder/dba/datamaker/record/DeviceRecordFactoryTest.java:46-53 | however many records are sampled, their device types are types of the pool, at most one per model |
| DataMaker.Options.constructor | data-maker/src/main/java/ping/coder/dba/datamaker/DataMaker.java:29-53 | every option starts at 0 |
| DataMaker.Options.SetWorkerIndex | data-maker/src/main/java/ping/coder/dba/datamaker/DataMaker.java:60-64 | throws exactly for a negative index, with the value in the message and the field unchanged; otherwise stores it; other options unchanged |
| DataMaker.Options.SetWorkerNumber | data-maker/src/main/java/ping/coder/dba/datamaker/DataMaker.java:70-74 | throws exactly for a number <= 0, field unchanged; otherwise stores it; other options unchanged |
| DataMaker.Options.SetInterval | data-maker/src/main/java/ping/coder/dba/datamaker/DataMaker.java:80-84 | throws exactly for a negative interval, field unchanged; otherwise stores it; other options unchanged |
| DataMaker.Options.SetModelNumber | data-maker/src/main/java/ping/coder/dba/datamaker/DataMaker.java:90-92 | stores any int; other options unchanged |
| DataMaker.Options.SetDeviceNumber | data-maker/src/main/java/ping/coder/dba/datamaker/DataMaker.java:98-100 | stores any int; other options unchanged |
| DataMaker.Options.SetLoopNumber | data-maker/src/main/java/ping/coder/dba/datamaker/DataMaker.java:106-108 | stores any int; other options unchanged |
| DataMaker.WorkerIdWidth | data-maker/src/main/java/ping/coder/dba/datamaker/DataMaker.java:149 | the worker-id width is at least 1 |
| DataMaker.WorkerIdWidthDigits | data-maker/src/main/java/ping/coder/dba/datamaker/DataMaker.java:149 | for a positive worker number the width is its number of decimal digits |
| DataMaker.WorkerIdWidthExamples | data-maker/src/main/java/ping/coder/dba/datamaker/DataMaker.java:149 | 1 and 9 workers give width 1, 10 and 99 give 2, 100 gives 3; index 0 of 1 worker is "0" and index 3 of 12 workers is "03" |
| DataMaker.WorkerIdFormatText | data-maker/src/main/java/ping/coder/dba/datamaker/DataMaker.java:150 | `String.format("%0" + width + "d", index)` never fails and is the index zero-padded to the width |
| DataMaker.WorkerIdDigits | data-maker/src/main/java/ping/coder/dba/datamaker/DataMaker.java:148-151 | a worker id of an index >= 0 is all digits, reads back as the index, and is never truncated |
| DataMaker.WorkerIdWidthExact | data-maker/src/main/java/ping/coder/dba/datamaker/DataMaker.java:148-151 | for `0 <= index < workerNumber` every worker's id has the digit count of `workerNumber` |
| DataMaker.WorkerIdInjective | data-maker/src/main/java/ping/coder/dba/datamaker/DataMaker.java:148-151 | distinct worker indices give distinct worker ids |
| DataMaker.ClassNameMessage | data-maker/src/main/java/ping/coder/dba/datamaker/DataMaker.java:141 | the rejection message is "Error record factory class name is: " followed by the name |
| DataMaker.BuildChain | data-maker/src/main/java/ping/coder/dba/datamaker/DataMaker.java:145 | the builder chain throws the model-size error for a model number <= 0 before calling the random source, and the device-number error for a device number <= 0 after generating the pool; otherwise a factory with exactly these settings, a generated pool and the default serial format |
| DataMaker.FinishChain | data-maker/src/main/java/ping/coder/dba/datamaker/DataMaker.java:145 | `deviceNumber(n).build()` on a builder holding a pool throws exactly for n <= 0; otherwise keeps the pool and worker id and sets the default format |
| DataMaker.DataMaker.constructor | data-maker/src/main/java/ping/coder/dba/datamaker/DataMaker.java:131-135 | the maker keeps its options and has no factory yet |
| DataMaker.DataMaker.BuildWorkerId | data-maker/src/main/java/ping/coder/dba/datamaker/DataMaker.java:148-151 | the worker id is the worker index zero-padded to the worker-id width of the worker number; for an index the setter accepts it is all digits and reads back as the index |
| DataMaker.DataMaker.BuildDeviceRecordFactory | data-maker/src/main/java/ping/coder/dba/datamaker/DataMaker.java:144-146 | non-positive model or device numbers throw and are not defaulted; otherwise the factory has the options' worker id, model number and device number |
| DataMaker.DataMaker.InitInternal | data-maker/src/main/java/ping/coder/dba/datamaker/DataMaker.java:137-142 | `null`, "" and the device factory's class name build and keep the factory; any other name throws with the name in the message and calls the random source for nothing; a failing build keeps the old factory |
| DataMaker.DataMaker.RunAsWrittenUpTo | data-maker/src/main/java/ping/coder/dba/datamaker/DataMaker.java:114-127 | as written, with `loopTimes` never assigned after 0: for any loop number >= 0 the check never ends the loop, so any bound of records is reached; a negative loop number ends it after the first record; every record copies a model of the pool |
| DataMaker.DataMaker.Run | data-maker/src/main/java/ping/coder/dba/datamaker/DataMaker.java:114-127 | with `loopTimes` counting the checks passed, a positive loop number makes `loopNumber + 1` records and a negative one makes 1, each copying a model of the pool with a retry in [0,5); under the default serial format it never throws |
| DataMaker.Create | data-maker/src/main/java/ping/coder/dba/datamaker/DataMaker.java:131-142 | construction succeeds exactly for an accepted class name with positive model and device numbers, and the maker then holds the factory the options ask for |

## Left out

- PublisherWriter, JvmDataMaker and Writer: a network client, environment and I/O glue, and an
  interface. None of them is part of this model.
- The contents of the random data: brand names, JSON documents (the schemas' fields,
  `nextDouble` coordinates and battery levels) and dates are arbitrary values of the random
  source. `Date.toString`, which depends on the time zone, is a parameter of `ToString`.
- `String.format` is modelled for literal text, `%d`, `%s` and `%%` with an optional `0` flag and
  width. Any other specifier in a user-supplied serial format is modelled as `IllegalFormat`,
  whatever `java.util.Formatter` would make of it.
- RecordFactory.DeviceRecordFactory.NewRecord: with a user serial format outside that subset
  (`"S%x"`, say) it throws where Java prints a serial. Its promises for the default format
  `S%08d` are exact.
- Formatting assumes a default locale with ASCII digits and no grouping. Java formats
  `%d` and `%08d` in the JVM's default locale, and a locale with other digits changes model ids,
  serials and worker ids.
- `Math.log10` is floating point. It is modelled as the exact integer `floor(log10(n))`, which agrees with
  the cast `(int) Math.log10(n)` on every positive `int`.
- DataMaker.DataMaker.Run: one reading of the intended count is modelled: `needLoop(loopTimes++)`,
  so a positive loop number counts the repetitions after the first record. The other reading,
  `loopTimes` incremented before the check, would make `loopNumber` records and is not modelled.
  A loop number of 0 loops without end and is modelled only as written, by
  `RunAsWrittenUpTo` with its bound of records.
- DataMaker.DataMaker.Run, DataMaker.DataMaker.RunAsWrittenUpTo: `Thread.sleep(interval)` is
  left out. `makeRecord` belongs to a subclass, so the records are returned in order instead of
  being handed to it. The factory must be there (`recordFactory != null`); Java would throw a
  `NullPointerException`.
- The JVM `assert options != null` in the constructor: options are never `null` here.
- `RecordFactory<?>` is the only factory type the driver builds, so `recordFactory` has type
  `DeviceRecordFactory`.
- Lists are Dafny sequences. A model list handed to `modelList(list)` is not shared with the
  caller, and `null` list elements are not modelled.
- RecordFactory.GeneratePool, RecordFactory.DeviceRecordFactoryBuilder.Models: state that the
  models are pairwise distinct objects but not that they are freshly allocated.
- RecordFactory.CreateDeviceModel: draws the brand, version and JSON documents before calling
  the setters. The draws and the setters touch different objects, so only their relative order
  within each group is kept.
- The `idSet.size() >= 100` assertion of the factory test holds only with high probability, so
  it is not a property of the model.

## Findings

| source | as written | input that shows it | evidently intended | confidence | as-written member | corrected member |
|---|---|---|---|---|---|---|
| data-maker/src/main/java/ping/coder/dba/datamaker/DataMaker.java:114-123 | `run()` starts `loopTimes` at 0 and never changes it, so every check is `needLoop(0)`, which holds for any loop number >= 0; a positive loop number never stops the loop | `loopNumber = 1`: after the first record `needLoop(0)` is `0 < 1`, so the loop goes on for ever | `loopTimes` counts the checks already passed (`needLoop(loopTimes++)`): a positive loop number makes the first record and `loopNumber` more, and a negative one makes one record | not executed | DataMaker.DataMaker.RunAsWrittenUpTo | DataMaker.DataMaker.Run |
