/**
 * The driver of the data maker: its options, the worker id it derives from them, the factory it
 * builds, and the loop that makes records.
 */
module DataMaker {
  import opened Java
  import opened Decimal
  import opened Formatter
  import opened DataFaker
  import opened Model
  import opened RecordFactory

  /** `DeviceRecordFactory.class.getName()`. */
  const DEVICE_RECORD_FACTORY_CLASS: string := "ping.coder.dba.datamaker.record.DeviceRecordFactory"
  const CLASS_NAME_PREFIX: string := "Error record factory class name is: "

  /** The run options; every field starts at 0. */
  class Options {
    var workerIndex: int32
    var workerNumber: int32
    /** Milliseconds between two records. */
    var interval: int32
    var modelNumber: int32
    var deviceNumber: int32
    /** How many records to make; 0 means without end. */
    var loopNumber: int32

    /** What the checking setters keep: no negative index, worker number or interval. */
    ghost predicate Valid()
      reads this
    {
      workerIndex >= 0 && workerNumber >= 0 && interval >= 0
    }

    constructor ()
      ensures Valid()
      ensures workerIndex == 0 && workerNumber == 0 && interval == 0
      ensures modelNumber == 0 && deviceNumber == 0 && loopNumber == 0
    {
      workerIndex, workerNumber, interval := 0, 0, 0;
      modelNumber, deviceNumber, loopNumber := 0, 0, 0;
    }

    function WorkerIndex(): int32 reads this { workerIndex }
    function WorkerNumber(): int32 reads this { workerNumber }
    function Interval(): int32 reads this { interval }
    function ModelNumber(): int32 reads this { modelNumber }
    function DeviceNumber(): int32 reads this { deviceNumber }
    function LoopNumber(): int32 reads this { loopNumber }

    /** `setWorkerIndex(v)`: a negative index is rejected with its value in the message. */
    method SetWorkerIndex(v: int32) returns (o: Outcome)
      modifies this
      ensures o.Fail? <==> v < 0
      ensures o.Fail? ==> o == Fail(IllegalArgument("worker index was " + IntText(v as int))) && workerIndex == old(workerIndex)
      ensures o.Pass? ==> workerIndex == v
      ensures old(Valid()) ==> Valid()
      ensures workerNumber == old(workerNumber) && interval == old(interval)
      ensures modelNumber == old(modelNumber) && deviceNumber == old(deviceNumber)
      ensures loopNumber == old(loopNumber)
    {
      if v < 0 {
        return Fail(IllegalArgument("worker index was " + IntText(v as int)));
      }
      workerIndex := v;
      o := Pass;
    }

    /** `setWorkerNumber(v)`: a number below 1 is rejected with its value in the message. */
    method SetWorkerNumber(v: int32) returns (o: Outcome)
      modifies this
      ensures o.Fail? <==> v <= 0
      ensures o.Fail? ==> o == Fail(IllegalArgument("worker number was " + IntText(v as int))) && workerNumber == old(workerNumber)
      ensures o.Pass? ==> workerNumber == v
      ensures old(Valid()) ==> Valid()
      ensures workerIndex == old(workerIndex) && interval == old(interval)
      ensures modelNumber == old(modelNumber) && deviceNumber == old(deviceNumber)
      ensures loopNumber == old(loopNumber)
    {
      if v <= 0 {
        return Fail(IllegalArgument("worker number was " + IntText(v as int)));
      }
      workerNumber := v;
      o := Pass;
    }

    /** `setInterval(v)`: a negative interval is rejected with its value in the message. */
    method SetInterval(v: int32) returns (o: Outcome)
      modifies this
      ensures o.Fail? <==> v < 0
      ensures o.Fail? ==> o == Fail(IllegalArgument("interval was " + IntText(v as int))) && interval == old(interval)
      ensures o.Pass? ==> interval == v
      ensures old(Valid()) ==> Valid()
      ensures workerIndex == old(workerIndex) && workerNumber == old(workerNumber)
      ensures modelNumber == old(modelNumber) && deviceNumber == old(deviceNumber)
      ensures loopNumber == old(loopNumber)
    {
      if v < 0 {
        return Fail(IllegalArgument("interval was " + IntText(v as int)));
      }
      interval := v;
      o := Pass;
    }

    /** `setModelNumber(v)`: stored without a check. */
    method SetModelNumber(v: int32)
      modifies this
      ensures modelNumber == v
      ensures old(Valid()) ==> Valid()
      ensures workerIndex == old(workerIndex) && workerNumber == old(workerNumber)
      ensures interval == old(interval) && deviceNumber == old(deviceNumber)
      ensures loopNumber == old(loopNumber)
    {
      modelNumber := v;
    }

    /** `setDeviceNumber(v)`: stored without a check. */
    method SetDeviceNumber(v: int32)
      modifies this
      ensures deviceNumber == v
      ensures old(Valid()) ==> Valid()
      ensures workerIndex == old(workerIndex) && workerNumber == old(workerNumber)
      ensures interval == old(interval) && modelNumber == old(modelNumber)
      ensures loopNumber == old(loopNumber)
    {
      deviceNumber := v;
    }

    /** `setLoopNumber(v)`: stored without a check. */
    method SetLoopNumber(v: int32)
      modifies this
      ensures loopNumber == v
      ensures old(Valid()) ==> Valid()
      ensures workerIndex == old(workerIndex) && workerNumber == old(workerNumber)
      ensures interval == old(interval) && modelNumber == old(modelNumber)
      ensures deviceNumber == old(deviceNumber)
    {
      loopNumber := v;
    }
  }

  // ---------------------------------------------------------------------------------------------
  // Worker ids

  /** The width of a worker id: 1 below 10 workers, otherwise `(int) Math.log10(workerNumber) + 1`. */
  function WorkerIdWidth(workerNumber: int): (w: nat)
    ensures w >= 1
  {
    if workerNumber < 10 then 1 else Log10(workerNumber) + 1
  }

  /** The width is the number of decimal digits of the worker number, so every index below it fits. */
  lemma WorkerIdWidthDigits(workerNumber: int)
    requires workerNumber >= 1
    ensures WorkerIdWidth(workerNumber) == |Digits(workerNumber)|
    ensures workerNumber < Pow10(WorkerIdWidth(workerNumber))
  {
    DigitsLength(workerNumber);
    if workerNumber < 10 {
      assert Digits(workerNumber) == [DigitChar(workerNumber)];
    } else {
      Log10DigitCount(workerNumber);
    }
  }

  /** The format of a worker id: "%0", the width in decimal, "d". */
  function WorkerIdFormat(workerNumber: int): string {
    "%0" + Digits(WorkerIdWidth(workerNumber)) + "d"
  }

  /** `String.format(WorkerIdFormat(workerNumber), workerIndex)` never fails and zero-pads the index. */
  lemma WorkerIdFormatText(workerIndex: int, workerNumber: int)
    ensures Format(WorkerIdFormat(workerNumber), [IntArg(workerIndex)]) == Ok(WorkerId(workerIndex, workerNumber))
  {
    var w := WorkerIdWidth(workerNumber);
    var args := [IntArg(workerIndex)];
    assert WorkerIdFormat(workerNumber) == "%0" + Digits(w) + "d" + "";
    FormatZeroPadded(w, "", args, 0);
    assert ZeroPadded(workerIndex, w) + "" == ZeroPadded(workerIndex, w);
  }

  /** The worker id of an index among `workerNumber` workers: the index zero-padded to the width. */
  function WorkerId(workerIndex: int, workerNumber: int): string {
    ZeroPadded(workerIndex, WorkerIdWidth(workerNumber))
  }

  /**
   * The worker id of a non-negative index is all digits, reads back as the index, and is never
   * shorter than the width nor truncated when the index does not fit.
   */
  lemma WorkerIdDigits(workerIndex: int, workerNumber: int)
    requires workerIndex >= 0
    ensures var id := WorkerId(workerIndex, workerNumber);
      && AllDigits(id) && Value(id) == workerIndex
      && |id| == Max(WorkerIdWidth(workerNumber), |Digits(workerIndex)|)
  {
    ZeroPadValue(workerIndex, WorkerIdWidth(workerNumber));
  }

  /**
   * The intended use, `0 <= workerIndex < workerNumber`: every worker's id has the same width, the
   * digit count of the number of workers.
   */
  lemma WorkerIdWidthExact(workerIndex: int, workerNumber: int)
    requires 0 <= workerIndex < workerNumber
    ensures |WorkerId(workerIndex, workerNumber)| == |Digits(workerNumber)|
  {
    var w := WorkerIdWidth(workerNumber);
    assert WorkerId(workerIndex, workerNumber) == ZeroPad(workerIndex, w);
    assert w == |Digits(workerNumber)| && workerIndex < Pow10(w) by {
      WorkerIdWidthDigits(workerNumber);
    }
    ZeroPadExactWidth(workerIndex, w);
  }

  /** Two workers of one run get the same id only when they have the same index. */
  lemma WorkerIdInjective(i: int, j: int, workerNumber: int)
    requires i >= 0 && j >= 0
    ensures WorkerId(i, workerNumber) == WorkerId(j, workerNumber) ==> i == j
  {
    WorkerIdDigits(i, workerNumber);
    WorkerIdDigits(j, workerNumber);
  }

  /**
   * Examples of the width and the id: 1 and 9 workers give 1 digit, 10 and 99 give 2, 100 gives 3;
   * index 0 of 1 worker is "0" and index 3 of 12 workers is "03".
   */
  lemma WorkerIdWidthExamples()
    ensures WorkerIdWidth(1) == 1 && WorkerIdWidth(9) == 1
    ensures WorkerIdWidth(10) == 2 && WorkerIdWidth(99) == 2 && WorkerIdWidth(100) == 3
    ensures WorkerId(0, 1) == "0" && WorkerId(3, 12) == "03"
  {
    assert Log10(10) == 1 by { assert Log10(1) == 0; }
    assert Log10(99) == 1 by { assert Log10(9) == 0; }
    assert Log10(100) == 2 by { assert Log10(10) == 1 by { assert Log10(1) == 0; } }
    assert Log10(12) == 1 by { assert Log10(1) == 0; }
    assert Digits(0) == "0";
    assert Digits(3) == "3";
  }

  // ---------------------------------------------------------------------------------------------
  // The loop

  /** `needLoop(loopTimes)`: go on when the loop number is 0 or not yet reached. */
  function NeedLoop(loopNumber: int, loopTimes: int): bool {
    loopNumber == 0 || loopTimes < loopNumber
  }

  // ---------------------------------------------------------------------------------------------
  // The driver

  /** Whether `initInternal` accepts a record factory class name: none, empty, or the device factory. */
  predicate IsDeviceFactoryName(className: JString) {
    className.Null? || className.value == "" || className.value == DEVICE_RECORD_FACTORY_CLASS
  }

  /** The message of a rejected class name: `String.format("Error record factory class name is: %s", name)`. */
  lemma ClassNameMessage(className: string)
    ensures Format(CLASS_NAME_PREFIX + "%s", [StrArg(className)]) == Ok(CLASS_NAME_PREFIX + className)
  {
    var args := [StrArg(className)];
    assert CLASS_NAME_PREFIX + "%s" == CLASS_NAME_PREFIX + ("%s" + "");
    FormatLiteral(CLASS_NAME_PREFIX, "%s" + "", args, 0);
    FormatString("", args, 0);
    assert className + "" == className;
  }

  /**
   * What `builder().workerId(workerId).models(modelNumber).deviceNumber(deviceNumber).build()`
   * makes from the random source's values from `d` on.
   */
  ghost predicate IsChainBuilt(f: DeviceRecordFactory, workerId: string, modelNumber: int32, deviceNumber: int32)
  {
    && f.Valid()
    && f.workerId == workerId
    && |f.modelList| == modelNumber as int
    && f.deviceNumber == deviceNumber
    && f.numberFormat == DEVICE_NUMBER_FORMAT
  }

  /**
   * The builder chain of `buildDeviceRecordFactory()`. A model number below 1 throws before any
   * model is made; a device number below 1 throws after the models are made.
   */
  method BuildChain(workerId: string, modelNumber: int32, deviceNumber: int32, faker: BaseFaker)
    returns (r: Result<DeviceRecordFactory>)
    modifies faker
    ensures modelNumber <= 0 ==> r == Err(IllegalArgument(MODEL_SIZE_MESSAGE)) && faker.draws == old(faker.draws)
    ensures modelNumber > 0 ==> faker.draws == old(faker.draws) + DRAWS_PER_MODEL * modelNumber as int
    ensures modelNumber > 0 && deviceNumber <= 0 ==> r == Err(IllegalArgument(DEVICE_NUMBER_MESSAGE))
    ensures modelNumber > 0 && deviceNumber > 0 ==> r.Ok? && fresh(r.value)
    ensures r.Ok? ==> IsGeneratedPool(r.value.modelList, faker, old(faker.draws))
    ensures r.Ok? ==> IsChainBuilt(r.value, workerId, modelNumber, deviceNumber)
  {
    var builder := new DeviceRecordFactoryBuilder();
    builder.WorkerId(NonNull(workerId));
    var o := builder.Models(modelNumber, faker);
    if o.Fail? {
      return Err(o.exception);
    }
    r := FinishChain(builder, deviceNumber, faker);
  }

  /** The end of the chain: `deviceNumber(deviceNumber).build()` on a builder that holds a pool. */
  method FinishChain(builder: DeviceRecordFactoryBuilder, deviceNumber: int32, faker: BaseFaker)
    returns (r: Result<DeviceRecordFactory>)
    requires builder.Valid() && builder.modelList.NonNull? && |builder.modelList.value| > 0
    requires builder.workerId.NonNull? && builder.numberFormat.Null?
    modifies builder, faker
    ensures faker.draws == old(faker.draws)
    ensures deviceNumber <= 0 ==> r == Err(IllegalArgument(DEVICE_NUMBER_MESSAGE))
    ensures deviceNumber > 0 ==> r.Ok? && fresh(r.value)
    ensures r.Ok? ==> r.value.modelList == old(builder.modelList.value)
    ensures r.Ok? ==> IsChainBuilt(r.value, old(builder.workerId.value), |old(builder.modelList.value)| as int32, deviceNumber)
  {
    var o := builder.DeviceNumber(deviceNumber);
    if o.Fail? {
      return Err(o.exception);
    }
    var factory := builder.Build(faker);
    r := Ok(factory);
  }

  /** The factory the options ask for: the worker id they give, and their model and device numbers. */
  ghost predicate IsBuiltFactory(f: DeviceRecordFactory, options: Options, faker: BaseFaker, d: nat)
    reads options, f.modelList
  {
    && IsChainBuilt(f, WorkerId(options.workerIndex as int, options.workerNumber as int),
                    options.modelNumber, options.deviceNumber)
    && IsGeneratedPool(f.modelList, faker, d)
  }

  /** A record `newRecord` makes: it copies one model of the pool and its retry count is below 5. */
  ghost predicate IsPoolRecord(rec: DeviceRecord, pool: seq<DeviceModel>)
    reads rec, pool
  {
    && (exists j :: 0 <= j < |pool| && CopiesModel(rec, pool[j]))
    && 0 <= rec.retry < 5
  }

  class DataMaker {
    const options: Options
    var recordFactory: DeviceRecordFactory?

    /** The part of the constructor before `initInternal`. */
    constructor (options: Options)
      ensures this.options == options && recordFactory == null
    {
      this.options := options;
      recordFactory := null;
    }

    /**
     * `buildWorkerId()`: the width comes from the number of workers, then the index is formatted.
     * With the index the checking setter allows, the id is all digits and reads back as it.
     */
    function BuildWorkerId(): (id: string)
      reads options
      ensures id == WorkerId(options.workerIndex as int, options.workerNumber as int)
      ensures options.Valid() ==> AllDigits(id) && Value(id) == options.workerIndex as int
    {
      var index := options.workerIndex as int;
      var workerNumber := options.workerNumber as int;
      var length := if workerNumber < 10 then 1 else Log10(workerNumber) + 1;
      WorkerIdFormatText(index, workerNumber);
      var id := WorkerId(index, workerNumber);
      assert index >= 0 ==> AllDigits(id) && Value(id) == index by {
        if index >= 0 {
          WorkerIdDigits(index, workerNumber);
        }
      }
      Format("%0" + Digits(length) + "d", [IntArg(index)]).value
    }

    /**
     * `buildDeviceRecordFactory()`: the builder chain with this maker's worker id, model number
     * and device number.
     */
    method BuildDeviceRecordFactory(faker: BaseFaker) returns (r: Result<DeviceRecordFactory>)
      modifies faker
      ensures options.modelNumber <= 0 ==>
        r == Err(IllegalArgument(MODEL_SIZE_MESSAGE)) && faker.draws == old(faker.draws)
      ensures options.modelNumber > 0 ==>
        faker.draws == old(faker.draws) + DRAWS_PER_MODEL * options.modelNumber as int
      ensures options.modelNumber > 0 && options.deviceNumber <= 0 ==>
        r == Err(IllegalArgument(DEVICE_NUMBER_MESSAGE))
      ensures options.modelNumber > 0 && options.deviceNumber > 0 ==>
        r.Ok? && fresh(r.value) && IsBuiltFactory(r.value, options, faker, old(faker.draws))
    {
      r := BuildChain(BuildWorkerId(), options.modelNumber, options.deviceNumber, faker);
    }

    /**
     * `initInternal(className)`: for the device factory's name (or none) the factory is built and
     * kept; any other name is rejected without drawing anything.
     */
    method InitInternal(className: JString, faker: BaseFaker) returns (o: Outcome)
      modifies this, faker
      ensures !IsDeviceFactoryName(className) ==>
        && o == Fail(IllegalArgument(CLASS_NAME_PREFIX + className.value))
        && recordFactory == old(recordFactory) && faker.draws == old(faker.draws)
      ensures IsDeviceFactoryName(className) ==>
        && (o.Fail? <==> options.modelNumber <= 0 || options.deviceNumber <= 0)
        && (o.Fail? ==> recordFactory == old(recordFactory))
        && (o.Pass? ==> recordFactory != null && fresh(recordFactory)
                        && IsBuiltFactory(recordFactory, options, faker, old(faker.draws)))
    {
      if !IsDeviceFactoryName(className) {
        ClassNameMessage(className.value);
        var message := Format(CLASS_NAME_PREFIX + "%s", [StrArg(className.value)]);
        return Fail(IllegalArgument(message.value));
      }
      var r := BuildDeviceRecordFactory(faker);
      if r.Err? {
        return Fail(r.exception);
      }
      recordFactory := r.value;
      o := Pass;
    }

    /** `needLoop(loopTimes)` on this maker's options. */
    function NeedLoopOf(loopTimes: int): bool
      reads options
    {
      NeedLoop(options.loopNumber as int, loopTimes)
    }

    /**
     * `run()` as written, for at most `limit` records: `loopTimes` is 0 and is never assigned
     * again, so every check asks `needLoop(0)`. `stopped` says that the check ended the loop; the
     * records are returned in the order they were made. For a loop number of 0 or more the
     * check never ends the loop, so only the bound does; a negative one ends it after the first
     * record.
     */
    method RunAsWrittenUpTo(limit: nat, faker: BaseFaker) returns (r: Result<seq<DeviceRecord>>, stopped: bool)
      requires recordFactory != null && recordFactory.Valid()
      modifies faker
      ensures r.Ok? && options.loopNumber >= 0 ==> !stopped && |r.value| == limit
      ensures r.Ok? && options.loopNumber < 0 && limit >= 1 ==> stopped && |r.value| == 1
      ensures r.Ok? ==> forall k :: 0 <= k < |r.value| ==> IsPoolRecord(r.value[k], recordFactory.modelList)
      ensures recordFactory.numberFormat == DEVICE_NUMBER_FORMAT ==> r.Ok?
    {
      var loopTimes: int32 := 0;
      var records := [];
      stopped := false;
      while |records| < limit && !stopped
        invariant |records| <= limit
        invariant stopped ==> options.loopNumber < 0 && |records| == 1
        invariant !stopped && options.loopNumber < 0 ==> |records| == 0
        invariant forall k :: 0 <= k < |records| ==> IsPoolRecord(records[k], recordFactory.modelList)
        decreases limit - |records|
      {
        var record := recordFactory.NewRecord(faker);
        if record.Err? {
          return Err(record.exception), stopped;
        }
        records := records + [record.value];
        if !NeedLoopOf(loopTimes as int) {
          stopped := true;
        }
      }
      r := Ok(records);
    }

    /**
     * `run()` with `loopTimes` counting the checks already passed, as `needLoop(loopTimes++)`
     * would: a negative loop number makes one record, and a positive one makes the first record
     * and `loopNumber` more. A loop number of 0 loops without end and is not modelled.
     * `makeRecord` is the caller's: the records are returned in the order they were made.
     */
    method Run(faker: BaseFaker) returns (r: Result<seq<DeviceRecord>>)
      requires recordFactory != null && recordFactory.Valid()
      requires options.loopNumber != 0
      modifies faker
      ensures r.Ok? && options.loopNumber > 0 ==> |r.value| == options.loopNumber as int + 1
      ensures r.Ok? && options.loopNumber < 0 ==> |r.value| == 1
      ensures r.Ok? ==> forall k :: 0 <= k < |r.value| ==> IsPoolRecord(r.value[k], recordFactory.modelList)
      ensures recordFactory.numberFormat == DEVICE_NUMBER_FORMAT ==> r.Ok?
    {
      var loopTimes: int32 := 0;
      var records := [];
      while true
        invariant 0 <= loopTimes && |records| == loopTimes as int
        invariant options.loopNumber > 0 ==> loopTimes <= options.loopNumber
        invariant options.loopNumber < 0 ==> loopTimes == 0
        invariant forall k :: 0 <= k < |records| ==> IsPoolRecord(records[k], recordFactory.modelList)
        decreases if options.loopNumber > 0 then options.loopNumber - loopTimes else 0
      {
        var record := recordFactory.NewRecord(faker);
        if record.Err? {
          return Err(record.exception);
        }
        records := records + [record.value];
        if !NeedLoopOf(loopTimes as int) {
          break;
        }
        loopTimes := loopTimes + 1;
      }
      r := Ok(records);
    }
  }

  /**
   * `new DataMaker(className, options)` as a subclass calls it: the options are kept and the
   * record factory is initialised; a rejected initialisation throws from the constructor.
   */
  method Create(className: JString, options: Options, faker: BaseFaker) returns (r: Result<DataMaker>)
    modifies faker
    ensures r.Ok? <==> IsDeviceFactoryName(className) && options.modelNumber > 0 && options.deviceNumber > 0
    ensures r.Ok? ==>
      && fresh(r.value) && r.value.options == options && r.value.recordFactory != null
      && IsBuiltFactory(r.value.recordFactory, options, faker, old(faker.draws))
  {
    var maker := new DataMaker(options);
    var o := maker.InitInternal(className, faker);
    if o.Fail? {
      return Err(o.exception);
    }
    r := Ok(maker);
  }
}
