/**
 * The one shared `BaseFaker` of the record factory, made an explicit random source.
 *
 * The source is given three streams of arbitrary values, fixed when it is created, and a
 * counter of the calls made on it so far; every call takes the next position. One call stands
 * for one library call, however much randomness that call uses inside (a JSON document). Any sequence of
 * results the real faker can produce is the result of some choice of streams, so properties
 * proved for all streams hold for every run. Brand names, JSON documents and dates are opaque:
 * nothing is assumed about them.
 */
module DataFaker {
  import opened Java

  /** The three `Schema`s of the factory that `JsonTransformer.generate` fills in. */
  datatype Schema = DataSchema | SensorSchema | MetadataSchema

  class BaseFaker {
    const ints: nat -> int
    const texts: nat -> string
    const dates: nat -> Date
    /** How many calls have been made. */
    var draws: nat

    constructor (ints: nat -> int, texts: nat -> string, dates: nat -> Date)
      ensures this.ints == ints && this.texts == texts && this.dates == dates
      ensures draws == 0
    {
      this.ints, this.texts, this.dates := ints, texts, dates;
      draws := 0;
    }

    /** `random().nextInt(n)`, which is `java.util.Random.nextInt(n)`: a value in `[0, n)`. */
    method NextInt(n: int32) returns (r: int32)
      requires n > 0
      modifies this
      ensures 0 <= r < n
      ensures r as int == ints(old(draws)) % n as int
      ensures draws == old(draws) + 1
    {
      r := (ints(draws) % n as int) as int32;
      draws := draws + 1;
    }

    /** `brand().car()`: a car brand name. */
    method Car() returns (brand: string)
      modifies this
      ensures brand == texts(old(draws)) && draws == old(draws) + 1
    {
      brand := texts(draws);
      draws := draws + 1;
    }

    /** `date().past(amount, unit)`: a date at most `amount` units before now. */
    method Past(amount: int32, unit: TimeUnit) returns (date: Date)
      modifies this
      ensures date == dates(old(draws)) && draws == old(draws) + 1
    {
      date := dates(draws);
      draws := draws + 1;
    }

    /** `transformer.generate(schema, 1)`: one JSON object filled in from `schema`. */
    method Generate(schema: Schema) returns (json: string)
      modifies this
      ensures json == texts(old(draws)) && draws == old(draws) + 1
    {
      json := texts(draws);
      draws := draws + 1;
    }
  }
}
