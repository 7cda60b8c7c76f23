/**
 * AttributeMapper<T>: converts one typed value to and from an attribute value. Every mapper
 * of the engine is a SimpleAttributeMapper: a reader and a writer that see only non-null
 * inputs, behind a guard that reads an absent attribute value as null and writes a null
 * value as the explicit Nul marker.
 */
module AttributeMapping {
  import opened Wrappers
  import opened JavaLang
  import opened AttributeValues
  import opened Bidirectional

  datatype AttributeMapper<!T(!new)> = AttributeMapper(
    reader: AttributeValue -> Result<Option<T>, Exception>,
    writer: T -> Result<AttributeValue, Exception>)
  {
    /** `T map(AttributeValue)`: an absent value reads as null; a present one goes to the reader. */
    function Read(value: Option<AttributeValue>): (r: Result<Option<T>, Exception>)
      ensures value.None? ==> r == Success(None)
      ensures value.Some? ==> r == reader(value.value)
    {
      if value.None? then Success(None) else reader(value.value)
    }

    /** `AttributeValue map(T)`: null is written as Nul; a present value goes to the writer. */
    function Write(value: Option<T>): (r: Result<AttributeValue, Exception>)
      ensures value.None? ==> r == Success(Nul)
      ensures value.Some? ==> r == writer(value.value)
    {
      if value.None? then Success(Nul) else writer(value.value)
    }

    /** Writing `value` succeeds and reading the written attribute value gives `value` back. */
    ghost predicate RoundTripsOn(value: Option<T>) {
      Write(value).Success? && Read(Some(Write(value).value)) == Success(value)
    }

    /**
     * `map(BidirectionalMapper)`: reading applies this mapper and then the transform's read;
     * writing applies the transform's write and then this mapper. The lifted mapper has its
     * own null guard, so the transform never sees an absent value or a null to write.
     */
    function Map<R(!new)>(mapper: BidirectionalMapper<T, R>): (m: AttributeMapper<R>)
      ensures forall av :: Read(Some(av)).Success? ==> m.Read(Some(av)) == mapper.Read(Read(Some(av)).value)
      ensures forall av :: Read(Some(av)).Failure? ==> m.Read(Some(av)) == Failure(Read(Some(av)).error)
      ensures forall v :: mapper.Write(Some(v)).Success? ==> m.Write(Some(v)) == Write(mapper.Write(Some(v)).value)
      ensures forall v :: mapper.Write(Some(v)).Failure? ==> m.Write(Some(v)) == Failure(mapper.Write(Some(v)).error)
    {
      AttributeMapper(av => var v :- Read(Some(av)); mapper.Read(v),
                      v => var w :- mapper.Write(Some(v)); Write(w))
    }

    /** `map(reader, writer)`: lifting through BidirectionalMapper.of(reader, writer). */
    function MapWith<R(!new)>(reader: Option<T> -> Result<Option<R>, Exception>,
                              writer: Option<R> -> Result<Option<T>, Exception>): (m: AttributeMapper<R>)
      ensures m.Read(None) == Success(None) && m.Write(None) == Success(Nul)
      ensures forall av :: Read(Some(av)).Success? ==> m.Read(Some(av)) == reader(Read(Some(av)).value)
      ensures forall av :: Read(Some(av)).Failure? ==> m.Read(Some(av)) == Failure(Read(Some(av)).error)
      ensures forall v :: writer(Some(v)).Success? ==> m.Write(Some(v)) == Write(writer(Some(v)).value)
      ensures forall v :: writer(Some(v)).Failure? ==> m.Write(Some(v)) == Failure(writer(Some(v)).error)
    {
      Map(Of(reader, writer))
    }
  }

  /** A lifted mapper round-trips where the transform and then the base mapper do. */
  lemma MapRoundTrip<T(!new), R(!new)>(base: AttributeMapper<T>, mapper: BidirectionalMapper<T, R>, v: R)
    requires mapper.RoundTripsOn(Some(v)) && base.RoundTripsOn(mapper.Write(Some(v)).value)
    ensures base.Map(mapper).RoundTripsOn(Some(v))
  {
  }

  /** Lifting through a reader and a writer preserves round trips, as lifting through a mapper does. */
  lemma MapWithRoundTrip<T(!new), R(!new)>(base: AttributeMapper<T>, reader: Option<T> -> Result<Option<R>, Exception>,
                                           writer: Option<R> -> Result<Option<T>, Exception>, v: R)
    requires writer(Some(v)).Success? && reader(writer(Some(v)).value) == Success(Some(v))
    requires base.RoundTripsOn(writer(Some(v)).value)
    ensures base.MapWith(reader, writer).RoundTripsOn(Some(v))
  {
    MapRoundTrip(base, Of(reader, writer), v);
  }

  /** Lifting twice reads exactly like lifting once through `then`. */
  lemma MapTwiceReads<T(!new), R(!new), U(!new)>(base: AttributeMapper<T>, first: BidirectionalMapper<T, R>,
                                                 second: BidirectionalMapper<R, U>, av: Option<AttributeValue>)
    ensures base.Map(first).Map(second).Read(av) == base.Map(first.Then(second)).Read(av)
  {
  }

  /**
   * Lifting twice writes like lifting once through `then` whenever the first transform
   * writes null as null: the intermediate mapper writes a null from the second transform
   * as Nul without consulting the first transform, while `then` passes that null on.
   */
  lemma MapTwiceWrites<T(!new), R(!new), U(!new)>(base: AttributeMapper<T>, first: BidirectionalMapper<T, R>,
                                                  second: BidirectionalMapper<R, U>, v: Option<U>)
    requires first.Write(None) == Success(None)
    ensures base.Map(first).Map(second).Write(v) == base.Map(first.Then(second)).Write(v)
  {
  }

  /**
   * Fields written alike are equal: a mapper that round-trips two field values and writes
   * them as the same attribute value was given the same value twice.
   */
  lemma SameWritingSameField<T(!new)>(mapper: AttributeMapper<T>, value: Option<T>, other: Option<T>)
    requires mapper.RoundTripsOn(value) && mapper.RoundTripsOn(other)
    requires mapper.Write(value) == mapper.Write(other)
    ensures value == other
  {
  }
}
